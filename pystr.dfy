/**
 * The parts of Python's `str` that the modelled scripts rely on, over `string` (a `seq<char>`).
 * Slices clamp their bounds as Python does; `Upper`/`Lower` map ASCII letters only.
 */
module PyStr {
  import opened Results

  /** `c.isspace()`: the characters `strip()`, `rstrip()`, `lstrip()` and `split()` treat as blanks. */
  predicate IsSpace(c: char)
  {
    var n := c as int;
    n == 32 || 9 <= n <= 13 || 28 <= n <= 31 || n == 0x85 || n == 0xA0 || n == 0x1680
    || 0x2000 <= n <= 0x200A || n == 0x2028 || n == 0x2029 || n == 0x202F || n == 0x205F || n == 0x3000
  }

  /** `s[:n]` for `n >= 0`. */
  function Take(s: string, n: nat): (r: string)
    ensures |r| == if |s| < n then |s| else n
    ensures r == s[..|r|]
  {
    if |s| <= n then s else s[..n]
  }

  /** `s[n:]` for `n >= 0`. */
  function Drop(s: string, n: nat): (r: string)
    ensures |r| == if |s| < n then 0 else |s| - n
    ensures r == s[|s| - |r|..]
  {
    if |s| <= n then "" else s[n..]
  }

  /** `s[:-n]` for `n > 0`. */
  function DropLast(s: string, n: nat): (r: string)
    ensures |r| == if |s| < n then 0 else |s| - n
    ensures r == s[..|r|]
  {
    if |s| <= n then "" else s[..|s| - n]
  }

  /** `(x + t)[:-n]` when `n` does not reach into `x`. */
  lemma DropLastAppend(x: string, t: string, n: nat)
    requires n <= |t|
    ensures DropLast(x + t, n) == x + t[..|t| - n]
  {
    assert (x + t)[..|x| + |t| - n] == x + t[..|t| - n];
  }

  /** `s.startswith(p)`, equivalently `s[:len(p)] == p`. */
  predicate StartsWith(s: string, p: string)
  {
    |p| <= |s| && s[..|p|] == p
  }

  /** `p in s` for strings. */
  predicate Contains(s: string, p: string)
    decreases |s|
  {
    StartsWith(s, p) || (s != "" && Contains(s[1..], p))
  }

  function RStrip(s: string): (r: string)
    ensures |r| <= |s| && r == s[..|r|]
    decreases |s|
  {
    if s != "" && IsSpace(s[|s| - 1]) then RStrip(s[..|s| - 1]) else s
  }

  /** `rstrip` removes exactly the trailing run of blanks. */
  lemma {:induction false} RStripRemovesTrailingBlanks(s: string)
    ensures var r := RStrip(s);
      && (r == "" || !IsSpace(r[|r| - 1]))
      && forall i :: |r| <= i < |s| ==> IsSpace(s[i])
    decreases |s|
  {
    if s != "" && IsSpace(s[|s| - 1]) {
      RStripRemovesTrailingBlanks(s[..|s| - 1]);
    }
  }

  function LStrip(s: string): (r: string)
    ensures |r| <= |s| && r == s[|s| - |r|..]
    decreases |s|
  {
    if s != "" && IsSpace(s[0]) then LStrip(s[1..]) else s
  }

  /** `lstrip` removes exactly the leading run of blanks. */
  lemma {:induction false} LStripRemovesLeadingBlanks(s: string)
    ensures var r := LStrip(s);
      && (r == "" || !IsSpace(r[0]))
      && forall i :: 0 <= i < |s| - |r| ==> IsSpace(s[i])
    decreases |s|
  {
    if s != "" && IsSpace(s[0]) {
      LStripRemovesLeadingBlanks(s[1..]);
      assert forall i :: 1 <= i < |s| - |LStrip(s)| ==> s[i] == s[1..][i - 1];
    }
  }

  function Strip(s: string): string
  {
    RStrip(LStrip(s))
  }

  function UpperChar(c: char): char
  {
    if 'a' <= c <= 'z' then (c as int - 32) as char else c
  }

  function LowerChar(c: char): char
  {
    if 'A' <= c <= 'Z' then (c as int + 32) as char else c
  }

  function Upper(s: string): (r: string)
    ensures |r| == |s| && forall i :: 0 <= i < |s| ==> r[i] == UpperChar(s[i])
  {
    seq(|s|, i requires 0 <= i < |s| => UpperChar(s[i]))
  }

  function Lower(s: string): (r: string)
    ensures |r| == |s| && forall i :: 0 <= i < |s| ==> r[i] == LowerChar(s[i])
  {
    seq(|s|, i requires 0 <= i < |s| => LowerChar(s[i]))
  }

  /** `s.split(c)` with a one-character separator: always at least one part; empty parts are kept. */
  function SplitOn(s: string, c: char): (parts: seq<string>)
    ensures |parts| >= 1
    decreases |s|
  {
    if s == "" then [""]
    else
      var rest := SplitOn(s[1..], c);
      if s[0] == c then [""] + rest else [[s[0]] + rest[0]] + rest[1..]
  }

  /** `sep.join(parts)`. */
  function Join(sep: string, parts: seq<string>): string
    decreases |parts|
  {
    if parts == [] then ""
    else if |parts| == 1 then parts[0]
    else parts[0] + sep + Join(sep, parts[1..])
  }

  /** Joining the parts of `SplitOn` with the separator gives back the string. */
  lemma {:induction false} SplitOnJoin(s: string, c: char)
    ensures Join([c], SplitOn(s, c)) == s
    decreases |s|
  {
    if s != "" {
      SplitOnJoin(s[1..], c);
      var rest := SplitOn(s[1..], c);
      var parts := SplitOn(s, c);
      assert s == [s[0]] + s[1..];
      if s[0] == c {
        assert parts == [""] + rest;
        assert parts[1..] == rest;
      } else if |rest| > 1 {
        assert parts[1..] == rest[1..];
        assert Join([c], rest) == rest[0] + [c] + Join([c], rest[1..]);
      }
    }
  }

  /** No part produced by `SplitOn` contains the separator. */
  lemma {:induction false} SplitOnPartsFree(s: string, c: char)
    ensures forall k :: 0 <= k < |SplitOn(s, c)| ==> c !in SplitOn(s, c)[k]
    decreases |s|
  {
    if s != "" {
      SplitOnPartsFree(s[1..], c);
      var rest := SplitOn(s[1..], c);
      var parts := SplitOn(s, c);
      if s[0] != c {
        forall k | 0 <= k < |parts| ensures c !in parts[k] {
          if k > 0 { assert parts[k] == rest[k]; }
        }
      }
    }
  }

  /** Splitting a string that starts with a separator-free part `p`: `p` opens the first part. */
  lemma {:induction false} SplitOnFreePrefix(p: string, rest: string, c: char)
    requires c !in p
    ensures SplitOn(p + rest, c) == [p + SplitOn(rest, c)[0]] + SplitOn(rest, c)[1..]
    decreases |p|
  {
    if p != "" {
      var s, tail := p + rest, SplitOn(rest, c);
      SplitOnFreePrefix(p[1..], rest, c);
      var r := SplitOn(p[1..] + rest, c);
      assert r[0] == p[1..] + tail[0] && r[1..] == tail[1..];
      assert s[0] == p[0] && s[0] != c && s[1..] == p[1..] + rest;
      assert SplitOn(s, c) == [[s[0]] + r[0]] + r[1..];
      assert [p[0]] + (p[1..] + tail[0]) == p + tail[0];
    } else {
      var sp := SplitOn(rest, c);
      assert p + rest == rest && p + sp[0] == sp[0];
      assert sp == [sp[0]] + sp[1..];
    }
  }

  /** Splitting the join of separator-free parts gives back the parts: with `SplitOnJoin`, the
      two are inverse to each other. */
  lemma {:induction false} JoinSplitOn(parts: seq<string>, c: char)
    requires |parts| >= 1 && forall k :: 0 <= k < |parts| ==> c !in parts[k]
    ensures SplitOn(Join([c], parts), c) == parts
    decreases |parts|
  {
    if |parts| == 1 {
      SplitOnFreePrefix(parts[0], "", c);
      assert parts[0] + "" == parts[0];
    } else {
      var tail := Join([c], parts[1..]);
      JoinSplitOn(parts[1..], c);
      assert Join([c], parts) == parts[0] + ([c] + tail);
      SplitOnFreePrefix(parts[0], [c] + tail, c);
      assert ([c] + tail)[1..] == tail;
      assert SplitOn([c] + tail, c) == [""] + parts[1..];
      assert parts[0] + "" == parts[0];
    }
  }

  /** Joining one more part adds the separator and that part. */
  lemma {:induction false} JoinAppend(sep: string, parts: seq<string>, x: string)
    requires |parts| >= 1
    ensures Join(sep, parts + [x]) == Join(sep, parts) + sep + x
    decreases |parts|
  {
    if |parts| > 1 {
      JoinAppend(sep, parts[1..], x);
      assert (parts + [x])[1..] == parts[1..] + [x];
    } else {
      assert (parts + [x])[1..] == [x];
    }
  }

  /** An empty last part leaves the separator at the end of the join. */
  lemma JoinEmptyLast(sep: string, parts: seq<string>)
    requires |parts| >= 1
    ensures Join(sep, parts + [""]) == Join(sep, parts) + sep
  {
    JoinAppend(sep, parts, "");
    var joined := Join(sep, parts);
    assert joined + sep + "" == joined + sep;
  }

  /** `s.split()` with no argument: the maximal runs of non-blank characters, in order. */
  function Words(s: string): (ws: seq<string>)
    ensures s != "" && !IsSpace(s[0]) ==> |ws| >= 1
    decreases |s|
  {
    if s == "" then []
    else if IsSpace(s[0]) then Words(s[1..])
    else
      var rest := Words(s[1..]);
      if |s| > 1 && !IsSpace(s[1]) then [[s[0]] + rest[0]] + rest[1..] else [[s[0]]] + rest
  }

  /** A run of non-blank characters followed by a blank or by the end is the first word. */
  lemma {:induction false} WordsOfWord(w: string, rest: string)
    requires w != "" && forall k :: 0 <= k < |w| ==> !IsSpace(w[k])
    requires rest == "" || IsSpace(rest[0])
    ensures Words(w + rest) == [w] + Words(rest)
    decreases |w|
  {
    var s := w + rest;
    assert s[1..] == w[1..] + rest;
    if |w| > 1 {
      WordsOfWord(w[1..], rest);
      assert [w[0]] + w[1..] == w;
    } else {
      assert s[1..] == rest;
      assert [w[0]] == w;
    }
  }

  /** `s.replace(pat, rep)`: non-overlapping occurrences, scanned left to right. */
  function Replace(s: string, pat: string, rep: string): string
    requires pat != ""
    decreases |s|
  {
    if s == "" then ""
    else if StartsWith(s, pat) then rep + Replace(s[|pat|..], pat, rep)
    else [s[0]] + Replace(s[1..], pat, rep)
  }

  /** Text without the pattern's first character passes through `Replace` unchanged. */
  lemma {:induction false} ReplaceFreePrefix(x: string, y: string, pat: string, rep: string)
    requires pat != "" && pat[0] !in x
    ensures Replace(x + y, pat, rep) == x + Replace(y, pat, rep)
    decreases |x|
  {
    if x != "" {
      assert (x + y)[1..] == x[1..] + y;
      assert (x + y)[0] == x[0];
      ReplaceFreePrefix(x[1..], y, pat, rep);
      assert [x[0]] + x[1..] == x;
    } else {
      assert x + y == y;
    }
  }

  /** An occurrence of the pattern at the start is replaced. */
  lemma ReplaceAtMatch(y: string, pat: string, rep: string)
    requires pat != ""
    ensures Replace(pat + y, pat, rep) == rep + Replace(y, pat, rep)
  {
    assert (pat + y)[..|pat|] == pat && (pat + y)[|pat|..] == y;
  }

  /** A string whose first character does not occur in the pattern cannot end an occurrence
      that started earlier, so `Replace` works on either side of it separately. */
  lemma {:induction false} ReplaceSplit(x: string, y: string, pat: string, rep: string)
    requires pat != "" && y != "" && y[0] !in pat
    ensures Replace(x + y, pat, rep) == Replace(x, pat, rep) + Replace(y, pat, rep)
    decreases |x|
  {
    if x == "" {
      assert x + y == y;
    } else if StartsWith(x, pat) {
      assert (x + y)[..|pat|] == x[..|pat|];
      assert (x + y)[|pat|..] == x[|pat|..] + y;
      ReplaceSplit(x[|pat|..], y, pat, rep);
    } else {
      assert !StartsWith(x + y, pat) by {
        if |x| < |pat| <= |x + y| {
          assert (x + y)[|x|] == y[0];
          assert (x + y)[..|pat|][|x|] != pat[|x|];
        } else if |pat| <= |x| {
          assert (x + y)[..|pat|] == x[..|pat|];
        }
      }
      assert (x + y)[1..] == x[1..] + y;
      ReplaceSplit(x[1..], y, pat, rep);
    }
  }

  /** `Replace` applied to each string of a list. */
  function ReplaceEach(parts: seq<string>, pat: string, rep: string): (r: seq<string>)
    requires pat != ""
    ensures |r| == |parts| && forall k :: 0 <= k < |parts| ==> r[k] == Replace(parts[k], pat, rep)
  {
    seq(|parts|, k requires 0 <= k < |parts| => Replace(parts[k], pat, rep))
  }

  /** With a separator that neither starts nor ends an occurrence, replacing in the joined
      string is joining the replaced parts. */
  lemma {:induction false} ReplaceJoin(sep: string, parts: seq<string>, pat: string, rep: string)
    requires pat != "" && sep != "" && sep[0] !in pat && pat[0] !in sep
    ensures Replace(Join(sep, parts), pat, rep) == Join(sep, ReplaceEach(parts, pat, rep))
    decreases |parts|
  {
    var r := ReplaceEach(parts, pat, rep);
    if |parts| > 1 {
      var rest := Join(sep, parts[1..]);
      ReplaceSplit(parts[0], sep + rest, pat, rep);
      ReplaceFreePrefix(sep, rest, pat, rep);
      ReplaceJoin(sep, parts[1..], pat, rep);
      assert ReplaceEach(parts[1..], pat, rep) == r[1..];
      assert parts[0] + sep + rest == parts[0] + (sep + rest);
    }
  }

  /** `s.strip(c)` for a single character `c`. */
  function StripChar(s: string, c: char): (r: string)
    ensures r == "" || (r[0] != c && r[|r| - 1] != c)
    decreases |s|
  {
    if s != "" && s[0] == c then StripChar(s[1..], c)
    else if s != "" && s[|s| - 1] == c then StripChar(s[..|s| - 1], c)
    else s
  }

  predicate IsDigit(c: char)
  {
    48 <= c as int <= 57
  }

  function DigitsValue(d: string): nat
    requires forall i :: 0 <= i < |d| ==> IsDigit(d[i])
    decreases |d|
  {
    if d == "" then 0
    else
      assert IsDigit(d[|d| - 1]);
      10 * DigitsValue(d[..|d| - 1]) + (d[|d| - 1] as int - 48)
  }

  /** `int(s)` for ASCII decimal text: surrounding blanks, an optional sign, then at least one digit. */
  function ParseInt(s: string): Option<int>
  {
    var t := Strip(s);
    if t == "" then None
    else
      var body := if t[0] == '-' || t[0] == '+' then t[1..] else t;
      if body == "" || exists i :: 0 <= i < |body| && !IsDigit(body[i]) then None
      else
        var v: int := DigitsValue(body);
        if t[0] == '-' then Some(-v) else Some(v)
  }
}
