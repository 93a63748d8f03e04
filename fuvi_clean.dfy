/**
 * `vycisti_fuvi` in katastertools/kt_vycisti_fuvi.py:19-64: every line of an FPU file is stripped
 * of trailing blanks and of the characters `neplatnost_znakov` refuses; lines starting with a dot
 * and empty lines are kept as they are; a record spread over several lines is joined into one
 * line, which is emitted when a line ending in `;` arrives.
 *
 * The file is the sequence of strings its `readline` calls return, already decoded; the decoding
 * (`IBM852` by default) and the test `znak.encode('latin2')` are not part of this model; the
 * latter is the parameter `latin2`.
 */
module FuviClean {
  import opened PyStr

  /** `neplatnost_znakov(znak)`: control characters below 31 and the C1 range 127..159 are
      refused, and so is any character outside Latin-2. Character 31 itself is accepted. */
  predicate CharAccepted(c: char, latin2: char -> bool)
  {
    !(c as int < 31 || 127 <= c as int <= 159) && latin2(c)
  }

  /** Every character of `s` is accepted. */
  predicate AllAccepted(s: string, latin2: char -> bool)
  {
    forall i :: 0 <= i < |s| ==> CharAccepted(s[i], latin2)
  }

  /** `''.join([c for c in s if neplatnost_znakov(c)])`: the accepted characters, in order. */
  function Filter(s: string, latin2: char -> bool): (r: string)
    ensures |r| <= |s| && AllAccepted(r, latin2)
    ensures AllAccepted(s, latin2) ==> r == s
    decreases |s|
  {
    if s == "" then ""
    else
      var rest := Filter(s[1..], latin2);
      if CharAccepted(s[0], latin2) then
        assert s == [s[0]] + s[1..];
        [s[0]] + rest
      else rest
  }

  /** The filter keeps an accepted character, drops a refused one, and works character by
      character, so the accepted characters of a line are all kept, in their order. */
  lemma {:induction false} FilterKeepsAcceptedInOrder(a: string, b: string, latin2: char -> bool)
    ensures Filter(a + b, latin2) == Filter(a, latin2) + Filter(b, latin2)
    ensures |a| == 1 ==> Filter(a, latin2) == (if CharAccepted(a[0], latin2) then a else "")
    decreases |a|
  {
    if a == "" {
      assert a + b == b;
    } else {
      assert (a + b)[0] == a[0] && (a + b)[1..] == a[1..] + b;
      FilterKeepsAcceptedInOrder(a[1..], b, latin2);
      if |a| == 1 {
        assert a[1..] == "" && [a[0]] == a;
      }
    }
  }

  /** The line the loop works on: trailing blanks removed, then refused characters. */
  function Clean(line: string, latin2: char -> bool): string
  {
    Filter(RStrip(line), latin2)
  }

  /** `reg3.search(line)`: the line ends with `;`. */
  predicate EndsWithSemicolon(s: string)
  {
    s != "" && s[|s| - 1] == ';'
  }

  /** `uplnost_riadku` and `spajac_zaznamov`. */
  datatype Joiner = Joiner(complete: bool, pending: seq<string>)

  /** The start of the loop: the local `uplnost_riadku = False` and an empty buffer. */
  const Start := Joiner(false, [])

  /** One cleaned line: the new state and the lines it emits. */
  function Step(j: Joiner, line: string): (Joiner, seq<string>)
  {
    if StartsWith(line, ".") then (j, [RStrip(line)])
    else if line == "" then (j, [RStrip(line)])
    else if EndsWithSemicolon(line) && j.complete then (j, [RStrip(line)])
    else if EndsWithSemicolon(line) then (Joiner(true, []), [RStrip(Join("", j.pending)) + RStrip(line)])
    else (Joiner(false, j.pending + [RStrip(line)]), [])
  }

  /** The lines `vycisti_fuvi` returns for the `readline` results `file` from the state `j`: the
      loop ends at the end of the file or at an empty string. */
  function CleanFrom(j: Joiner, file: seq<string>, latin2: char -> bool): seq<string>
    decreases |file|
  {
    if file == [] || file[0] == "" then []
    else
      var r := Step(j, Clean(file[0], latin2));
      r.1 + CleanFrom(r.0, file[1..], latin2)
  }

  /** `vycisti_fuvi(fpusubor)`. */
  method VycistiFuvi(subor: seq<string>, latin2: char -> bool) returns (lines: seq<string>)
    ensures lines == CleanFrom(Start, subor, latin2)
  {
    var uplnostRiadku := false;
    var spajacZaznamov: seq<string> := [];
    lines := [];
    var i := 0;
    var line := if i < |subor| then subor[i] else "";
    while line != ""
      invariant i <= |subor| && line == (if i < |subor| then subor[i] else "")
      invariant lines + CleanFrom(Joiner(uplnostRiadku, spajacZaznamov), subor[i..], latin2)
             == CleanFrom(Start, subor, latin2)
      decreases |subor| - i
    {
      ghost var j := Joiner(uplnostRiadku, spajacZaznamov);
      ghost var before := lines;
      StepUnfold(lines, j, subor[i..], latin2);
      assert subor[i..][1..] == subor[i + 1..];
      line := Filter(RStrip(line), latin2);
      if StartsWith(line, ".") {
        lines := lines + [RStrip(line)];
      } else if line == "" {
        lines := lines + [RStrip(line)];
      } else {
        if EndsWithSemicolon(line) && uplnostRiadku {
          lines := lines + [RStrip(line)];
        } else if EndsWithSemicolon(line) && !uplnostRiadku {
          var spojenyZaznam := Join("", spajacZaznamov);
          lines := lines + [RStrip(spojenyZaznam) + RStrip(line)];
          uplnostRiadku := true;
          spajacZaznamov := [];
        } else {
          spajacZaznamov := spajacZaznamov + [RStrip(line)];
          uplnostRiadku := false;
        }
      }
      assert Joiner(uplnostRiadku, spajacZaznamov) == Step(j, line).0 && lines == before + Step(j, line).1;
      i := i + 1;
      line := if i < |subor| then subor[i] else "";
    }
  }

  /** One turn of the loop, as `CleanFrom` sees it, after the lines `before`. */
  lemma StepUnfold(before: seq<string>, j: Joiner, file: seq<string>, latin2: char -> bool)
    requires file != [] && file[0] != ""
    ensures var r := Step(j, Clean(file[0], latin2));
      before + CleanFrom(j, file, latin2) == (before + r.1) + CleanFrom(r.0, file[1..], latin2)
  {
  }

  // ---------------------------------------------------------------------------------------------
  // Properties

  /** A line `vycisti_fuvi` emits: only accepted characters and no trailing blank. */
  predicate Tidy(s: string, latin2: char -> bool)
  {
    AllAccepted(s, latin2) && (s == "" || !IsSpace(s[|s| - 1]))
  }

  lemma RStripTidy(s: string, latin2: char -> bool)
    requires AllAccepted(s, latin2)
    ensures Tidy(RStrip(s), latin2)
  {
    RStripRemovesTrailingBlanks(s);
  }

  lemma {:induction false} JoinAccepted(parts: seq<string>, latin2: char -> bool)
    requires forall k :: 0 <= k < |parts| ==> AllAccepted(parts[k], latin2)
    ensures AllAccepted(Join("", parts), latin2)
    decreases |parts|
  {
    if |parts| > 1 {
      JoinAccepted(parts[1..], latin2);
      assert Join("", parts) == parts[0] + "" + Join("", parts[1..]);
    }
  }

  /** The buffer only ever holds accepted characters. */
  predicate PendingAccepted(j: Joiner, latin2: char -> bool)
  {
    forall k :: 0 <= k < |j.pending| ==> AllAccepted(j.pending[k], latin2)
  }

  /** One step emits only tidy lines and keeps the buffer accepted. */
  lemma StepTidy(j: Joiner, line: string, latin2: char -> bool)
    requires PendingAccepted(j, latin2) && AllAccepted(line, latin2)
    ensures PendingAccepted(Step(j, line).0, latin2)
    ensures forall k :: 0 <= k < |Step(j, line).1| ==> Tidy(Step(j, line).1[k], latin2)
  {
    RStripTidy(line, latin2);
    if !StartsWith(line, ".") && line != "" && EndsWithSemicolon(line) && !j.complete {
      JoinAccepted(j.pending, latin2);
      var joined := RStrip(Join("", j.pending));
      assert RStrip(line) == line;
      assert AllAccepted(joined + line, latin2);
    }
  }

  /** Every line `vycisti_fuvi` returns holds only accepted characters and ends in no blank. */
  lemma {:induction false} OutputIsTidy(j: Joiner, file: seq<string>, latin2: char -> bool)
    requires PendingAccepted(j, latin2)
    ensures forall k :: 0 <= k < |CleanFrom(j, file, latin2)| ==> Tidy(CleanFrom(j, file, latin2)[k], latin2)
    decreases |file|
  {
    if file != [] && file[0] != "" {
      var r := Step(j, Clean(file[0], latin2));
      StepTidy(j, Clean(file[0], latin2), latin2);
      OutputIsTidy(r.0, file[1..], latin2);
      var out := CleanFrom(j, file, latin2);
      assert out == r.1 + CleanFrom(r.0, file[1..], latin2);
      forall k | 0 <= k < |out|
        ensures Tidy(out[k], latin2)
      {
        if k >= |r.1| {
          assert out[k] == CleanFrom(r.0, file[1..], latin2)[k - |r.1|];
        }
      }
    }
  }

  /** A cleaned line that ends a record: a dot line, an empty line or a line ending in `;`. */
  predicate Terminates(line: string)
  {
    StartsWith(line, ".") || line == "" || EndsWithSemicolon(line)
  }

  /** The number of lines the loop reads that end a record. */
  function Terminators(file: seq<string>, latin2: char -> bool): nat
    decreases |file|
  {
    if file == [] || file[0] == "" then 0
    else (if Terminates(Clean(file[0], latin2)) then 1 else 0) + Terminators(file[1..], latin2)
  }

  /** Exactly one line comes out per line that ends a record, whatever the state. */
  lemma {:induction false} OneLinePerTerminator(j: Joiner, file: seq<string>, latin2: char -> bool)
    ensures |CleanFrom(j, file, latin2)| == Terminators(file, latin2)
    decreases |file|
  {
    if file != [] && file[0] != "" {
      OneLinePerTerminator(Step(j, Clean(file[0], latin2)).0, file[1..], latin2);
    }
  }

  /** Starting with `uplnost_riadku = False` makes no difference: with an empty buffer the first
      record line comes out as it would with `True`. */
  lemma {:induction false} StartStateIsIrrelevant(file: seq<string>, latin2: char -> bool)
    ensures CleanFrom(Joiner(false, []), file, latin2) == CleanFrom(Joiner(true, []), file, latin2)
    decreases |file|
  {
    if file != [] && file[0] != "" {
      var line := Clean(file[0], latin2);
      if StartsWith(line, ".") || line == "" {
        StartStateIsIrrelevant(file[1..], latin2);
      } else if EndsWithSemicolon(line) {
        assert Join("", []) == "";
        assert RStrip("") == "";
        assert RStrip(Join("", [])) + RStrip(line) == RStrip(line);
        assert Step(Joiner(false, []), line) == Step(Joiner(true, []), line);
      } else {
        assert Step(Joiner(false, []), line) == Step(Joiner(true, []), line);
      }
    }
  }

  /** A line that ends no record. */
  predicate Fragment(line: string)
  {
    !Terminates(line)
  }

  /** The cleaned, stripped fragments of `file`. */
  function Fragments(file: seq<string>, latin2: char -> bool): (fs: seq<string>)
    ensures |fs| == |file|
  {
    if file == [] then [] else [RStrip(Clean(file[0], latin2))] + Fragments(file[1..], latin2)
  }

  /** Every line of `frags` is read by the loop and ends no record. */
  predicate AllFragments(frags: seq<string>, latin2: char -> bool)
  {
    forall k :: 0 <= k < |frags| ==> frags[k] != "" && Fragment(Clean(frags[k], latin2))
  }

  /** One fragment line: buffered, nothing emitted. */
  lemma FragmentStep(j: Joiner, frag: string, rest: seq<string>, latin2: char -> bool)
    requires frag != "" && Fragment(Clean(frag, latin2))
    ensures CleanFrom(j, [frag] + rest, latin2)
         == CleanFrom(Joiner(false, j.pending + [RStrip(Clean(frag, latin2))]), rest, latin2)
  {
    assert ([frag] + rest)[1..] == rest;
  }

  /** Lines that end no record are buffered, emit nothing and make the state incomplete. */
  lemma {:induction false} FragmentsAreBuffered(j: Joiner, frags: seq<string>, rest: seq<string>, latin2: char -> bool)
    requires frags != [] && AllFragments(frags, latin2)
    ensures CleanFrom(j, frags + rest, latin2)
         == CleanFrom(Joiner(false, j.pending + Fragments(frags, latin2)), rest, latin2)
    decreases |frags|
  {
    var x := RStrip(Clean(frags[0], latin2));
    var j' := Joiner(false, j.pending + [x]);
    FirstFragment(j, frags, rest, latin2);
    if |frags| == 1 {
      assert frags[1..] + rest == rest;
      assert Fragments(frags, latin2) == [x];
    } else {
      FragmentsTail(frags, latin2);
      FragmentsAreBuffered(j', frags[1..], rest, latin2);
      BufferRegroup(j.pending, x, Fragments(frags[1..], latin2));
    }
  }

  /** The first fragment line of `frags + rest`, buffered. */
  lemma FirstFragment(j: Joiner, frags: seq<string>, rest: seq<string>, latin2: char -> bool)
    requires frags != [] && AllFragments(frags, latin2)
    ensures CleanFrom(j, frags + rest, latin2)
         == CleanFrom(Joiner(false, j.pending + [RStrip(Clean(frags[0], latin2))]), frags[1..] + rest, latin2)
  {
    assert frags + rest == [frags[0]] + (frags[1..] + rest);
    FragmentStep(j, frags[0], frags[1..] + rest, latin2);
  }

  /** The lines after the first fragment are fragments too, and their cleaned forms follow the
      first one's. */
  lemma FragmentsTail(frags: seq<string>, latin2: char -> bool)
    requires |frags| > 1 && AllFragments(frags, latin2)
    ensures AllFragments(frags[1..], latin2)
    ensures Fragments(frags, latin2) == [RStrip(Clean(frags[0], latin2))] + Fragments(frags[1..], latin2)
  {
    forall k | 0 <= k < |frags[1..]|
      ensures frags[1..][k] != "" && Fragment(Clean(frags[1..][k], latin2))
    {
      assert frags[1..][k] == frags[k + 1];
    }
  }

  lemma BufferRegroup(pending: seq<string>, x: string, more: seq<string>)
    ensures pending + [x] + more == pending + ([x] + more)
  {
  }

  /** A record spread over fragment lines comes out as one line: the fragments joined, then the
      line ending in `;`. */
  lemma JoinedRecord(frags: seq<string>, last: string, rest: seq<string>, latin2: char -> bool)
    requires frags != [] && AllFragments(frags, latin2)
    requires last != "" && EndsWithSemicolon(Clean(last, latin2)) && !StartsWith(Clean(last, latin2), ".")
    ensures CleanFrom(Start, frags + [last] + rest, latin2)
         == [RStrip(Join("", Fragments(frags, latin2))) + RStrip(Clean(last, latin2))]
            + CleanFrom(Joiner(true, []), rest, latin2)
  {
    assert frags + [last] + rest == frags + ([last] + rest);
    FragmentsAreBuffered(Start, frags, [last] + rest, latin2);
    assert ([last] + rest)[1..] == rest;
    assert [] + Fragments(frags, latin2) == Fragments(frags, latin2);
  }

  /** Fragments still buffered when the file ends are never emitted. */
  lemma DanglingFragmentsAreDropped(j: Joiner, frags: seq<string>, latin2: char -> bool)
    requires AllFragments(frags, latin2)
    ensures CleanFrom(j, frags, latin2) == []
  {
    if frags != [] {
      FragmentsAreBuffered(j, frags, [], latin2);
      assert frags + [] == frags;
    }
  }

  /** Dot lines and empty lines are emitted at once, cleaned, and leave a pending record
      pending. */
  lemma DotAndEmptyLinesPassThrough(j: Joiner, line: string, rest: seq<string>, latin2: char -> bool)
    requires line != ""
    requires StartsWith(Clean(line, latin2), ".") || Clean(line, latin2) == ""
    ensures CleanFrom(j, [line] + rest, latin2) == [RStrip(Clean(line, latin2))] + CleanFrom(j, rest, latin2)
  {
    assert ([line] + rest)[1..] == rest;
  }
}
