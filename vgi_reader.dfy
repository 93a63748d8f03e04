/**
 * The VGI line reader `Citac` (katastertools/VgiShp/io.py): a text file read line by line
 * with a one-line lookahead, merging of one tab-indented continuation line, and a rewind
 * that works by subtracting recorded line lengths from a running offset.
 *
 * The file is its text plus a cursor; `ReadLine` is `readline()` on it. The reader's state is
 * also given as a value (`ReaderState`) with the effect of each operation as a function
 * (`NextStep`, `Rewind`); the class `Citac` updates its fields in place and is proved to agree
 * with those functions, which the segmenter and the converter reason with.
 */
module VgiReader {
  import opened Results
  import opened PyStr

  /** Why constructing a reader fails: `NieJeSubor`, `MedzeraVNazveSuboru`, `ZlyTypSuboru`. */
  datatype OpenError = NotARegularFile | SpaceInFileName | WrongFileType

  /** What one `__getitem__` call produces: a logical line, `ChybaKoncovaVeta` (the text ran
      out before an `&K` record), `IndexError` (the `&K` record was reached), or the
      `AttributeError` of reading from a handle that `zavriet` has already dropped. */
  datatype Step = Line(line: string) | MissingEndRecord | EndRecord | HandleClosed

  /** Why a rewind fails: the handle was dropped, or the offset went below zero (`seek` refuses it). */
  datatype Fault = NoHandle | NegativeSeek

  /** The checks of `Citac.__init__`, in the order they are made. */
  function OpenCheck(path: string, isRegularFile: bool, contents: string): (r: Option<OpenError>)
    ensures r == Some(NotARegularFile) <==> !isRegularFile
    ensures r == Some(SpaceInFileName) <==> isRegularFile && ' ' in path
    ensures r == Some(WrongFileType) <==> isRegularFile && ' ' !in path && !StartsWith(contents, "&V")
    ensures r == None <==> isRegularFile && ' ' !in path && StartsWith(contents, "&V")
  {
    if !isRegularFile then Some(NotARegularFile)
    else if ' ' in path then Some(SpaceInFileName)
    else if Take(contents, 2) != "&V" then Some(WrongFileType)
    else None
  }

  /** `readline()` at cursor `pos`: the text up to and including the next newline, or the rest
      of the text when no newline follows; "" at or past the end. */
  function ReadLine(text: string, pos: nat): (line: string)
    ensures pos >= |text| ==> line == ""
    ensures pos < |text| ==> line != "" && pos + |line| <= |text|
    decreases |text| - pos
  {
    if pos >= |text| then ""
    else if text[pos] == '\n' then "\n"
    else [text[pos]] + ReadLine(text, pos + 1)
  }

  /** What `ReadLine` returns is the text from the cursor on, up to and including the first
      newline, or to the end of the text when there is none. */
  lemma {:induction false} ReadLineIsNextLine(text: string, pos: nat)
    requires pos < |text|
    ensures var line := ReadLine(text, pos);
      && text[pos..pos + |line|] == line
      && (forall i :: 0 <= i < |line| - 1 ==> line[i] != '\n')
      && (line[|line| - 1] == '\n' || pos + |line| == |text|)
    decreases |text| - pos
  {
    var line := ReadLine(text, pos);
    if text[pos] != '\n' && pos + 1 < |text| {
      ReadLineIsNextLine(text, pos + 1);
      var rest := ReadLine(text, pos + 1);
      assert line == [text[pos]] + rest;
      assert text[pos..pos + |line|] == [text[pos]] + text[pos + 1..pos + 1 + |rest|];
    }
  }

  /** The fields of a `Citac`: the file (its text, whether the handle is still held, and its
      cursor), `_precitane_bajty` (offset), `_dlzka_riadkov` (lengths) and `_precitany_riadok`
      (lookahead). */
  datatype ReaderState = ReaderState(
    text: string, open: bool, pos: nat, offset: int, lengths: seq<nat>, lookahead: string)

  /** While the handle is held, the offset never runs ahead of the text before the lookahead. */
  predicate Inv(s: ReaderState)
  {
    s.open ==> s.offset + |s.lookahead| <= s.pos <= |s.text|
  }

  /** Decreases with every call that yields a line. */
  function Measure(s: ReaderState): nat
  {
    (if s.pos <= |s.text| then |s.text| - s.pos else 0) + (if s.lookahead == "" then 0 else 1)
  }

  function Sum(xs: seq<nat>): nat
  {
    if xs == [] then 0 else Sum(xs[..|xs| - 1]) + xs[|xs| - 1]
  }

  /** The state right after a successful construction. */
  function Initial(contents: string): (s: ReaderState)
    ensures Inv(s) && s.open && s.text == contents
    ensures s.offset == 0 && s.lengths == [] && s.lookahead == ReadLine(contents, 0)
  {
    var first := ReadLine(contents, 0);
    ReaderState(contents, true, |first|, 0, [], first)
  }

  /** `line[:2] == code` for a two-character record code such as `&K`. */
  predicate HasCode(line: string, code: string)
    requires |code| == 2
  {
    |line| >= 2 && line[0] == code[0] && line[1] == code[1]
  }

  /** A physical line that continues the previous one starts with a tab. */
  predicate IsContinuation(line: string)
  {
    line != "" && line[0] == '\t'
  }

  /** The continuation merge: `(cur.rstrip() + ' ' + next.lstrip()).strip()`. */
  function Joined(cur: string, next: string): string
  {
    Strip(RStrip(cur) + " " + LStrip(next))
  }

  /** One `__getitem__` call. */
  function NextStep(s: ReaderState): (Step, ReaderState)
  {
    var la := s.lookahead;
    var s1 := s.(lengths := s.lengths + [|la|], offset := s.offset + |la|);
    if la == "" then (MissingEndRecord, s1.(open := false))
    else if HasCode(la, "&K") then (EndRecord, s1.(open := false))
    else if !s.open then (HandleClosed, s1)
    else
      var next := ReadLine(s.text, s.pos);
      if IsContinuation(next) then
        var after := ReadLine(s.text, s.pos + |next|);
        (Line(Joined(la, next)),
         s1.(offset := s1.offset + |next|, lengths := s.lengths + [|la| + |next|],
             pos := s.pos + |next| + |after|, lookahead := after))
      else
        (Line(Strip(la)), s1.(pos := s.pos + |next|, lookahead := next))
  }

  /** Every `__getitem__` call records exactly one length and adds that same amount to the
      offset; the text never changes. */
  lemma NextStepAccounting(s: ReaderState)
    ensures var r := NextStep(s);
      && r.1.text == s.text
      && |r.1.lengths| == |s.lengths| + 1 && r.1.lengths[..|s.lengths|] == s.lengths
      && r.1.offset == s.offset + r.1.lengths[|s.lengths|]
  {
  }

  /** An empty lookahead raises `ChybaKoncovaVeta`, an `&K` lookahead raises `IndexError`; both
      close the reader and leave the lookahead in place, so every later call raises again.
      Reading past a dropped handle fails. */
  lemma NextStepTerminal(s: ReaderState)
    ensures var r := NextStep(s);
      && (r.0 == MissingEndRecord <==> s.lookahead == "")
      && (r.0 == EndRecord <==> s.lookahead != "" && HasCode(s.lookahead, "&K"))
      && (r.0.MissingEndRecord? || r.0.EndRecord? ==> !r.1.open && r.1.lookahead == s.lookahead)
      && (r.0 == HandleClosed <==> !s.open && s.lookahead != "" && !HasCode(s.lookahead, "&K"))
      && (r.0.Line? ==> s.open && r.1.open)
  {
  }

  /** Each yielded line moves the cursor forward or empties the lookahead, and the offset never
      overtakes the cursor while the handle is held. */
  lemma NextStepProgress(s: ReaderState)
    ensures NextStep(s).0.Line? ==> Measure(NextStep(s).1) < Measure(s)
    ensures Inv(s) ==> Inv(NextStep(s).1)
  {
  }

  /** A yielded line is the lookahead stripped, or merged with the one physical line after it
      when that line is a continuation; the recorded length covers both physical lines. */
  lemma NextStepLine(s: ReaderState)
    requires NextStep(s).0.Line?
    ensures IsContinuation(ReadLine(s.text, s.pos)) ==>
      var next := ReadLine(s.text, s.pos);
      && NextStep(s).0.line == Joined(s.lookahead, next)
      && NextStep(s).1.lengths[|s.lengths|] == |s.lookahead| + |next|
      && NextStep(s).1.lookahead == ReadLine(s.text, s.pos + |next|)
    ensures !IsContinuation(ReadLine(s.text, s.pos)) ==>
      && NextStep(s).0.line == Strip(s.lookahead)
      && NextStep(s).1.lengths[|s.lengths|] == |s.lookahead|
      && NextStep(s).1.lookahead == ReadLine(s.text, s.pos)
  {
    NextStepTerminal(s);
    if IsContinuation(ReadLine(s.text, s.pos)) {
      NextStepJoin(s);
    } else {
      NextStepPlain(s);
    }
  }

  /** A call that yields no line records the lookahead's length and changes nothing else,
      except that a missing or reached end record closes the handle. */
  lemma NextStepStop(s: ReaderState)
    requires !s.open || s.lookahead == "" || HasCode(s.lookahead, "&K")
    ensures NextStep(s).1 == s.(lengths := s.lengths + [|s.lookahead|],
                                offset := s.offset + |s.lookahead|,
                                open := s.open && s.lookahead != "" && !HasCode(s.lookahead, "&K"))
  {
  }

  /** The two branches of a call that yields a line, state by state. */
  lemma NextStepPlain(s: ReaderState)
    requires s.open && s.lookahead != "" && !HasCode(s.lookahead, "&K")
    requires !IsContinuation(ReadLine(s.text, s.pos))
    ensures NextStep(s).0 == Line(Strip(s.lookahead))
    ensures NextStep(s).1 == s.(lengths := s.lengths + [|s.lookahead|],
                                offset := s.offset + |s.lookahead|,
                                pos := s.pos + |ReadLine(s.text, s.pos)|,
                                lookahead := ReadLine(s.text, s.pos))
  {
  }

  lemma NextStepJoin(s: ReaderState)
    requires s.open && s.lookahead != "" && !HasCode(s.lookahead, "&K")
    requires IsContinuation(ReadLine(s.text, s.pos))
    ensures NextStep(s).0 == Line(Joined(s.lookahead, ReadLine(s.text, s.pos)))
    ensures var next := ReadLine(s.text, s.pos);
      && NextStep(s).1.text == s.text && NextStep(s).1.open
      && NextStep(s).1.lengths == s.lengths + [|s.lookahead| + |next|]
      && NextStep(s).1.offset == s.offset + |s.lookahead| + |next|
      && NextStep(s).1.pos == s.pos + |next| + |ReadLine(s.text, s.pos + |next|)|
      && NextStep(s).1.lookahead == ReadLine(s.text, s.pos + |next|)
  {
  }

  /** `xs[-n:]` for any integer `n`, with Python's clamping of a negative start. */
  function PyTail(xs: seq<nat>, n: int): seq<nat>
  {
    var start := -n;
    var k := if start < 0 then (if start + |xs| < 0 then 0 else start + |xs|)
             else (if start > |xs| then |xs| else start);
    xs[k..]
  }

  /** `xs[-n:]` is the last `n` items when `n > 0`, all of them when `n == 0` (because
      `-0 == 0`), and everything from index `-n` on when `n < 0`. */
  lemma PyTailCases(xs: seq<nat>, n: int)
    ensures n == 0 ==> PyTail(xs, n) == xs
    ensures n > 0 ==> PyTail(xs, n) == xs[|xs| - (if n < |xs| then n else |xs|)..]
    ensures n < 0 ==> PyTail(xs, n) == xs[(if -n < |xs| then -n else |xs|)..]
  {
  }

  /** One `spat(n)` call: the offset drops by the recorded lengths of the last `n` yields, the
      file is sought there, and `readline()` is called twice; the lookahead is the SECOND line
      read. The length list is left as it was. */
  function Rewind(s: ReaderState, n: int): (r: (Option<Fault>, ReaderState))
    ensures r.1.text == s.text && r.1.open == s.open && r.1.lengths == s.lengths
    ensures r.1.offset == s.offset - Sum(PyTail(s.lengths, n))
    ensures r.0 == Some(NoHandle) <==> !s.open
    ensures r.0 == Some(NegativeSeek) <==> s.open && r.1.offset < 0
  {
    Seek(s, s.offset - Sum(PyTail(s.lengths, n)))
  }

  /** The second half of `spat`: the offset is set to `back`, the file is sought there and
      read twice. */
  function Seek(s: ReaderState, back: int): (Option<Fault>, ReaderState)
  {
    var s1 := s.(offset := back);
    if !s.open then (Some(NoHandle), s1)
    else if back < 0 then (Some(NegativeSeek), s1)
    else
      var first := ReadLine(s.text, back);
      var second := ReadLine(s.text, back + |first|);
      (None, s1.(pos := back + |first| + |second|, lookahead := second))
  }

  /** A successful rewind primes the lookahead with the second line read from the new offset
      (not the first); a failed one leaves cursor and lookahead alone. Either way the offset
      stays behind the cursor. */
  lemma RewindLookahead(s: ReaderState, n: int)
    ensures var r := Rewind(s, n);
      && (r.0 == None ==>
            r.1.lookahead == ReadLine(s.text, r.1.offset + |ReadLine(s.text, r.1.offset)|))
      && (r.0 != None ==> r.1.lookahead == s.lookahead && r.1.pos == s.pos)
  {
  }

  lemma RewindKeepsInv(s: ReaderState, n: int)
    requires Inv(s)
    ensures Inv(Rewind(s, n).1)
  {
  }

  /** The state after `k` further `__getitem__` calls. */
  function Pulls(s: ReaderState, k: nat): ReaderState
    decreases k
  {
    if k == 0 then s else Pulls(NextStep(s).1, k - 1)
  }

  lemma SumAppend(xs: seq<nat>, x: nat)
    ensures Sum(xs + [x]) == Sum(xs) + x
  {
    assert (xs + [x])[..|xs|] == xs;
  }

  /** No `__getitem__` call changes the difference between the offset and the sum of the
      recorded lengths. */
  lemma {:induction false} PullsKeepBalance(s: ReaderState, k: nat)
    ensures Pulls(s, k).offset - Sum(Pulls(s, k).lengths) == s.offset - Sum(s.lengths)
    decreases k
  {
    if k > 0 {
      var t := NextStep(s).1;
      assert t.lengths == s.lengths + [t.lengths[|s.lengths|]];
      SumAppend(s.lengths, t.lengths[|s.lengths|]);
      PullsKeepBalance(t, k - 1);
    }
  }

  /** Before any rewind, the offset is the sum of the recorded lengths. */
  lemma OffsetIsSumOfLengths(contents: string, k: nat)
    ensures Pulls(Initial(contents), k).offset == Sum(Pulls(Initial(contents), k).lengths)
  {
    PullsKeepBalance(Initial(contents), k);
  }

  /** Once the reader has closed on a terminal condition, every later call raises the same
      condition again and the handle stays dropped. */
  lemma {:induction false} TerminalIsSticky(s: ReaderState, k: nat)
    requires NextStep(s).0.MissingEndRecord? || NextStep(s).0.EndRecord?
    ensures NextStep(Pulls(NextStep(s).1, k)).0 == NextStep(s).0
    ensures !Pulls(NextStep(s).1, k).open
    ensures Pulls(NextStep(s).1, k).lookahead == s.lookahead
    decreases k
  {
    if k > 0 {
      TerminalIsSticky(NextStep(s).1, k - 1);
    }
  }

  /** Stripping a one-character line leaves the character. */
  lemma StripOneCharLine(c: char)
    requires !IsSpace(c)
    ensures Strip([c, '\n']) == [c]
  {
    assert LStrip([c, '\n']) == [c, '\n'];
    assert RStrip([c]) == [c];
    assert [c, '\n'][..1] == [c];
  }

  /** A file of three one-character lines. */
  function ThreeLines(a: char, b: char, c: char): (text: string)
    ensures |text| == 6
  {
    [a, '\n', b, '\n', c, '\n']
  }

  lemma ThreeLinesOpen(a: char, b: char, c: char)
    requires !IsSpace(a) && !IsSpace(b) && !IsSpace(c)
    ensures Initial(ThreeLines(a, b, c)) == ReaderState(ThreeLines(a, b, c), true, 2, 0, [], [a, '\n'])
  {
    assert ReadLine(ThreeLines(a, b, c), 1) == "\n";
  }

  lemma ThreeLinesFirst(a: char, b: char, c: char)
    requires !IsSpace(a) && !IsSpace(b) && !IsSpace(c)
    ensures NextStep(ReaderState(ThreeLines(a, b, c), true, 2, 0, [], [a, '\n']))
      == (Line(Strip([a, '\n'])), ReaderState(ThreeLines(a, b, c), true, 4, 2, [2], [b, '\n']))
  {
    var text := ThreeLines(a, b, c);
    assert ReadLine(text, 3) == "\n";
    assert ReadLine(text, 2) == [b, '\n'];
    assert [] + [2] == [2];
  }

  lemma ThreeLinesSecond(a: char, b: char, c: char)
    requires !IsSpace(a) && !IsSpace(b) && !IsSpace(c)
    ensures NextStep(ReaderState(ThreeLines(a, b, c), true, 4, 2, [2], [b, '\n']))
      == (Line(Strip([b, '\n'])), ReaderState(ThreeLines(a, b, c), true, 6, 4, [2, 2], [c, '\n']))
  {
    var text := ThreeLines(a, b, c);
    assert ReadLine(text, 5) == "\n";
    assert ReadLine(text, 4) == [c, '\n'];
    assert [2] + [2] == [2, 2];
  }

  lemma ThreeLinesRewind(a: char, b: char, c: char)
    requires !IsSpace(a) && !IsSpace(b) && !IsSpace(c)
    ensures Rewind(ReaderState(ThreeLines(a, b, c), true, 6, 4, [2, 2], [c, '\n']), 1)
      == (None, ReaderState(ThreeLines(a, b, c), true, 6, 2, [2, 2], [c, '\n']))
  {
    var text := ThreeLines(a, b, c);
    assert PyTail([2, 2], 1) == [2];
    assert Sum([2]) == 2;
    assert ReadLine(text, 3) == "\n";
    assert ReadLine(text, 2) == [b, '\n'];
    assert ReadLine(text, 5) == "\n";
    assert ReadLine(text, 4) == [c, '\n'];
  }

  lemma ThreeLinesThird(a: char, b: char, c: char)
    requires !IsSpace(a) && !IsSpace(b) && !IsSpace(c)
    ensures NextStep(ReaderState(ThreeLines(a, b, c), true, 6, 2, [2, 2], [c, '\n'])).0
      == Line(Strip([c, '\n']))
  {
    assert ReadLine(ThreeLines(a, b, c), 6) == "";
  }

  /** A rewind by one line does not re-read the line it rewinds over: in a file of three
      one-character lines, after the second has been yielded and pushed back, the next call
      yields the third rather than the second again. */
  lemma RewindSkipsPushedBackLine(a: char, b: char, c: char)
    requires !IsSpace(a) && !IsSpace(b) && !IsSpace(c)
    ensures
      var s0 := Initial(ThreeLines(a, b, c));
      var s1 := NextStep(s0);
      var s2 := NextStep(s1.1);
      var s3 := Rewind(s2.1, 1);
      var s4 := NextStep(s3.1);
      s1.0 == Line([a]) && s2.0 == Line([b]) && s3.0 == None && s4.0 == Line([c])
  {
    ThreeLinesOpen(a, b, c);
    ThreeLinesFirst(a, b, c);
    ThreeLinesSecond(a, b, c);
    ThreeLinesRewind(a, b, c);
    ThreeLinesThird(a, b, c);
    StripOneCharLine(a);
    StripOneCharLine(b);
    StripOneCharLine(c);
  }

  /** A line followed by two tab-indented continuation lines. */
  function TwoContinuations(a: char, b: char, c: char): (text: string)
    ensures |text| == 8
  {
    [a, '\n', '\t', b, '\n', '\t', c, '\n']
  }

  lemma TwoContinuationsFirst(a: char, b: char, c: char)
    requires !IsSpace(a) && !IsSpace(b) && !IsSpace(c)
    ensures NextStep(Initial(TwoContinuations(a, b, c))).0
      == Line(Joined([a, '\n'], ['\t', b, '\n']))
    ensures NextStep(Initial(TwoContinuations(a, b, c))).1
      == ReaderState(TwoContinuations(a, b, c), true, 8, 5, [5], ['\t', c, '\n'])
  {
    var text := TwoContinuations(a, b, c);
    var s0 := Initial(text);
    assert s0 == ReaderState(text, true, 2, 0, [], [a, '\n']) by {
      assert ReadLine(text, 1) == "\n";
    }
    assert ReadLine(text, 2) == ['\t', b, '\n'] by {
      assert ReadLine(text, 4) == "\n";
      assert ReadLine(text, 3) == [b, '\n'];
    }
    assert ReadLine(text, 5) == ['\t', c, '\n'] by {
      assert ReadLine(text, 7) == "\n";
      assert ReadLine(text, 6) == [c, '\n'];
    }
    NextStepJoin(s0);
    var r := NextStep(s0).1;
    assert r.lengths == [5] by {
      assert [] + [5] == [5];
    }
    assert r.lookahead == ['\t', c, '\n'];
    assert r.pos == 8 && r.offset == 5;
  }

  lemma TwoContinuationsSecond(a: char, b: char, c: char)
    requires !IsSpace(a) && !IsSpace(b) && !IsSpace(c)
    ensures NextStep(ReaderState(TwoContinuations(a, b, c), true, 8, 5, [5], ['\t', c, '\n'])).0
      == Line(Strip(['\t', c, '\n']))
  {
    assert ReadLine(TwoContinuations(a, b, c), 8) == "";
  }

  /** Joining a one-character line with a one-character continuation. */
  lemma JoinedOneChar(a: char, b: char)
    requires !IsSpace(a) && !IsSpace(b)
    ensures Joined([a, '\n'], ['\t', b, '\n']) == [a, ' ', b]
  {
    assert RStrip([a]) == [a];
    assert RStrip([a, '\n']) == [a] by { assert [a, '\n'][..1] == [a]; }
    assert LStrip(['\t', b, '\n']) == [b, '\n'] by {
      assert ['\t', b, '\n'][1..] == [b, '\n'];
    }
    var j := [a] + " " + [b, '\n'];
    assert j == [a, ' ', b, '\n'];
    assert LStrip(j) == j;
    assert RStrip([a, ' ', b]) == [a, ' ', b];
    assert j[..3] == [a, ' ', b];
  }

  /** Only one continuation line is merged per call: of two tab-indented lines after a
      record line, the first is joined to it and the second is yielded on its own. */
  lemma OneContinuationPerCall(a: char, b: char, c: char)
    requires !IsSpace(a) && !IsSpace(b) && !IsSpace(c)
    ensures
      var s1 := NextStep(Initial(TwoContinuations(a, b, c)));
      var s2 := NextStep(s1.1);
      s1.0 == Line([a, ' ', b]) && s2.0 == Line([c])
  {
    TwoContinuationsFirst(a, b, c);
    TwoContinuationsSecond(a, b, c);
    JoinedOneChar(a, b);
    assert LStrip(['\t', c, '\n']) == [c, '\n'] by {
      assert ['\t', c, '\n'][1..] == [c, '\n'];
    }
    StripOneCharLine(c);
  }

  /** The loop in `spat` that adds up the recorded lengths it steps back over. */
  method SumOf(xs: seq<nat>) returns (total: int)
    ensures total == Sum(xs)
  {
    total := 0;
    var k := 0;
    while k < |xs|
      invariant 0 <= k <= |xs|
      invariant total == Sum(xs[..k])
    {
      assert xs[..k + 1][..k] == xs[..k];
      total := total + xs[k];
      k := k + 1;
    }
    assert xs[..|xs|] == xs;
  }

  /** `Citac`: reads a VGI file line by line and can step back. */
  class Citac {
    const text: string
    var open: bool
    var pos: nat
    var offset: int
    var lengths: seq<nat>
    var lookahead: string

    function State(): ReaderState
      reads this
    {
      ReaderState(text, open, pos, offset, lengths, lookahead)
    }

    /** The successful path of `__init__`; `Open` performs its checks. */
    constructor (path: string, isRegularFile: bool, contents: string)
      requires OpenCheck(path, isRegularFile, contents) == None
      ensures State() == Initial(contents)
    {
      text := contents;
      open := true;
      offset := 0;
      lengths := [];
      var first := ReadLine(contents, 0);
      lookahead := first;
      pos := |first|;
    }

    /** `__getitem__`: records the lookahead's length, then either stops or yields a line. */
    method Next() returns (step: Step)
      modifies this
      ensures step == NextStep(old(State())).0
      ensures State() == NextStep(old(State())).1
    {
      if lookahead == "" || HasCode(lookahead, "&K") || !open {
        step := Stop();
      } else {
        step := Advance();
      }
    }

    /** The branches of `__getitem__` that raise. */
    method Stop() returns (step: Step)
      requires !open || lookahead == "" || HasCode(lookahead, "&K")
      modifies this
      ensures step == NextStep(old(State())).0
      ensures State() == NextStep(old(State())).1
    {
      ghost var s := State();
      NextStepStop(s);
      var line := lookahead;
      lengths := lengths + [|line|];
      offset := offset + |line|;
      if line == "" {
        Close();
        return MissingEndRecord;
      } else if HasCode(line, "&K") {
        Close();
        return EndRecord;
      }
      return HandleClosed;
    }

    /** The branches of `__getitem__` that yield a line: the physical line after the lookahead
        decides whether the two are merged. */
    method Advance() returns (step: Step)
      requires open && lookahead != "" && !HasCode(lookahead, "&K")
      modifies this
      ensures step == NextStep(old(State())).0
      ensures State() == NextStep(old(State())).1
    {
      if IsContinuation(ReadLine(text, pos)) {
        step := YieldJoined();
      } else {
        step := YieldPlain();
      }
    }

    /** The lookahead is yielded stripped and the next physical line becomes the lookahead. */
    method YieldPlain() returns (step: Step)
      requires open && lookahead != "" && !HasCode(lookahead, "&K")
      requires !IsContinuation(ReadLine(text, pos))
      modifies this
      ensures step == NextStep(old(State())).0
      ensures State() == NextStep(old(State())).1
    {
      NextStepPlain(State());
      var line := lookahead;
      lengths := lengths + [|line|];
      offset := offset + |line|;
      var next := ReadLine(text, pos);
      pos := pos + |next|;
      lookahead := next;
      return Line(Strip(line));
    }

    /** The next physical line is a continuation: it is merged into the yielded line, its length
        is added to the length just recorded, and the physical line after it becomes the
        lookahead. */
    method YieldJoined() returns (step: Step)
      requires open && lookahead != "" && !HasCode(lookahead, "&K")
      requires IsContinuation(ReadLine(text, pos))
      modifies this
      ensures step == NextStep(old(State())).0
      ensures lengths == NextStep(old(State())).1.lengths
      ensures offset == NextStep(old(State())).1.offset
      ensures pos == NextStep(old(State())).1.pos
      ensures lookahead == NextStep(old(State())).1.lookahead
      ensures open == old(open)
    {
      ghost var s := State();
      NextStepJoin(s);
      var line := lookahead;
      var next := ReadLine(text, pos);
      var after := ReadLine(text, pos + |next|);
      step := Line(Joined(line, next));
      Record(|line| + |next|);
      pos := pos + |next| + |after|;
      lookahead := after;
      assert NextStep(s).1.pos == pos && NextStep(s).1.lookahead == lookahead;
    }

    /** One entry of `_dlzka_riadkov` and the same amount on `_precitane_bajty`. */
    method Record(length: nat)
      modifies this
      ensures lengths == old(lengths) + [length] && offset == old(offset) + length
      ensures pos == old(pos) && lookahead == old(lookahead) && open == old(open)
    {
      lengths := lengths + [length];
      offset := offset + length;
    }

    /** `spat(n)`. */
    method Spat(n: int) returns (fault: Option<Fault>)
      modifies this
      ensures fault == Rewind(old(State()), n).0
      ensures State() == Rewind(old(State()), n).1
    {
      var back := SumOf(PyTail(lengths, n));
      fault := SeekTo(offset - back);
    }

    /** The offset is set, and the seek and the two `readline()` calls are made if they can be. */
    method SeekTo(back: int) returns (fault: Option<Fault>)
      modifies this
      ensures fault == Seek(old(State()), back).0
      ensures State() == Seek(old(State()), back).1
    {
      offset := back;
      if !open {
        fault := Some(NoHandle);
      } else if back < 0 {
        fault := Some(NegativeSeek);
      } else {
        pos := back;
        var first := ReadLine(text, pos);
        pos := pos + |first|;
        var second := ReadLine(text, pos);
        pos := pos + |second|;
        lookahead := second;
        fault := None;
      }
    }

    /** `zavriet`: idempotent, changes nothing but the handle. */
    method Close()
      modifies this
      ensures State() == old(State()).(open := false)
    {
      if open {
        open := false;
      }
    }

    /** `je_koniec_suboru`. */
    method IsEndOfFile() returns (closed: bool)
      ensures closed <==> !open
    {
      closed := !open;
    }
  }

  /** `Citac(file_path)`: the checks in order, then the initial state. */
  method Open(path: string, isRegularFile: bool, contents: string) returns (r: Result<Citac, OpenError>)
    ensures r.Err? <==> OpenCheck(path, isRegularFile, contents) != None
    ensures r.Err? ==> OpenCheck(path, isRegularFile, contents) == Some(r.error)
    ensures r.Ok? ==> fresh(r.value) && r.value.State() == Initial(contents)
  {
    var check := OpenCheck(path, isRegularFile, contents);
    if check.Some? {
      return Err(check.value);
    }
    var reader := new Citac(path, isRegularFile, contents);
    return Ok(reader);
  }
}
