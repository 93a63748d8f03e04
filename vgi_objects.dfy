/**
 * `CitacObjektov` (katastertools/VgiShp/io.py:75-112): groups the logical lines of a `Citac` into
 * objects. An object runs from its `&O` line up to the next `&O` line, which is pushed back with
 * `spat(1)`; comment lines (`&*`) are dropped and the layer name is the second space-separated
 * token of the `&O` line, upper-cased.
 *
 * The grouping of one object is the function `Gather` over a `ReaderState`; the method
 * `CitacObjektov.NacitajDalsiObjekt` runs the source's loop over a `Citac` and is proved to end in
 * the state `Gather` describes. `Stream`, `Cut`, `Keep` and `LayerOf` are an independent
 * description of the same thing on the list of lines the reader yields, and `GatherFollowsStream`
 * ties the two together.
 */
module VgiObjects {
  import opened Results
  import opened PyStr
  import opened VgiReader
  import JumpShift

  /** How `__nacitaj_dalsi_objekt` ends. */
  datatype Ending =
    | PushedBack        // a second `&O` line was met and `spat(1)` succeeded
    | EndRecordReached  // the reader raised `IndexError` at `&K`: the `for` loop ends
    | EndRecordMissing  // the reader raised `ChybaKoncovaVeta`, which is caught here
    | NoLayerToken      // `riadok.split(' ')[1]` raised `IndexError` on the first `&O` line
    | ReaderFault       // the reader or `spat` failed on a dropped handle or a negative seek

  /** The result of gathering one object: how it ended, `__meno_vrstvy`, `__objekt`, and the
      reader afterwards. */
  datatype Gathered = Gathered(ending: Ending, layer: string, lines: seq<string>, reader: ReaderState)

  predicate IsHeader(line: string)
  {
    HasCode(line, "&O")
  }

  predicate IsComment(line: string)
  {
    HasCode(line, "&*")
  }

  /** The loop of `__nacitaj_dalsi_objekt` from reader state `s`, with `prvy` = `first`, the
      layer name so far and the lines stored so far. */
  function Gather(s: ReaderState, first: bool, layer: string, acc: seq<string>): (g: Gathered)
    ensures |acc| <= |g.lines| && g.lines[..|acc|] == acc
    decreases Measure(s)
  {
    var r := NextStep(s);
    NextStepProgress(s);
    match r.0
    case Line(l) =>
      if IsHeader(l) && !first then
        var parts := SplitOn(l, ' ');
        if |parts| < 2 then Gathered(NoLayerToken, layer, acc, r.1)
        else
          var g := Gather(r.1, true, Upper(parts[1]), acc + [l]);
          assert (acc + [l])[..|acc|] == acc;
          assert g.lines[..|acc|] == g.lines[..|acc| + 1][..|acc|];
          g
      else if IsHeader(l) then
        var back := Rewind(r.1, 1);
        Gathered(if back.0 == None then PushedBack else ReaderFault, layer, acc, back.1)
      else if IsComment(l) then Gather(r.1, first, layer, acc)
      else
        var g := Gather(r.1, first, layer, acc + [l]);
        assert (acc + [l])[..|acc|] == acc;
        assert g.lines[..|acc|] == g.lines[..|acc| + 1][..|acc|];
        g
    case MissingEndRecord => Gathered(EndRecordMissing, layer, acc, r.1)
    case EndRecord => Gathered(EndRecordReached, layer, acc, r.1)
    case HandleClosed => Gathered(ReaderFault, layer, acc, r.1)
  }

  /** The logical lines the reader yields from `s` on, up to the first call that raises. */
  function Stream(s: ReaderState): seq<string>
    decreases Measure(s)
  {
    var r := NextStep(s);
    NextStepProgress(s);
    if r.0.Line? then [r.0.line] + Stream(r.1) else []
  }

  /** The index of the `&O` line that ends the object: the first one when an `&O` line has
      already been stored (`first`), otherwise the second one; `|ls|` when there is none. */
  function Cut(ls: seq<string>, first: bool): (n: nat)
    ensures n <= |ls|
    ensures n < |ls| ==> IsHeader(ls[n])
  {
    if ls == [] then 0
    else if IsHeader(ls[0]) && first then 0
    else 1 + Cut(ls[1..], first || IsHeader(ls[0]))
  }

  /** The lines that are stored: all but the comment lines, in order. */
  function Keep(ls: seq<string>): (kept: seq<string>)
    ensures forall k :: 0 <= k < |kept| ==> !IsComment(kept[k])
  {
    if ls == [] then []
    else if IsComment(ls[0]) then Keep(ls[1..])
    else [ls[0]] + Keep(ls[1..])
  }

  /** The layer name set by the first `&O` line of `ls`, or `d` when there is none. */
  function LayerOf(ls: seq<string>, d: string): string
  {
    if ls == [] then d
    else if IsHeader(ls[0]) then
      var parts := SplitOn(ls[0], ' ');
      if |parts| < 2 then d else Upper(parts[1])
    else LayerOf(ls[1..], d)
  }

  /** The number of `&O` lines in `ls`. */
  function Headers(ls: seq<string>): nat
  {
    if ls == [] then 0 else Headers(ls[..|ls| - 1]) + (if IsHeader(ls[|ls| - 1]) then 1 else 0)
  }

  /** Taking the first `n + 1` lines of `[l] + rest`. */
  lemma PrefixOfCons(l: string, rest: seq<string>, n: nat)
    requires n <= |rest|
    ensures ([l] + rest)[..n + 1] == [l] + rest[..n]
  {
  }

  /** What `GatherFollowsStream` states, for the object `g` gathered from a reader that yields
      the lines `ls`. */
  predicate FollowsLines(g: Gathered, ls: seq<string>, first: bool, layer: string, acc: seq<string>)
  {
    var n := Cut(ls, first);
    && (g.ending != NoLayerToken ==> g.lines == acc + Keep(ls[..n]))
    && (g.ending != NoLayerToken ==> g.layer == (if first then layer else LayerOf(ls[..n], layer)))
    && (g.ending == PushedBack ==> n < |ls|)
    && (g.ending.EndRecordReached? || g.ending.EndRecordMissing? ==> n == |ls|)
  }

  predicate Follows(s: ReaderState, first: bool, layer: string, acc: seq<string>)
  {
    FollowsLines(Gather(s, first, layer, acc), Stream(s), first, layer, acc)
  }

  /** Storing a line that is neither `&O` nor `&*`. */
  lemma FollowsStored(g: Gathered, rest: seq<string>, l: string, first: bool, layer: string, acc: seq<string>)
    requires !IsHeader(l) && !IsComment(l) && FollowsLines(g, rest, first, layer, acc + [l])
    ensures FollowsLines(g, [l] + rest, first, layer, acc)
  {
    var m := Cut(rest, first);
    assert Cut([l] + rest, first) == m + 1 by {
      assert ([l] + rest)[1..] == rest;
    }
    KeepCons(l, rest, m, layer);
  }

  /** Dropping an `&*` line. */
  lemma FollowsDropped(g: Gathered, rest: seq<string>, l: string, first: bool, layer: string, acc: seq<string>)
    requires !IsHeader(l) && IsComment(l) && FollowsLines(g, rest, first, layer, acc)
    ensures FollowsLines(g, [l] + rest, first, layer, acc)
  {
    var m := Cut(rest, first);
    assert Cut([l] + rest, first) == m + 1 by {
      assert ([l] + rest)[1..] == rest;
    }
    KeepCons(l, rest, m, layer);
  }

  /** Storing the first `&O` line, which sets the layer name `name`. */
  lemma FollowsHeader(g: Gathered, rest: seq<string>, l: string, name: string, layer: string, acc: seq<string>)
    requires IsHeader(l) && LayerOf([l] + rest[..Cut(rest, true)], layer) == name
    requires FollowsLines(g, rest, true, name, acc + [l])
    ensures FollowsLines(g, [l] + rest, false, layer, acc)
  {
    var m := Cut(rest, true);
    assert Cut([l] + rest, false) == m + 1 by {
      assert ([l] + rest)[1..] == rest;
    }
    KeepCons(l, rest, m, layer);
  }

  lemma LayerOfHeader(l: string, rest: seq<string>, d: string)
    requires IsHeader(l) && |SplitOn(l, ' ')| >= 2
    ensures LayerOf([l] + rest, d) == Upper(SplitOn(l, ' ')[1])
  {
    assert ([l] + rest)[0] == l;
  }

  /** One yielded line, as `Stream` sees it. */
  lemma StreamStep(s: ReaderState)
    requires NextStep(s).0.Line?
    ensures Stream(s) == [NextStep(s).0.line] + Stream(NextStep(s).1)
  {
  }

  /** One yielded line that is stored, as `Gather` sees it. */
  lemma GatherStoreStep(s: ReaderState, first: bool, layer: string, acc: seq<string>)
    requires NextStep(s).0.Line? && !IsHeader(NextStep(s).0.line) && !IsComment(NextStep(s).0.line)
    ensures Gather(s, first, layer, acc) == Gather(NextStep(s).1, first, layer, acc + [NextStep(s).0.line])
  {
  }

  lemma GatherCommentStep(s: ReaderState, first: bool, layer: string, acc: seq<string>)
    requires NextStep(s).0.Line? && !IsHeader(NextStep(s).0.line) && IsComment(NextStep(s).0.line)
    ensures Gather(s, first, layer, acc) == Gather(NextStep(s).1, first, layer, acc)
  {
  }

  lemma GatherHeaderStep(s: ReaderState, layer: string, acc: seq<string>)
    requires NextStep(s).0.Line? && IsHeader(NextStep(s).0.line)
    requires |SplitOn(NextStep(s).0.line, ' ')| >= 2
    ensures var l := NextStep(s).0.line;
      Gather(s, false, layer, acc) == Gather(NextStep(s).1, true, Upper(SplitOn(l, ' ')[1]), acc + [l])
  {
  }

  /** `Keep` and `LayerOf` on a list that starts with the line `l`. */
  lemma KeepCons(l: string, rest: seq<string>, m: nat, d: string)
    requires m <= |rest|
    ensures ([l] + rest)[..m + 1] == [l] + rest[..m]
    ensures Keep([l] + rest[..m]) == (if IsComment(l) then [] else [l]) + Keep(rest[..m])
    ensures !IsHeader(l) ==> LayerOf([l] + rest[..m], d) == LayerOf(rest[..m], d)
  {
    assert ([l] + rest[..m])[1..] == rest[..m];
  }

  lemma FollowStore(s: ReaderState, first: bool, layer: string, acc: seq<string>)
    requires NextStep(s).0.Line? && !IsHeader(NextStep(s).0.line) && !IsComment(NextStep(s).0.line)
    ensures Follows(s, first, layer, acc)
    decreases Measure(s), 0
  {
    var l := NextStep(s).0.line;
    var t := NextStep(s).1;
    NextStepProgress(s);
    GatherFollowsStream(t, first, layer, acc + [l]);
    StreamStep(s);
    GatherStoreStep(s, first, layer, acc);
    FollowsStored(Gather(t, first, layer, acc + [l]), Stream(t), l, first, layer, acc);
  }

  lemma FollowComment(s: ReaderState, first: bool, layer: string, acc: seq<string>)
    requires NextStep(s).0.Line? && !IsHeader(NextStep(s).0.line) && IsComment(NextStep(s).0.line)
    ensures Follows(s, first, layer, acc)
    decreases Measure(s), 0
  {
    var l := NextStep(s).0.line;
    var t := NextStep(s).1;
    NextStepProgress(s);
    GatherFollowsStream(t, first, layer, acc);
    StreamStep(s);
    GatherCommentStep(s, first, layer, acc);
    FollowsDropped(Gather(t, first, layer, acc), Stream(t), l, first, layer, acc);
  }

  lemma FollowHeader(s: ReaderState, layer: string, acc: seq<string>)
    requires NextStep(s).0.Line? && IsHeader(NextStep(s).0.line)
    requires |SplitOn(NextStep(s).0.line, ' ')| >= 2
    ensures Follows(s, false, layer, acc)
    decreases Measure(s), 0
  {
    var l := NextStep(s).0.line;
    var t := NextStep(s).1;
    var name := Upper(SplitOn(l, ' ')[1]);
    NextStepProgress(s);
    GatherFollowsStream(t, true, name, acc + [l]);
    StreamStep(s);
    GatherHeaderStep(s, layer, acc);
    LayerOfHeader(l, Stream(t)[..Cut(Stream(t), true)], layer);
    FollowsHeader(Gather(t, true, name, acc + [l]), Stream(t), l, name, layer, acc);
  }

  /** Unless the first `&O` line has no second token, the object holds exactly the lines the
      reader yields up to the `&O` line that ends it, in order and without the comment lines;
      the layer name comes from the first `&O` line. The object ends by pushing back only when
      such an `&O` line was met, and ends on the end record only when none was. */
  lemma {:induction false} GatherFollowsStream(s: ReaderState, first: bool, layer: string, acc: seq<string>)
    ensures var g := Gather(s, first, layer, acc); var ls := Stream(s); var n := Cut(ls, first);
      g.ending != NoLayerToken ==> g.lines == acc + Keep(ls[..n])
    ensures var g := Gather(s, first, layer, acc); var ls := Stream(s); var n := Cut(ls, first);
      g.ending != NoLayerToken ==> g.layer == (if first then layer else LayerOf(ls[..n], layer))
    ensures var g := Gather(s, first, layer, acc); var ls := Stream(s);
      g.ending == PushedBack ==> Cut(ls, first) < |ls|
    ensures var g := Gather(s, first, layer, acc); var ls := Stream(s);
      g.ending.EndRecordReached? || g.ending.EndRecordMissing? ==> Cut(ls, first) == |ls|
    decreases Measure(s), 1
  {
    var r := NextStep(s);
    if r.0.Line? {
      var l := r.0.line;
      if !IsHeader(l) && !IsComment(l) {
        FollowStore(s, first, layer, acc);
      } else if !IsHeader(l) {
        FollowComment(s, first, layer, acc);
      } else if !first && |SplitOn(l, ' ')| >= 2 {
        FollowHeader(s, layer, acc);
      } else if first {
        StreamStep(s);
        assert Cut(Stream(s), first) == 0;
        assert Stream(s)[..0] == [];
      }
    }
    assert Follows(s, first, layer, acc);
  }

  /** A gathered object holds no comment line. */
  lemma ObjectHasNoComments(s: ReaderState)
    requires Gather(s, false, "", []).ending != NoLayerToken
    ensures forall k :: 0 <= k < |Gather(s, false, "", []).lines| ==>
      !IsComment(Gather(s, false, "", []).lines[k])
  {
    GatherFollowsStream(s, false, "", []);
    assert Gather(s, false, "", []).lines == Keep(Stream(s)[..Cut(Stream(s), false)]);
  }

  lemma HeadersAppend(ls: seq<string>, l: string)
    ensures Headers(ls + [l]) == Headers(ls) + (if IsHeader(l) then 1 else 0)
  {
    assert (ls + [l])[..|ls|] == ls;
  }

  /** An object never holds more than one `&O` line, and it holds one exactly when the
      segmenter has seen its first `&O` line (`prvy`). */
  lemma {:induction false} GatherStoresOneHeader(s: ReaderState, first: bool, layer: string, acc: seq<string>)
    requires Headers(acc) == (if first then 1 else 0)
    ensures Headers(Gather(s, first, layer, acc).lines) <= 1
    decreases Measure(s)
  {
    var r := NextStep(s);
    NextStepProgress(s);
    if r.0.Line? {
      var l := r.0.line;
      HeadersAppend(acc, l);
      if IsHeader(l) && !first {
        if |SplitOn(l, ' ')| >= 2 {
          GatherStoresOneHeader(r.1, true, Upper(SplitOn(l, ' ')[1]), acc + [l]);
        }
      } else if !IsHeader(l) && IsComment(l) {
        GatherStoresOneHeader(r.1, first, layer, acc);
      } else if !IsHeader(l) {
        GatherStoresOneHeader(r.1, first, layer, acc + [l]);
      }
    }
  }

  /** The object's `&O` line, when there is one, is the line the layer name was taken from: the
      layer name is empty until an `&O` line is stored. */
  lemma {:induction false} GatherLayerNeedsHeader(s: ReaderState, first: bool, layer: string, acc: seq<string>)
    requires !first && layer == ""
    ensures var g := Gather(s, first, layer, acc); g.layer != "" ==> Headers(g.lines) > Headers(acc)
    decreases Measure(s)
  {
    var r := NextStep(s);
    NextStepProgress(s);
    if r.0.Line? {
      var l := r.0.line;
      var g := Gather(s, first, layer, acc);
      if IsHeader(l) {
        if |SplitOn(l, ' ')| >= 2 {
          var g' := Gather(r.1, true, Upper(SplitOn(l, ' ')[1]), acc + [l]);
          assert g == g';
          HeadersAppend(acc, l);
          HeadersMonotone(acc + [l], g'.lines);
        }
      } else if IsComment(l) {
        GatherLayerNeedsHeader(r.1, first, layer, acc);
      } else {
        GatherLayerNeedsHeader(r.1, first, layer, acc + [l]);
        HeadersAppend(acc, l);
      }
    }
  }

  /** A longer list of lines never has fewer `&O` lines than its prefix. */
  lemma {:induction false} HeadersMonotone(prefix: seq<string>, ls: seq<string>)
    requires |prefix| <= |ls| && ls[..|prefix|] == prefix
    ensures Headers(prefix) <= Headers(ls)
    decreases |ls|
  {
    if |ls| > |prefix| {
      var init := ls[..|ls| - 1];
      assert init[..|prefix|] == prefix;
      HeadersMonotone(prefix, init);
    } else {
      assert ls == prefix;
    }
  }

  /** What `CitacObjektov.__getitem__` produces. */
  datatype Fetch =
    | Object(layer: string, lines: seq<string>)  // the dictionary with `meno_vrstvy` and `riadky`
    | Exhausted                                  // `IndexError`: the consumer's `for` loop ends
    | Crashed                                    // any other exception escapes

  /** `CitacObjektov.__getitem__` on the reader state `s`: a closed reader raises `IndexError`;
      otherwise one object is gathered. A missing layer token raises `IndexError` as well, which
      the consumer's `for` loop takes for the end of the sequence. */
  function FetchObject(s: ReaderState): (r: (Fetch, ReaderState))
    ensures !s.open ==> r == (Exhausted, s)
  {
    if !s.open then (Exhausted, s)
    else
      var g := Gather(s, false, "", []);
      var f := match g.ending
        case NoLayerToken => Exhausted
        case ReaderFault => Crashed
        case _ => Object(g.layer, g.lines);
      (f, g.reader)
  }

  /** `CitacObjektov`: reads a `Citac` object by object. */
  class CitacObjektov {
    const citac: Citac
    var objekt: seq<string>
    var menoVrstvy: string

    constructor (c: Citac)
      ensures citac == c && objekt == [] && menoVrstvy == ""
    {
      citac := c;
      objekt := [];
      menoVrstvy := "";
    }

    /** `__nacitaj_dalsi_objekt`: the `for` loop over the reader, proved to end as `Gather`. */
    method NacitajDalsiObjekt() returns (ending: Ending)
      modifies this, citac
      ensures var g := Gather(old(citac.State()), false, "", []);
        && ending == g.ending && objekt == g.lines && menoVrstvy == g.layer
        && citac.State() == g.reader
    {
      ghost var goal := Gather(citac.State(), false, "", []);
      objekt := [];
      menoVrstvy := "";
      var prvy := false;
      while true
        invariant Gather(citac.State(), prvy, menoVrstvy, objekt) == goal
        decreases Measure(citac.State())
      {
        ghost var s := citac.State();
        NextStepProgress(s);
        var step := citac.Next();
        match step {
          case Line(riadok) =>
            if IsHeader(riadok) && !prvy {
              prvy := true;
              var parts := SplitOn(riadok, ' ');
              if |parts| < 2 {
                return NoLayerToken;
              }
              menoVrstvy := Upper(parts[1]);
              objekt := objekt + [riadok];
            } else if IsHeader(riadok) {
              var fault := citac.Spat(1);
              return if fault == None then PushedBack else ReaderFault;
            } else if IsComment(riadok) {
            } else {
              objekt := objekt + [riadok];
            }
          case MissingEndRecord =>
            return EndRecordMissing;
          case EndRecord =>
            return EndRecordReached;
          case HandleClosed =>
            return ReaderFault;
        }
      }
    }

    /** `__getitem__`. */
    method Next() returns (f: Fetch)
      modifies this, citac
      ensures (f, citac.State()) == FetchObject(old(citac.State()))
      ensures f.Object? ==> f.lines == objekt && f.layer == menoVrstvy
    {
      var closed := citac.IsEndOfFile();
      if closed {
        return Exhausted;
      }
      var ending := NacitajDalsiObjekt();
      f := match ending
        case NoLayerToken => Exhausted
        case ReaderFault => Crashed
        case _ => Object(menoVrstvy, objekt);
    }

    /** `raw_objekt['riadky'].pop(0)` in the converter: the dictionary shares this object's
        list, so the pop changes the list `posun_skoky` later reads. */
    method PopFirstLine()
      requires objekt != []
      modifies this
      ensures objekt == old(objekt)[1..] && menoVrstvy == old(menoVrstvy)
    {
      objekt := objekt[1..];
    }

    /** `posun_skoky` on the stored object. */
    method PosunSkoky() returns (ret: seq<string>)
      ensures ret == JumpShift.ShiftJumps(objekt)
    {
      ret := JumpShift.PosunSkoky(objekt);
    }
  }
}
