/**
 * `CitacObjektov.posun_skoky` (katastertools/VgiShp/io.py:114-165): an alternate line list for
 * the object just read, in which the jump prefix `N` of the lines of a line-string is moved one
 * line later inside every block that needs it.
 *
 * A block opens at an `&L P` line without `S=` and closes at the next such line, at any other
 * record line (one starting with `&`), or at the end of the object. It becomes a range only if a
 * jump line (`NL`, `NR`, `NC`) was seen since the last time the jump flag was reset, which need
 * not be inside the block. The scan's state is a value (`Scan`); `Ranges` is the scan over the
 * whole object and `ShiftJumps` the rewritten list. The loops of the source are the methods
 * `FindRanges` and `ShiftRange`, proved equal to these functions.
 */
module JumpShift {

  /** `line[:2] in ("NL", "NR", "NC")`. */
  predicate IsJump(line: string)
  {
    |line| >= 2 && line[0] == 'N' && (line[1] == 'L' || line[1] == 'R' || line[1] == 'C')
  }

  /** `line[:1] == "&"`: a record line. */
  predicate IsRecord(line: string)
  {
    line != "" && line[0] == '&'
  }

  /** `"S=" in line`. */
  predicate HasSEquals(line: string)
  {
    exists i :: 0 <= i < |line| - 1 && line[i] == 'S' && line[i + 1] == '='
  }

  /** `line[:4] == "&L P" and "S=" not in line`: the line that opens a block. */
  predicate OpensBlock(line: string)
  {
    |line| >= 4 && line[0] == '&' && line[1] == 'L' && line[2] == ' ' && line[3] == 'P'
    && !HasSEquals(line)
  }

  /** A recorded range `(zaciatok, i)`: the lines `lo` up to but excluding `hi`. */
  datatype Range = Range(lo: nat, hi: nat)

  /** `zaciatok`, `skok` and `hranice` during the scan. `zaciatok` is `False` or an index and is
      only ever tested for truth, so `start == 0` stands both for `False` and for a block that
      opened at index 0, which the scan cannot tell apart. */
  datatype Scan = Scan(start: nat, jump: bool, ranges: seq<Range>)

  /** `hranice` after the open block closes at `i`: it gains the block only if `skok` is set. */
  function Close(st: Scan, i: nat): seq<Range>
  {
    if st.jump then st.ranges + [Range(st.start, i)] else st.ranges
  }

  /** One iteration of the scan, for the line at index `i`. */
  function ScanLine(st: Scan, line: string, i: nat): Scan
  {
    if OpensBlock(line) then
      if st.start != 0 then Scan(i, false, Close(st, i))
      else st.(start := i)
    else if IsRecord(line) && st.start != 0 then Scan(0, false, Close(st, i))
    else if IsJump(line) then st.(jump := true)
    else st
  }

  /** The scan after the first `k` lines. */
  function ScanUpTo(lines: seq<string>, k: nat): Scan
    requires k <= |lines|
    decreases k
  {
    if k == 0 then Scan(0, false, []) else ScanLine(ScanUpTo(lines, k - 1), lines[k - 1], k - 1)
  }

  function LastHi(rs: seq<Range>): nat
  {
    if rs == [] then 0 else rs[|rs| - 1].hi
  }

  /** `r` is a range that the scan can record after the boundary `from` (the end of the range
      before it, or 0): it opens at a block-opening line strictly after index 0, contains no
      other record line, ends at a record line or at the end of the object, and a jump line
      occurs somewhere between `from` and its end. */
  predicate Recorded(lines: seq<string>, r: Range, from: nat)
  {
    && from <= r.lo && 0 < r.lo < r.hi <= |lines|
    && OpensBlock(lines[r.lo])
    && (forall j :: r.lo < j < r.hi ==> !IsRecord(lines[j]))
    && (r.hi < |lines| ==> IsRecord(lines[r.hi]))
    && (exists j :: from <= j < r.hi && IsJump(lines[j]))
  }

  /** Every range is recorded after the end of the one before it, so the ranges are increasing
      and do not overlap. */
  predicate AllRecorded(lines: seq<string>, rs: seq<Range>)
    decreases |rs|
  {
    rs == [] || (AllRecorded(lines, rs[..|rs| - 1]) && Recorded(lines, rs[|rs| - 1], LastHi(rs[..|rs| - 1])))
  }

  /** Recorded ranges lie inside the object, after index 0, in increasing order. */
  lemma {:induction false} AllRecordedBounds(lines: seq<string>, rs: seq<Range>)
    requires AllRecorded(lines, rs)
    ensures forall k :: 0 <= k < |rs| ==> 0 < rs[k].lo < rs[k].hi <= |lines|
    ensures forall k :: 0 < k < |rs| ==> rs[k - 1].hi <= rs[k].lo
    decreases |rs|
  {
    if rs != [] {
      var init := rs[..|rs| - 1];
      AllRecordedBounds(lines, init);
      assert forall k :: 0 <= k < |init| ==> rs[k] == init[k];
    }
  }

  /** What holds of the scan after `k` lines. */
  predicate ScanInv(lines: seq<string>, k: nat, st: Scan)
  {
    && k <= |lines|
    && AllRecorded(lines, st.ranges) && LastHi(st.ranges) <= k
    && (st.start != 0 ==>
          && LastHi(st.ranges) <= st.start < k && OpensBlock(lines[st.start])
          && forall j :: st.start < j < k ==> !IsRecord(lines[j]))
    && (st.jump ==> exists j :: LastHi(st.ranges) <= j < k && IsJump(lines[j]))
  }

  lemma AppendRecorded(lines: seq<string>, rs: seq<Range>, r: Range)
    requires AllRecorded(lines, rs) && Recorded(lines, r, LastHi(rs))
    ensures AllRecorded(lines, rs + [r]) && LastHi(rs + [r]) == r.hi
  {
    assert (rs + [r])[..|rs|] == rs;
  }

  /** Closing an open block at a record line keeps the invariant. */
  lemma CloseKeepsInv(lines: seq<string>, k: nat, st: Scan)
    requires ScanInv(lines, k, st) && k < |lines| && st.start != 0 && IsRecord(lines[k])
    ensures AllRecorded(lines, Close(st, k)) && LastHi(Close(st, k)) <= k
  {
    if st.jump {
      var r := Range(st.start, k);
      var w :| LastHi(st.ranges) <= w < k && IsJump(lines[w]);
      assert Recorded(lines, r, LastHi(st.ranges));
      AppendRecorded(lines, st.ranges, r);
    }
  }

  lemma ScanLineKeepsInv(lines: seq<string>, k: nat, st: Scan)
    requires ScanInv(lines, k, st) && k < |lines|
    ensures ScanInv(lines, k + 1, ScanLine(st, lines[k], k))
  {
    var line := lines[k];
    var st' := ScanLine(st, line, k);
    if OpensBlock(line) && st.start != 0 {
      CloseKeepsInv(lines, k, st);
    } else if !OpensBlock(line) && IsRecord(line) && st.start != 0 {
      CloseKeepsInv(lines, k, st);
    } else if st.jump {
      var w :| LastHi(st.ranges) <= w < k && IsJump(lines[w]);
      assert LastHi(st'.ranges) <= w < k + 1 && IsJump(lines[w]);
    }
  }

  lemma {:induction false} ScanUpToInv(lines: seq<string>, k: nat)
    requires k <= |lines|
    ensures ScanInv(lines, k, ScanUpTo(lines, k))
    decreases k
  {
    if k > 0 {
      ScanUpToInv(lines, k - 1);
      ScanLineKeepsInv(lines, k - 1, ScanUpTo(lines, k - 1));
    }
  }

  /** `hranice` after the final check `if zaciatok and skok`: every range is recorded after the
      one before it, so the ranges are increasing, non-overlapping and inside the object. */
  function Ranges(lines: seq<string>): (rs: seq<Range>)
    ensures AllRecorded(lines, rs)
    ensures forall k :: 0 <= k < |rs| ==> 0 < rs[k].lo < rs[k].hi <= |lines|
  {
    var st := ScanUpTo(lines, |lines|);
    ScanUpToInv(lines, |lines|);
    var rs := if st.start != 0 && st.jump then st.ranges + [Range(st.start, |lines|)] else st.ranges;
    assert AllRecorded(lines, rs) by {
      if st.start != 0 && st.jump {
        var w :| LastHi(st.ranges) <= w < |lines| && IsJump(lines[w]);
        assert Recorded(lines, Range(st.start, |lines|), LastHi(st.ranges));
        AppendRecorded(lines, st.ranges, Range(st.start, |lines|));
      }
    }
    AllRecordedBounds(lines, rs);
    rs
  }

  /** `skocil` before the line at index `k` of a block: whether the line before it is a jump. */
  predicate Carry(b: seq<string>, k: nat)
    requires k <= |b|
  {
    k > 0 && IsJump(b[k - 1])
  }

  /** The rewritten line at index `k` of a block: a jump line with no pending carry loses its
      first character (the `N`), the first non-jump line after a jump gains an `N`, and every
      other line is kept. */
  function ShiftLine(b: seq<string>, k: nat): string
    requires k < |b|
  {
    if IsJump(b[k]) then (if Carry(b, k) then b[k] else b[k][1..])
    else if Carry(b, k) then "N" + b[k]
    else b[k]
  }

  /** `upravene_o` for the block `o`. */
  function ShiftBlock(b: seq<string>): (r: seq<string>)
    ensures |r| == |b|
  {
    seq(|b|, k requires 0 <= k < |b| => ShiftLine(b, k))
  }

  /** The rewritten blocks of the ranges, one after the other. */
  function Blocks(lines: seq<string>, rs: seq<Range>): seq<string>
    requires forall k :: 0 <= k < |rs| ==> rs[k].lo <= rs[k].hi <= |lines|
    decreases |rs|
  {
    if rs == [] then []
    else
      var r := rs[|rs| - 1];
      Blocks(lines, rs[..|rs| - 1]) + ShiftBlock(lines[r.lo..r.hi])
  }

  /** The list built from the ranges `rs`: the stored list itself when there are none;
      otherwise the lines before the first range, the rewritten ranges, and the lines after the
      last range. Lines between two ranges that do not touch are not copied. */
  function Rewrite(lines: seq<string>, rs: seq<Range>): seq<string>
    requires forall k :: 0 <= k < |rs| ==> rs[k].lo <= rs[k].hi <= |lines|
  {
    if rs == [] then lines
    else
      var tail := if rs[|rs| - 1].hi < |lines| then lines[rs[|rs| - 1].hi..] else [];
      lines[..rs[0].lo] + Blocks(lines, rs) + tail
  }

  /** What `posun_skoky` returns. */
  function ShiftJumps(lines: seq<string>): seq<string>
  {
    Rewrite(lines, Ranges(lines))
  }

  /** The number of lines between consecutive ranges, which the rewrite drops. */
  function Gaps(rs: seq<Range>): int
    decreases |rs|
  {
    if |rs| <= 1 then 0 else Gaps(rs[..|rs| - 1]) + rs[|rs| - 1].lo - rs[|rs| - 2].hi
  }

  function Covered(rs: seq<Range>): int
    decreases |rs|
  {
    if rs == [] then 0 else Covered(rs[..|rs| - 1]) + rs[|rs| - 1].hi - rs[|rs| - 1].lo
  }

  lemma {:induction false} BlocksLength(lines: seq<string>, rs: seq<Range>)
    requires forall k :: 0 <= k < |rs| ==> rs[k].lo <= rs[k].hi <= |lines|
    ensures |Blocks(lines, rs)| == Covered(rs)
    decreases |rs|
  {
    if rs != [] {
      BlocksLength(lines, rs[..|rs| - 1]);
    }
  }

  lemma {:induction false} CoveredAndGaps(lines: seq<string>, rs: seq<Range>)
    requires rs != [] && AllRecorded(lines, rs)
    ensures Covered(rs) + Gaps(rs) == rs[|rs| - 1].hi - rs[0].lo
    ensures Gaps(rs) >= 0
    decreases |rs|
  {
    if |rs| > 1 {
      var init := rs[..|rs| - 1];
      CoveredAndGaps(lines, init);
      assert init[0] == rs[0] && LastHi(init) == rs[|rs| - 2].hi;
    }
  }

  /** The rewrite keeps one output line per line of every range and per line outside all
      ranges, and drops exactly the lines between ranges; so it is never longer than the
      object, and it keeps the length exactly when consecutive ranges touch. */
  lemma RewriteLength(lines: seq<string>, rs: seq<Range>)
    requires AllRecorded(lines, rs)
    requires forall k :: 0 <= k < |rs| ==> rs[k].lo <= rs[k].hi <= |lines|
    ensures |Rewrite(lines, rs)| + Gaps(rs) == |lines|
    ensures Gaps(rs) >= 0
  {
    if rs != [] {
      BlocksLength(lines, rs);
      CoveredAndGaps(lines, rs);
    }
  }

  lemma ShiftJumpsLength(lines: seq<string>)
    ensures |ShiftJumps(lines)| + Gaps(Ranges(lines)) == |lines|
    ensures Gaps(Ranges(lines)) >= 0 && |ShiftJumps(lines)| <= |lines|
  {
    RewriteLength(lines, Ranges(lines));
  }

  /** Outside the ranges the object is copied: the lines before the first range start the
      result unchanged and the lines after the last range end it unchanged. */
  lemma ShiftJumpsKeepsOutside(lines: seq<string>)
    requires Ranges(lines) != []
    ensures var rs := Ranges(lines); var r := ShiftJumps(lines);
      && r[..rs[0].lo] == lines[..rs[0].lo]
      && |lines| - rs[|rs| - 1].hi <= |r|
      && r[|r| - (|lines| - rs[|rs| - 1].hi)..] == lines[rs[|rs| - 1].hi..]
  {
    var rs := Ranges(lines);
    var tail := if rs[|rs| - 1].hi < |lines| then lines[rs[|rs| - 1].hi..] else [];
    assert tail == lines[rs[|rs| - 1].hi..];
  }

  /** A block without jump lines is copied unchanged. */
  lemma ShiftBlockWithoutJumps(b: seq<string>)
    requires forall k :: 0 <= k < |b| ==> !IsJump(b[k])
    ensures ShiftBlock(b) == b
  {
    forall k | 0 <= k < |b| ensures ShiftBlock(b)[k] == b[k] {
      assert !Carry(b, k);
    }
  }

  /** Within a block, the first jump line of a run gives up its `N` and the line after the run
      receives it; the other lines of the run are kept. A run at the end of the block loses its
      `N`. */
  lemma ShiftBlockMovesPrefix(b: seq<string>, k: nat, m: nat)
    requires k < m <= |b| && !Carry(b, k) && IsJump(b[k])
    requires forall j :: k < j < m ==> IsJump(b[j])
    ensures ShiftBlock(b)[k] == b[k][1..]
    ensures forall j :: k < j < m ==> ShiftBlock(b)[j] == b[j]
    ensures m < |b| && !IsJump(b[m]) ==> ShiftBlock(b)[m] == "N" + b[m]
  {
    if m < |b| {
      assert Carry(b, m);
    }
    forall j | k < j < m ensures ShiftBlock(b)[j] == b[j] {
      assert Carry(b, j);
    }
  }

  /** `zaciatok`'s truth test: a block opening at index 0 never becomes a range, even with jump
      lines in it. */
  lemma BlockAtIndexZeroIsNotOpen()
    ensures Ranges(["&L P", "NL 1 1", "L 2 2"]) == []
    ensures ShiftJumps(["&L P", "NL 1 1", "L 2 2"]) == ["&L P", "NL 1 1", "L 2 2"]
  {
    var lines := ["&L P", "NL 1 1", "L 2 2"];
    assert OpensBlock(lines[0]) by {
      assert !HasSEquals(lines[0]);
    }
    assert ScanUpTo(lines, 1) == Scan(0, false, []);
    assert IsJump(lines[1]);
    assert ScanUpTo(lines, 2) == Scan(0, true, []);
    assert !IsRecord(lines[2]) && !IsJump(lines[2]);
    assert ScanUpTo(lines, 3) == Scan(0, true, []);
  }

  /** The scan loop of `posun_skoky`, with the final check for a block still open at the end. */
  method FindRanges(lines: seq<string>) returns (hranice: seq<Range>)
    ensures hranice == Ranges(lines)
  {
    hranice := [];
    var zaciatok: nat := 0;
    var skok := false;
    var i := 0;
    while i < |lines|
      invariant i <= |lines|
      invariant Scan(zaciatok, skok, hranice) == ScanUpTo(lines, i)
    {
      var riadok := lines[i];
      if OpensBlock(riadok) {
        if zaciatok != 0 {
          if skok {
            hranice := hranice + [Range(zaciatok, i)];
          }
          zaciatok := i;
          skok := false;
        } else {
          zaciatok := i;
        }
      } else if IsRecord(riadok) && zaciatok != 0 {
        if skok {
          hranice := hranice + [Range(zaciatok, i)];
        }
        zaciatok := 0;
        skok := false;
      } else if IsJump(riadok) {
        skok := true;
      }
      i := i + 1;
    }
    if zaciatok != 0 && skok {
      hranice := hranice + [Range(zaciatok, i)];
    }
  }

  /** The inner loop of `posun_skoky` over one block `o`. */
  method ShiftRange(o: seq<string>) returns (upravene: seq<string>)
    ensures upravene == ShiftBlock(o)
  {
    upravene := [];
    var skocil := false;
    var k := 0;
    while k < |o|
      invariant k <= |o|
      invariant skocil == Carry(o, k)
      invariant upravene == ShiftBlock(o)[..k]
    {
      var riadok := o[k];
      if IsJump(riadok) {
        if skocil {
          upravene := upravene + [riadok];
        } else {
          skocil := true;
          upravene := upravene + [riadok[1..]];
        }
      } else {
        if skocil {
          upravene := upravene + ["N" + riadok];
          skocil := false;
        } else {
          upravene := upravene + [riadok];
        }
      }
      assert upravene[k] == ShiftBlock(o)[k];
      k := k + 1;
    }
  }

  /** `posun_skoky` on the stored object `objekt`. */
  method PosunSkoky(objekt: seq<string>) returns (ret: seq<string>)
    ensures ret == ShiftJumps(objekt)
  {
    var hranice := FindRanges(objekt);
    if hranice == [] {
      return objekt;
    }
    ret := objekt[..hranice[0].lo];
    var j := 0;
    while j < |hranice|
      invariant j <= |hranice|
      invariant ret == objekt[..hranice[0].lo] + Blocks(objekt, hranice[..j])
    {
      var o := objekt[hranice[j].lo..hranice[j].hi];
      var upravene := ShiftRange(o);
      assert hranice[..j + 1][..j] == hranice[..j];
      ret := ret + upravene;
      j := j + 1;
    }
    assert hranice[..j] == hranice;
    if hranice[|hranice| - 1].hi < |objekt| {
      ret := ret + objekt[hranice[|hranice| - 1].hi..];
    }
  }

  predicate JumpBetween(lines: seq<string>, lo: nat, hi: nat)
    requires hi <= |lines|
  {
    exists j :: lo <= j < hi && IsJump(lines[j])
  }

  lemma {:induction false} SingleBlockScan(lines: seq<string>, k: nat)
    requires 2 <= k <= |lines| && IsRecord(lines[0]) && OpensBlock(lines[1])
    requires forall j :: 1 < j < |lines| ==> !IsRecord(lines[j])
    ensures ScanUpTo(lines, k) == Scan(1, JumpBetween(lines, 2, k), [])
    decreases k
  {
    if k == 2 {
      assert ScanUpTo(lines, 1) == Scan(0, false, []);
    } else {
      SingleBlockScan(lines, k - 1);
      assert !IsRecord(lines[k - 1]);
      if IsJump(lines[k - 1]) {
        assert JumpBetween(lines, 2, k);
      } else if JumpBetween(lines, 2, k) {
        var j :| 2 <= j < k && IsJump(lines[j]);
        assert JumpBetween(lines, 2, k - 1);
      }
    }
  }

  /** An object made of its `&O` line and a single line-string block: the block becomes the
      only range when a jump line occurs in it, and the rewrite is then the `&O` line followed by
      the rewritten block; otherwise the object is returned unchanged. */
  lemma SingleBlock(lines: seq<string>)
    requires |lines| >= 2 && IsRecord(lines[0]) && OpensBlock(lines[1])
    requires forall j :: 1 < j < |lines| ==> !IsRecord(lines[j])
    ensures Ranges(lines) == (if JumpBetween(lines, 2, |lines|) then [Range(1, |lines|)] else [])
    ensures ShiftJumps(lines)
         == (if JumpBetween(lines, 2, |lines|) then [lines[0]] + ShiftBlock(lines[1..]) else lines)
  {
    SingleBlockScan(lines, |lines|);
    if JumpBetween(lines, 2, |lines|) {
      assert Blocks(lines, [Range(1, |lines|)]) == ShiftBlock(lines[1..]);
      assert lines[..1] == [lines[0]];
    }
  }

  /** A line-string whose first line after the block opener is a jump: the `N` moves from that
      line to the next one. */
  lemma JumpMovesToNextLine()
    ensures ShiftJumps(["&O KLADPAR 17", "&L P", "NL 1 1", "L 2 2", "L 3 3"])
         == ["&O KLADPAR 17", "&L P", "L 1 1", "NL 2 2", "L 3 3"]
  {
    var lines := ["&O KLADPAR 17", "&L P", "NL 1 1", "L 2 2", "L 3 3"];
    assert OpensBlock(lines[1]) by {
      assert !HasSEquals(lines[1]);
    }
    assert IsJump(lines[2]);
    SingleBlock(lines);
    var b := lines[1..];
    assert ShiftBlock(b)[1] == "L 1 1";
    assert ShiftBlock(b)[2] == "NL 2 2";
  }

  /** A block of an opener and one jump line, optionally followed by one plain line. */
  lemma ShiftOpenerAndJump(b: seq<string>, n: nat)
    requires |b| == n && (n == 2 || n == 3)
    requires !IsJump(b[0]) && IsJump(b[1]) && (n == 3 ==> !IsJump(b[2]))
    ensures ShiftBlock(b) == [b[0], b[1][1..]] + (if n == 3 then ["N" + b[2]] else [])
  {
    assert !Carry(b, 1) && Carry(b, 2);
  }

  /** One range reaching the end of the object: the lines before it, then its rewrite. */
  lemma OneRangeToEnd(lines: seq<string>, r: Range)
    requires r.lo <= r.hi == |lines|
    ensures Rewrite(lines, [r]) == lines[..r.lo] + ShiftBlock(lines[r.lo..])
  {
    assert Blocks(lines, [r]) == [] + ShiftBlock(lines[r.lo..r.hi]);
  }

  /** Two ranges, the second reaching the end of the object: the lines before the first, then
      the two rewrites; whatever lies between them is gone. */
  lemma TwoRangesToEnd(lines: seq<string>, r1: Range, r2: Range)
    requires r1.lo <= r1.hi <= |lines| && r2.lo <= r2.hi == |lines|
    ensures Rewrite(lines, [r1, r2])
         == lines[..r1.lo] + ShiftBlock(lines[r1.lo..r1.hi]) + ShiftBlock(lines[r2.lo..r2.hi])
  {
    var rs := [r1, r2];
    assert rs[..1] == [r1] && [r1][..0] == [];
    assert Blocks(lines, [r1]) == [] + ShiftBlock(lines[r1.lo..r1.hi]);
    assert Blocks(lines, rs) == Blocks(lines, [r1]) + ShiftBlock(lines[r2.lo..r2.hi]);
  }

  /** Three line-strings, of which the middle one has no jump line: the middle one lies between
      the two ranges. */
  lemma UnjumpedBlockScan()
    ensures Ranges(["&O X", "&L P", "NL 1", "&L P", "L 2", "&L P", "NL 3", "L 4"])
         == [Range(1, 3), Range(5, 8)]
  {
    var lines := ["&O X", "&L P", "NL 1", "&L P", "L 2", "&L P", "NL 3", "L 4"];
    assert OpensBlock("&L P") by {
      assert !HasSEquals("&L P");
    }
    assert lines[1] == lines[3] == lines[5] == "&L P";
    assert ScanUpTo(lines, 1) == Scan(0, false, []);
    assert ScanUpTo(lines, 2) == Scan(1, false, []);
    assert IsJump(lines[2]) && !IsRecord(lines[2]);
    assert ScanUpTo(lines, 3) == Scan(1, true, []);
    assert ScanUpTo(lines, 4) == Scan(3, false, [Range(1, 3)]);
    assert !IsJump(lines[4]) && !IsRecord(lines[4]);
    assert ScanUpTo(lines, 5) == Scan(3, false, [Range(1, 3)]);
    assert ScanUpTo(lines, 6) == Scan(5, false, [Range(1, 3)]);
    assert IsJump(lines[6]) && !IsRecord(lines[6]);
    assert ScanUpTo(lines, 7) == Scan(5, true, [Range(1, 3)]);
    assert !IsJump(lines[7]) && !IsRecord(lines[7]);
    assert ScanUpTo(lines, 8) == Scan(5, true, [Range(1, 3)]);
  }

  /** The rewrite of the two ranges of that object. */
  lemma UnjumpedBlockRewrite()
    ensures Rewrite(["&O X", "&L P", "NL 1", "&L P", "L 2", "&L P", "NL 3", "L 4"], [Range(1, 3), Range(5, 8)])
         == ["&O X", "&L P", "L 1", "&L P", "L 3", "NL 4"]
  {
    var lines := ["&O X", "&L P", "NL 1", "&L P", "L 2", "&L P", "NL 3", "L 4"];
    TwoRangesToEnd(lines, Range(1, 3), Range(5, 8));
    var b1 := lines[1..3];
    var b2 := lines[5..8];
    assert ShiftBlock(b1) == ["&L P", "L 1"] by {
      assert b1 == ["&L P", "NL 1"];
      ShiftOpenerAndJump(b1, 2);
      assert "NL 1"[1..] == "L 1";
    }
    assert ShiftBlock(b2) == ["&L P", "L 3", "NL 4"] by {
      assert b2 == ["&L P", "NL 3", "L 4"];
      ShiftOpenerAndJump(b2, 3);
      assert "NL 3"[1..] == "L 3" && "N" + "L 4" == "NL 4";
    }
    assert lines[..1] == ["&O X"];
  }

  /** The lines between non-adjacent ranges are not copied: the middle line-string is missing
      from the rewrite. */
  lemma UnjumpedBlockIsDropped()
    ensures ShiftJumps(["&O X", "&L P", "NL 1", "&L P", "L 2", "&L P", "NL 3", "L 4"])
         == ["&O X", "&L P", "L 1", "&L P", "L 3", "NL 4"]
  {
    UnjumpedBlockScan();
    UnjumpedBlockRewrite();
  }

  /** `skok` is set by a jump line outside every block and survives the opening of the next
      block, which therefore becomes a range although it holds no jump line; its rewrite keeps
      every line. */
  lemma JumpBeforeBlockCounts()
    ensures Ranges(["&O X", "NL 1", "&L P", "L 2"]) == [Range(2, 4)]
  {
    var lines := ["&O X", "NL 1", "&L P", "L 2"];
    assert OpensBlock(lines[2]) by {
      assert !HasSEquals(lines[2]);
    }
    assert ScanUpTo(lines, 1) == Scan(0, false, []);
    assert IsJump(lines[1]) && !IsRecord(lines[1]);
    assert ScanUpTo(lines, 2) == Scan(0, true, []);
    assert ScanUpTo(lines, 3) == Scan(2, true, []);
    assert !IsJump(lines[3]) && !IsRecord(lines[3]);
    assert ScanUpTo(lines, 4) == Scan(2, true, []);
  }

  lemma JumpBeforeBlockKeepsLines()
    ensures ShiftJumps(["&O X", "NL 1", "&L P", "L 2"]) == ["&O X", "NL 1", "&L P", "L 2"]
  {
    var lines := ["&O X", "NL 1", "&L P", "L 2"];
    JumpBeforeBlockCounts();
    OneRangeToEnd(lines, Range(2, 4));
    assert !IsJump(lines[2]) && !IsJump(lines[3]);
    ShiftBlockWithoutJumps(lines[2..]);
    assert lines[..2] + lines[2..] == lines;
  }
}
