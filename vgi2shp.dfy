/**
 * The decisions of `process_files` in katastertools/kt_vgi2shp.py:76-251: the header loop that
 * fills `atributy`, the `TYP` and `KU` checks, the `AKTUAL` conversion, the choice of layers, the
 * choice between a normal and a jump-shifted build, the point/line classification of unknown
 * layers and the counter of saved objects.
 *
 * The geometry builders of `katastertools.VgiShp.data` are not part of this model; they are the
 * value `Builder`: `accepts` says whether `pridaj_riadok` takes a row (or raises
 * `NepodporovanaVeta`) given the rows taken before, and `data` is what `data()` returns. Writing
 * the output (`Zapisovac.uloz`) is recorded as the list of saved build results. `sys.exit(2)` is
 * the outcome `Exit2`; an exception that escapes is `Crash`.
 */
module Vgi2Shp {
  import opened Results
  import opened PyStr
  import opened VgiReader
  import opened VgiObjects
  import JumpShift

  // ---------------------------------------------------------------------------------------------
  // objekt_vrstvy and objects_selection

  /** The builder classes `objekt_vrstvy` dispatches to. */
  datatype LayerClass = KLADPAR | ZAPPAR | KATUZ | LINIE | POPIS | ZNACKY | ZUOB | UOV | BPEJ

  function ClassName(c: LayerClass): string
  {
    match c
    case KLADPAR => "KLADPAR"
    case ZAPPAR => "ZAPPAR"
    case KATUZ => "KATUZ"
    case LINIE => "LINIE"
    case POPIS => "POPIS"
    case ZNACKY => "ZNACKY"
    case ZUOB => "ZUOB"
    case UOV => "UOV"
    case BPEJ => "BPEJ"
  }

  /** `objekt_vrstvy(meno_vrstvy, atributy)`: the class whose name is the layer name; `None` is
      the `KeyError` raised for any other name. */
  function ObjektVrstvy(meno: string): (r: Option<LayerClass>)
    ensures r.Some? ==> ClassName(r.value) == meno
    ensures r.None? ==> forall c: LayerClass :: ClassName(c) != meno
  {
    if meno == "KLADPAR" then Some(KLADPAR)
    else if meno == "ZAPPAR" then Some(ZAPPAR)
    else if meno == "KATUZ" then Some(KATUZ)
    else if meno == "LINIE" then Some(LINIE)
    else if meno == "POPIS" then Some(POPIS)
    else if meno == "ZNACKY" then Some(ZNACKY)
    else if meno == "ZUOB" then Some(ZUOB)
    else if meno == "UOV" then Some(UOV)
    else if meno == "BPEJ" then Some(BPEJ)
    else None
  }

  /** Every class is reached by its own name. */
  lemma ObjektVrstvyRoundTrip(c: LayerClass)
    ensures ObjektVrstvy(ClassName(c)) == Some(c)
  {
  }

  /** `objects_selection.get(TYP, ())`: the layers read for each file type, none for any other
      type or when `TYP` is unset. */
  function Selection(typ: Option<string>): seq<string>
  {
    if typ == Some("KN") then ["KATUZ", "KLADPAR", "LINIE", "POPIS", "ZAPPAR", "ZUOB", "ZNACKY"]
    else if typ == Some("UO") then ["KATUZ", "ZAPPAR", "UOV", "ZUOB"]
    else if typ == Some("BJ") then ["KATUZ", "BPEJ"]
    else []
  }

  /** `TYP in objects_selection`. */
  predicate KnownType(typ: string)
  {
    typ == "KN" || typ == "UO" || typ == "BJ"
  }

  /** `podporovane_objekty`: the selections of all types, one after the other. */
  function Supported(): seq<string>
  {
    Selection(Some("KN")) + Selection(Some("UO")) + Selection(Some("BJ"))
  }

  /** Every selected layer has a builder class, so the known-layer path never raises
      `KeyError`; it is one of the supported layers; and no layer is selected for a type outside
      `objects_selection`. */
  lemma SelectedLayersHaveClass(typ: Option<string>)
    ensures forall n :: n in Selection(typ) ==> ObjektVrstvy(n).Some? && n in Supported()
    ensures (typ.None? || !KnownType(typ.value)) ==> Selection(typ) == []
  {
  }

  // ---------------------------------------------------------------------------------------------
  // atributy

  /** A value of `atributy`: text, or the 7-tuple `AKTUAL` becomes. */
  datatype Value = Text(text: string) | Stamp(fields: seq<int>)

  type Attributes = map<string, Value>

  /** `atributy.get(key)` when it holds text. */
  function TextOf(attrs: Attributes, key: string): Option<string>
  {
    if key in attrs && attrs[key].Text? then Some(attrs[key].text) else None
  }

  /** What is logged about a header. */
  datatype HeaderNote = UnknownType(typ: string) | InvalidKu(ku: string)

  /** One header row: its effect on `atributy` and the log, or the row is no header row, or it
      raises (`IndexError`), or the program exits. */
  datatype RowOutcome =
    | Consumed(attrs: Attributes, notes: seq<HeaderNote>)
    | NotHeader
    | RowCrash
    | RowExit2

  /** `row[a:b]` with Python's clamping of the bounds. */
  function Slice(s: string, a: nat, b: nat): string
  {
    Take(Drop(s, a), if b < a then 0 else b - a)
  }

  /** `int(KU)` succeeds and lies in [800000, 999999]. */
  predicate KuValid(ku: string)
  {
    var v := ParseInt(ku);
    v.Some? && 800000 <= v.value <= 999999
  }

  function VRecord(attrs: Attributes, parts: seq<string>): Attributes
    requires |parts| >= 6
  {
    attrs["NAZOV" := Text(parts[1])]["TYP" := Text(Upper(Take(parts[1], 2)))]
         ["KU" := Text(Slice(parts[1], 2, 9))]["redukciaY" := Text(parts[4])]["redukciaX" := Text(parts[5])]
  }

  /** The body of the header loop for one row (katastertools/kt_vgi2shp.py:121-150). */
  function HeaderRow(row: string, attrs: Attributes, processUnknown: bool): RowOutcome
  {
    if !(HasCode(row, "&V") || HasCode(row, "&R") || HasCode(row, "&B")) then NotHeader
    else if HasCode(row, "&B") then
      var atrib := SplitOn(Drop(row, 3), '=');
      if |atrib| < 2 then RowCrash else Consumed(attrs[atrib[0] := Text(atrib[1])], [])
    else if HasCode(row, "&V") then
      var parts := SplitOn(row, ' ');
      if |parts| < 6 then RowCrash
      else
        var typ := Upper(Take(parts[1], 2));
        var ku := Slice(parts[1], 2, 9);
        if !KnownType(typ) && !processUnknown then RowExit2
        else
          Consumed(VRecord(attrs, parts),
                   (if KnownType(typ) then [] else [UnknownType(typ)])
                   + (if KuValid(ku) then [] else [InvalidKu(ku)]))
    else Consumed(attrs, [])
  }

  /** `&B KEY=VAL` stores `VAL` under `KEY`, for a key and a value without `=`. */
  lemma BRowStores(c: char, key: string, val: string, attrs: Attributes, processUnknown: bool)
    requires '=' !in key && '=' !in val
    ensures HeaderRow("&B" + [c] + key + "=" + val, attrs, processUnknown)
         == Consumed(attrs[key := Text(val)], [])
  {
    var row := "&B" + [c] + key + "=" + val;
    assert Drop(row, 3) == Join("=", [key, val]);
    JoinSplitOn([key, val], '=');
  }

  /** An `&V` row with the tokens `nazov`, `a`, `b`, `y` and `x`: the program exits on an
      unknown type unless unknown layers are processed; otherwise `NAZOV`, `TYP` (the first two
      characters upper-cased), `KU` (the next seven) and the reductions are stored. An unknown
      type and an invalid `KU` are only logged. */
  lemma VRowFields(nazov: string, a: string, b: string, y: string, x: string, attrs: Attributes, processUnknown: bool)
    requires ' ' !in nazov && ' ' !in a && ' ' !in b && ' ' !in y && ' ' !in x
    ensures var typ := Upper(Take(nazov, 2));
      var r := HeaderRow(Join(" ", ["&V", nazov, a, b, y, x]), attrs, processUnknown);
      && (!KnownType(typ) && !processUnknown ==> r == RowExit2)
      && (KnownType(typ) || processUnknown ==>
            (&& r.Consumed?
             && r.attrs == attrs["NAZOV" := Text(nazov)]["TYP" := Text(typ)]
                               ["KU" := Text(Slice(nazov, 2, 9))]["redukciaY" := Text(y)]["redukciaX" := Text(x)]
             && (UnknownType(typ) in r.notes <==> !KnownType(typ))
             && (InvalidKu(Slice(nazov, 2, 9)) in r.notes <==> !KuValid(Slice(nazov, 2, 9)))))
  {
    var parts := ["&V", nazov, a, b, y, x];
    JoinSplitOn(parts, ' ');
    assert Join(" ", parts)[0] == '&' && Join(" ", parts)[1] == 'V';
  }

  /** How the header loop ends. */
  datatype HeaderEnd =
    | HeaderDone          // a row that is no header row was pushed back with `spat(1)`
    | HeaderAtEndRecord   // the reader raised `IndexError` at `&K`: the loop ends
    | HeaderMissingEnd    // `ChybaKoncovaVeta`, caught at the end of `process_files`: exit 2
    | HeaderExit2         // unknown `TYP`
    | HeaderCrash         // `IndexError` in a row, or a reader fault

  datatype Header = Header(end: HeaderEnd, attrs: Attributes, notes: seq<HeaderNote>, reader: ReaderState)

  /** The header loop `for row in vstup` from the reader state `s`. */
  function HeaderFrom(s: ReaderState, attrs: Attributes, notes: seq<HeaderNote>, processUnknown: bool): Header
    decreases Measure(s)
  {
    var r := NextStep(s);
    NextStepProgress(s);
    match r.0
    case Line(row) =>
      (match HeaderRow(row, attrs, processUnknown)
       case Consumed(a, n) => HeaderFrom(r.1, a, notes + n, processUnknown)
       case NotHeader =>
         var back := Rewind(r.1, 1);
         Header(if back.0 == None then HeaderDone else HeaderCrash, attrs, notes, back.1)
       case RowCrash => Header(HeaderCrash, attrs, notes, r.1)
       case RowExit2 => Header(HeaderExit2, attrs, notes, r.1))
    case EndRecord => Header(HeaderAtEndRecord, attrs, notes, r.1)
    case MissingEndRecord => Header(HeaderMissingEnd, attrs, notes, r.1)
    case HandleClosed => Header(HeaderCrash, attrs, notes, r.1)
  }

  /** `typ in ('&V', '&R', '&B')`. */
  predicate IsHeaderRow(row: string)
  {
    HasCode(row, "&V") || HasCode(row, "&R") || HasCode(row, "&B")
  }

  /** The number of header rows at the start of `ls`. */
  function LeadingHeaderRows(ls: seq<string>): (k: nat)
    ensures k <= |ls|
  {
    if ls != [] && IsHeaderRow(ls[0]) then 1 + LeadingHeaderRows(ls[1..]) else 0
  }

  /** What `HeaderConsumesHeaderRows` states about the header `h` read from a reader that yields
      `ls` and had recorded `before` lengths. */
  predicate ConsumesHeaderRows(h: Header, ls: seq<string>, before: nat)
  {
    h.end == HeaderDone ==>
      && LeadingHeaderRows(ls) < |ls|
      && !IsHeaderRow(ls[LeadingHeaderRows(ls)])
      && |h.reader.lengths| == before + LeadingHeaderRows(ls) + 1
  }

  lemma ConsumesOneMore(h: Header, rest: seq<string>, row: string, before: nat)
    requires IsHeaderRow(row) && ConsumesHeaderRows(h, rest, before + 1)
    ensures ConsumesHeaderRows(h, [row] + rest, before)
  {
    assert ([row] + rest)[1..] == rest;
  }

  /** The header loop takes in exactly the header rows at the start of the input: when it ends
      by pushing a row back, that row is the first one that is no header row, and one length
      per row up to and including it has been recorded. */
  lemma {:induction false} HeaderConsumesHeaderRows(s: ReaderState, attrs: Attributes, notes: seq<HeaderNote>, processUnknown: bool)
    ensures ConsumesHeaderRows(HeaderFrom(s, attrs, notes, processUnknown), Stream(s), |s.lengths|)
    decreases Measure(s)
  {
    var r := NextStep(s);
    NextStepProgress(s);
    NextStepAccounting(s);
    if r.0.Line? {
      StreamStep(s);
      var row := r.0.line;
      var out := HeaderRow(row, attrs, processUnknown);
      if out.Consumed? {
        HeaderConsumesHeaderRows(r.1, out.attrs, notes + out.notes, processUnknown);
        assert HeaderFrom(s, attrs, notes, processUnknown) == HeaderFrom(r.1, out.attrs, notes + out.notes, processUnknown);
        ConsumesOneMore(HeaderFrom(s, attrs, notes, processUnknown), Stream(r.1), row, |s.lengths|);
      } else if out.NotHeader? {
        assert LeadingHeaderRows(Stream(s)) == 0;
      }
    }
  }

  /** The header loop over a `Citac`, updating `atributy` in place. */
  method ReadHeader(vstup: Citac, atributy: Attributes, processUnknown: bool) returns (h: Header)
    modifies vstup
    ensures h == HeaderFrom(old(vstup.State()), atributy, [], processUnknown)
    ensures vstup.State() == h.reader
  {
    ghost var goal := HeaderFrom(vstup.State(), atributy, [], processUnknown);
    var attrs := atributy;
    var notes: seq<HeaderNote> := [];
    while true
      invariant HeaderFrom(vstup.State(), attrs, notes, processUnknown) == goal
      decreases Measure(vstup.State())
    {
      ghost var s := vstup.State();
      NextStepProgress(s);
      var step := vstup.Next();
      match step {
        case Line(row) =>
          var out := HeaderRow(row, attrs, processUnknown);
          match out {
            case Consumed(a, n) =>
              attrs := a;
              notes := notes + n;
            case NotHeader =>
              var fault := vstup.Spat(1);
              return Header(if fault == None then HeaderDone else HeaderCrash, attrs, notes, vstup.State());
            case RowCrash =>
              return Header(HeaderCrash, attrs, notes, vstup.State());
            case RowExit2 =>
              return Header(HeaderExit2, attrs, notes, vstup.State());
          }
        case EndRecord =>
          return Header(HeaderAtEndRecord, attrs, notes, vstup.State());
        case MissingEndRecord =>
          return Header(HeaderMissingEnd, attrs, notes, vstup.State());
        case HandleClosed =>
          return Header(HeaderCrash, attrs, notes, vstup.State());
      }
    }
  }

  // ---------------------------------------------------------------------------------------------
  // AKTUAL

  /** What `strptime(value, "%d.%m.%Y %H:%M:%S")` yields. */
  datatype DateTime = DateTime(year: int, month: int, day: int, hour: int, minute: int, second: int)

  /** `atributy['AKTUAL']` after the conversion: the parsed date and time with the zone code 104,
      or `(1970, 1, 1, 0, 0, 0, 0)` when the value is missing or does not parse. `parse` stands
      for `strptime` with the fixed format. */
  function Aktual(attrs: Attributes, parse: string -> Option<DateTime>): (v: Value)
    ensures v.Stamp? && |v.fields| == 7
    ensures v.fields[6] == 104 <==> TextOf(attrs, "AKTUAL").Some? && parse(TextOf(attrs, "AKTUAL").value).Some?
    ensures v.fields[6] != 104 ==> v.fields == [1970, 1, 1, 0, 0, 0, 0]
  {
    var t := TextOf(attrs, "AKTUAL");
    if t.Some? && parse(t.value).Some? then
      var d := parse(t.value).value;
      Stamp([d.year, d.month, d.day, d.hour, d.minute, d.second, 104])
    else Stamp([1970, 1, 1, 0, 0, 0, 0])
  }

  // ---------------------------------------------------------------------------------------------
  // Builders

  /** The builder a row list is fed to: a known layer's class, or `INE_LINIE` / `INE_BODY` for a
      layer outside the selections. */
  datatype BuildKind = Layer(cls: LayerClass) | OtherLines(name: string) | OtherPoints(name: string)

  /** What `data()` returns: the messages, `pocet_uzatvoreni`, and whether `geometricke_objekty`
      is non-empty. */
  datatype BuildData = BuildData(messages: seq<string>, closures: int, hasGeometry: bool)

  /** The `data` module as seen by the converter. */
  datatype Builder = Builder(
    accepts: (BuildKind, Attributes, seq<string>, string) -> bool,
    data: (BuildKind, Attributes, seq<string>) -> BuildData)

  /** Feeding rows one by one and logging the ones that raise `NepodporovanaVeta`: the rows
      taken, after the rows `acc` taken before. */
  function Tolerant(b: Builder, k: BuildKind, attrs: Attributes, acc: seq<string>, rows: seq<string>): (fed: seq<string>)
    ensures |acc| <= |fed| <= |acc| + |rows| && fed[..|acc|] == acc
    ensures forall i :: |acc| <= i < |fed| ==> fed[i] in rows
    decreases |rows|
  {
    if rows == [] then acc
    else
      var acc' := if b.accepts(k, attrs, acc, rows[0]) then acc + [rows[0]] else acc;
      var fed := Tolerant(b, k, attrs, acc', rows[1..]);
      assert fed[..|acc|] == fed[..|acc'|][..|acc|];
      fed
  }

  /** Feeding rows one by one without a `try`: `None` when a row raises. */
  function Strict(b: Builder, k: BuildKind, attrs: Attributes, acc: seq<string>, rows: seq<string>): Option<seq<string>>
    decreases |rows|
  {
    if rows == [] then Some(acc)
    else if b.accepts(k, attrs, acc, rows[0]) then Strict(b, k, attrs, acc + [rows[0]], rows[1..])
    else None
  }

  /** A strict feed that succeeds takes every row. */
  lemma {:induction false} StrictTakesAll(b: Builder, k: BuildKind, attrs: Attributes, acc: seq<string>, rows: seq<string>)
    ensures Strict(b, k, attrs, acc, rows).Some? ==> Strict(b, k, attrs, acc, rows) == Some(acc + rows)
    decreases |rows|
  {
    if rows == [] {
      assert acc + rows == acc;
    } else if b.accepts(k, attrs, acc, rows[0]) {
      StrictTakesAll(b, k, attrs, acc + [rows[0]], rows[1..]);
      assert acc + [rows[0]] + rows[1..] == acc + rows;
    }
  }

  /** A strict feed fails exactly when the tolerant feed leaves a row out. */
  lemma {:induction false} StrictAgreesWithTolerant(b: Builder, k: BuildKind, attrs: Attributes, acc: seq<string>, rows: seq<string>)
    ensures Strict(b, k, attrs, acc, rows).Some? <==> Tolerant(b, k, attrs, acc, rows) == acc + rows
    decreases |rows|
  {
    if rows == [] {
      assert acc + rows == acc;
    } else if b.accepts(k, attrs, acc, rows[0]) {
      StrictAgreesWithTolerant(b, k, attrs, acc + [rows[0]], rows[1..]);
      assert acc + [rows[0]] + rows[1..] == acc + rows;
    } else {
      var fed := Tolerant(b, k, attrs, acc, rows[1..]);
      assert |fed| < |acc + rows|;
    }
  }

  /** The row loop with `try`/`except NepodporovanaVeta`. */
  method FeedTolerantly(b: Builder, k: BuildKind, attrs: Attributes, rows: seq<string>) returns (fed: seq<string>)
    ensures fed == Tolerant(b, k, attrs, [], rows)
  {
    fed := [];
    var i := 0;
    while i < |rows|
      invariant i <= |rows|
      invariant Tolerant(b, k, attrs, fed, rows[i..]) == Tolerant(b, k, attrs, [], rows)
    {
      assert rows[i..][1..] == rows[i + 1..];
      if b.accepts(k, attrs, fed, rows[i]) {
        fed := fed + [rows[i]];
      }
      i := i + 1;
    }
  }

  /** The row loop over the shifted rows, without a `try`. */
  method FeedStrictly(b: Builder, k: BuildKind, attrs: Attributes, rows: seq<string>) returns (fed: Option<seq<string>>)
    ensures fed == Strict(b, k, attrs, [], rows)
  {
    var acc := [];
    var i := 0;
    while i < |rows|
      invariant i <= |rows|
      invariant Strict(b, k, attrs, acc, rows[i..]) == Strict(b, k, attrs, [], rows)
    {
      assert rows[i..][1..] == rows[i + 1..];
      if !b.accepts(k, attrs, acc, rows[i]) {
        return None;
      }
      acc := acc + [rows[i]];
      i := i + 1;
    }
    return Some(acc);
  }

  /** The closure-count choice: the shifted build replaces the normal one only when its count
      is strictly lower. */
  function Choose(normal: BuildData, shifted: BuildData): (d: BuildData)
    ensures d.closures <= normal.closures && d.closures <= shifted.closures
    ensures d == normal || d == shifted
    ensures shifted.closures == normal.closures ==> d == normal
  {
    if shifted.closures < normal.closures then shifted else normal
  }

  /** The known-layer build (katastertools/kt_vgi2shp.py:178-195): the rows fed tolerantly and,
      when that build has closures, a strict build of the jump-shifted rows, kept only if it has
      fewer. `None` is the `NepodporovanaVeta` the shifted build lets escape. */
  function KnownBuild(b: Builder, cls: LayerClass, attrs: Attributes, rows: seq<string>): (r: Option<BuildData>)
    ensures r.Some? ==> r.value.closures <= b.data(Layer(cls), attrs, Tolerant(b, Layer(cls), attrs, [], rows)).closures
  {
    var normal := b.data(Layer(cls), attrs, Tolerant(b, Layer(cls), attrs, [], rows));
    if normal.closures > 0 then
      match Strict(b, Layer(cls), attrs, [], JumpShift.ShiftJumps(rows))
      case None => None
      case Some(fed) => Some(Choose(normal, b.data(Layer(cls), attrs, fed)))
    else Some(normal)
  }

  /** A build without closures is kept as it is; the shifted rows are not even looked at. */
  lemma NoClosuresNoShift(b: Builder, cls: LayerClass, attrs: Attributes, rows: seq<string>)
    requires b.data(Layer(cls), attrs, Tolerant(b, Layer(cls), attrs, [], rows)).closures <= 0
    ensures KnownBuild(b, cls, attrs, rows) == Some(b.data(Layer(cls), attrs, Tolerant(b, Layer(cls), attrs, [], rows)))
  {
  }

  /** The generic build (katastertools/kt_vgi2shp.py:199-221): lines for a layer already
      classified as lines; otherwise points, restarted as lines over all rows at the first row
      the point builder refuses. The flag says whether lines were built. */
  function GenericFeed(b: Builder, name: string, attrs: Attributes, rows: seq<string>, lineLayers: set<string>): (seq<string>, bool)
  {
    if name in lineLayers then (Tolerant(b, OtherLines(name), attrs, [], rows), true)
    else
      match Strict(b, OtherPoints(name), attrs, [], rows)
      case Some(fed) => (fed, false)
      case None => (Tolerant(b, OtherLines(name), attrs, [], rows), true)
  }

  /** A layer classified as lines stays lines; a point build keeps every row; lines are built
      for a layer not yet classified as lines only when the point builder refuses a row. */
  lemma GenericFeedClassifies(b: Builder, name: string, attrs: Attributes, rows: seq<string>, lineLayers: set<string>)
    ensures name in lineLayers ==> GenericFeed(b, name, attrs, rows, lineLayers).1
    ensures !GenericFeed(b, name, attrs, rows, lineLayers).1 ==> GenericFeed(b, name, attrs, rows, lineLayers).0 == rows
    ensures name !in lineLayers ==>
      (GenericFeed(b, name, attrs, rows, lineLayers).1 <==> Tolerant(b, OtherPoints(name), attrs, [], rows) != rows)
  {
    StrictTakesAll(b, OtherPoints(name), attrs, [], rows);
    StrictAgreesWithTolerant(b, OtherPoints(name), attrs, [], rows);
    assert [] + rows == rows;
  }

  /** The generic row loop, with the restart as lines and its `break`. */
  method FeedGeneric(b: Builder, name: string, attrs: Attributes, rows: seq<string>, lineLayers: set<string>)
    returns (fed: seq<string>, asLines: bool)
    ensures (fed, asLines) == GenericFeed(b, name, attrs, rows, lineLayers)
  {
    if name in lineLayers {
      fed := FeedTolerantly(b, OtherLines(name), attrs, rows);
      return fed, true;
    }
    fed := [];
    var i := 0;
    while i < |rows|
      invariant i <= |rows|
      invariant Strict(b, OtherPoints(name), attrs, fed, rows[i..]) == Strict(b, OtherPoints(name), attrs, [], rows)
    {
      assert rows[i..][1..] == rows[i + 1..];
      if !b.accepts(OtherPoints(name), attrs, fed, rows[i]) {
        fed := FeedTolerantly(b, OtherLines(name), attrs, rows);
        return fed, true;
      }
      fed := fed + [rows[i]];
      i := i + 1;
    }
    return fed, false;
  }

  // ---------------------------------------------------------------------------------------------
  // One object

  /** Which branch of the object loop an object takes. */
  datatype Route = KnownPath(cls: LayerClass) | GenericPath | SkipObject

  /** katastertools/kt_vgi2shp.py:176, 197 and 223: the known-layer path for a requested layer
      selected for the file type, the generic path for a layer outside all selections when
      unknown layers are processed, and otherwise the object is skipped. */
  function RouteFor(layer: string, layerNames: set<string>, typ: Option<string>, processUnknown: bool): (r: Route)
    ensures r.KnownPath? ==> ClassName(r.cls) == layer && layer in Supported() && layer in layerNames
    ensures r.GenericPath? ==> processUnknown && layer !in Supported()
  {
    if layer in layerNames && layer in Selection(typ) then
      SelectedLayersHaveClass(typ);
      KnownPath(ObjektVrstvy(layer).value)
    else if processUnknown && layer !in Supported() then GenericPath
    else SkipObject
  }

  /** With a type outside `objects_selection` (or none), the known layers are always skipped. */
  lemma UnknownTypeSkipsKnownLayers(layer: string, layerNames: set<string>, typ: Option<string>, processUnknown: bool)
    requires typ.None? || !KnownType(typ.value)
    requires layer in Supported()
    ensures RouteFor(layer, layerNames, typ, processUnknown) == SkipObject
  {
    SelectedLayersHaveClass(typ);
  }

  /** Without `process_unknown_layers` only the known-layer path is ever taken. */
  lemma NoGenericWithoutFlag(layer: string, layerNames: set<string>, typ: Option<string>)
    ensures !RouteFor(layer, layerNames, typ, false).GenericPath?
  {
  }

  /** `while not riadky[0].startswith('&'): riadky.pop(0)`: the rows from the first record line
      on; `None` is the `IndexError` when there is none. */
  function Trim(rows: seq<string>): (r: Option<seq<string>>)
    ensures r.Some? ==> r.value != [] && StartsWith(r.value[0], "&")
    ensures r.Some? ==> |r.value| <= |rows| && r.value == rows[|rows| - |r.value|..]
    ensures r.Some? ==> forall i :: 0 <= i < |rows| - |r.value| ==> !StartsWith(rows[i], "&")
    ensures r.None? ==> forall i :: 0 <= i < |rows| ==> !StartsWith(rows[i], "&")
  {
    if rows == [] then None
    else if StartsWith(rows[0], "&") then Some(rows)
    else
      var r := Trim(rows[1..]);
      assert forall i :: 1 <= i < |rows| ==> rows[i] == rows[1..][i - 1];
      r
  }

  /** The converter's settings: the builders, `layers.values()`, `atributy` after the header,
      and `process_unknown_layers`. */
  datatype Config = Config(builder: Builder, layerNames: set<string>, attrs: Attributes, processUnknown: bool)

  /** `bodove_objekty` and `liniove_objekty`. */
  datatype Sets = Sets(points: set<string>, lines: set<string>)

  /** What happens to one object. */
  datatype ObjectOutcome =
    | Skipped            // `continue`
    | Built(data: BuildData)
    | Conflict           // a layer is both a point and a line layer: exit 2
    | ObjectCrash        // an exception escapes

  /** The conflict check after a build. */
  function Finish(d: BuildData, sets: Sets): (ObjectOutcome, Sets)
  {
    if sets.points * sets.lines != {} then (Conflict, sets) else (Built(d), sets)
  }

  /** The body of the object loop for the layer `layer` and the rows `rows`
      (katastertools/kt_vgi2shp.py:171-240). */
  function DecideObject(cfg: Config, sets: Sets, layer: string, rows: seq<string>): (ObjectOutcome, Sets)
  {
    match Trim(rows)
    case None => (ObjectCrash, sets)
    case Some(t) => DecideTrimmed(cfg, sets, layer, t)
  }

  /** After the leading rows are dropped: `objekt_id` needs a third token, then the route. */
  function DecideTrimmed(cfg: Config, sets: Sets, layer: string, t: seq<string>): (ObjectOutcome, Sets)
    requires t != []
  {
    if |SplitOn(t[0], ' ')| < 3 then (ObjectCrash, sets)
    else
      match RouteFor(layer, cfg.layerNames, TextOf(cfg.attrs, "TYP"), cfg.processUnknown)
      case SkipObject => (Skipped, sets)
      case KnownPath(cls) => KnownOutcome(cfg, sets, cls, t)
      case GenericPath => GenericOutcome(cfg, sets, layer, t)
  }

  function KnownOutcome(cfg: Config, sets: Sets, cls: LayerClass, t: seq<string>): (ObjectOutcome, Sets)
  {
    match KnownBuild(cfg.builder, cls, cfg.attrs, t)
    case None => (ObjectCrash, sets)
    case Some(d) => Finish(d, sets)
  }

  /** The generic path: the layer joins `liniove_objekty` or `bodove_objekty` after its build. */
  function GenericOutcome(cfg: Config, sets: Sets, layer: string, t: seq<string>): (ObjectOutcome, Sets)
  {
    var g := GenericFeed(cfg.builder, layer, cfg.attrs, t, sets.lines);
    var kind := if g.1 then OtherLines(layer) else OtherPoints(layer);
    var sets' := if g.1 then sets.(lines := sets.lines + {layer}) else sets.(points := sets.points + {layer});
    Finish(cfg.builder.data(kind, cfg.attrs, g.0), sets')
  }

  /** The known-layer path leaves the sets as they were. */
  lemma KnownOutcomeSets(cfg: Config, sets: Sets, cls: LayerClass, t: seq<string>)
    ensures var r := KnownOutcome(cfg, sets, cls, t);
      r.1 == sets && (r.0.Built? ==> sets.points * sets.lines == {})
  {
  }

  /** The generic path adds the layer to exactly one of the sets, and builds only when they
      stay disjoint. */
  lemma GenericOutcomeSets(cfg: Config, sets: Sets, layer: string, t: seq<string>)
    ensures var r := GenericOutcome(cfg, sets, layer, t);
      && r.1.points + r.1.lines == sets.points + sets.lines + {layer}
      && sets.points <= r.1.points && sets.lines <= r.1.lines
      && (r.0.Built? ==> r.1.points * r.1.lines == {})
  {
  }

  /** Only layers outside all selections are ever classified; a built object leaves the two
      sets disjoint; and a skipped or failed object leaves them as they were. */
  lemma DecideObjectSets(cfg: Config, sets: Sets, layer: string, rows: seq<string>)
    requires Classified(sets)
    ensures var r := DecideObject(cfg, sets, layer, rows);
      && Classified(r.1)
      && (r.0.Built? ==> r.1.points * r.1.lines == {})
      && (r.0.Skipped? || r.0.ObjectCrash? ==> r.1 == sets)
      && sets.points <= r.1.points && sets.lines <= r.1.lines
  {
    var t := Trim(rows);
    if t.Some? && |SplitOn(t.value[0], ' ')| >= 3 {
      var route := RouteFor(layer, cfg.layerNames, TextOf(cfg.attrs, "TYP"), cfg.processUnknown);
      if route.KnownPath? {
        KnownOutcomeSets(cfg, sets, route.cls, t.value);
      } else if route.GenericPath? {
        GenericOutcomeSets(cfg, sets, layer, t.value);
      }
    }
  }

  /** A point layer that later needs lines makes the program exit. */
  lemma PointLayerTurnedLinesExits(cfg: Config, sets: Sets, layer: string, t: seq<string>)
    requires layer in sets.points && layer !in sets.lines
    requires GenericFeed(cfg.builder, layer, cfg.attrs, t, sets.lines).1
    ensures GenericOutcome(cfg, sets, layer, t).0 == Conflict
  {
    var sets' := sets.(lines := sets.lines + {layer});
    assert layer in sets'.points * sets'.lines;
  }

  /** The loop body over the segmenter: the pops act on the segmenter's own list, which the
      shifted build then reads. */
  method HandleObject(co: CitacObjektov, cfg: Config, sets: Sets) returns (outcome: ObjectOutcome, sets': Sets)
    modifies co
    ensures (outcome, sets') == DecideObject(cfg, sets, old(co.menoVrstvy), old(co.objekt))
  {
    ghost var rows := co.objekt;
    while true
      invariant Trim(co.objekt) == Trim(rows) && co.menoVrstvy == old(co.menoVrstvy)
      decreases |co.objekt|
    {
      if co.objekt == [] {
        return ObjectCrash, sets;
      }
      if StartsWith(co.objekt[0], "&") {
        break;
      }
      co.PopFirstLine();
    }
    outcome, sets' := HandleTrimmed(co, cfg, sets);
  }

  /** The object after the pops. */
  method HandleTrimmed(co: CitacObjektov, cfg: Config, sets: Sets) returns (outcome: ObjectOutcome, sets': Sets)
    requires co.objekt != []
    ensures (outcome, sets') == DecideTrimmed(cfg, sets, co.menoVrstvy, co.objekt)
  {
    var riadky := co.objekt;
    var objektId := SplitOn(riadky[0], ' ');
    if |objektId| < 3 {
      return ObjectCrash, sets;
    }
    var layer := co.menoVrstvy;
    var route := RouteFor(layer, cfg.layerNames, TextOf(cfg.attrs, "TYP"), cfg.processUnknown);
    match route {
      case SkipObject =>
        return Skipped, sets;
      case KnownPath(cls) =>
        outcome, sets' := BuildKnown(co, cfg, sets, cls);
      case GenericPath =>
        outcome, sets' := BuildGeneric(cfg, sets, layer, riadky);
    }
  }

  /** The known-layer build over the segmenter, whose `posun_skoky` gives the shifted rows. */
  method BuildKnown(co: CitacObjektov, cfg: Config, sets: Sets, cls: LayerClass) returns (outcome: ObjectOutcome, sets': Sets)
    ensures (outcome, sets') == KnownOutcome(cfg, sets, cls, co.objekt)
  {
    var fed := FeedTolerantly(cfg.builder, Layer(cls), cfg.attrs, co.objekt);
    var d := cfg.builder.data(Layer(cls), cfg.attrs, fed);
    if d.closures > 0 {
      var shifted := co.PosunSkoky();
      var alt := FeedStrictly(cfg.builder, Layer(cls), cfg.attrs, shifted);
      if alt.None? {
        return ObjectCrash, sets;
      }
      var d2 := cfg.builder.data(Layer(cls), cfg.attrs, alt.value);
      if d2.closures < d.closures {
        d := d2;
      }
    }
    if sets.points * sets.lines != {} {
      return Conflict, sets;
    }
    return Built(d), sets;
  }

  /** The generic build and the update of the two sets. */
  method BuildGeneric(cfg: Config, sets: Sets, layer: string, riadky: seq<string>) returns (outcome: ObjectOutcome, sets': Sets)
    ensures (outcome, sets') == GenericOutcome(cfg, sets, layer, riadky)
  {
    var fed, asLines := FeedGeneric(cfg.builder, layer, cfg.attrs, riadky, sets.lines);
    var d: BuildData;
    if asLines {
      sets' := sets.(lines := sets.lines + {layer});
      d := cfg.builder.data(OtherLines(layer), cfg.attrs, fed);
    } else {
      sets' := sets.(points := sets.points + {layer});
      d := cfg.builder.data(OtherPoints(layer), cfg.attrs, fed);
    }
    if sets'.points * sets'.lines != {} {
      return Conflict, sets';
    }
    return Built(d), sets';
  }

  // ---------------------------------------------------------------------------------------------
  // The object loop and the whole conversion

  /** How a conversion ends: normally, with exit code 2, with an escaping exception, or after
      `fuel` objects (a bound this model puts on a loop whose termination depends on the
      file). */
  datatype RunEnd = Finished | Exit2 | Crash | OutOfFuel

  datatype Run = Run(end: RunEnd, saved: seq<BuildData>, sets: Sets, reader: ReaderState)

  /** `for idx, raw_objekt in enumerate(raw_objekty)` from the reader state `s`, for at most
      `fuel` objects; `saved` is what `zapisovac.uloz` has received. */
  function RunObjects(s: ReaderState, cfg: Config, sets: Sets, saved: seq<BuildData>, fuel: nat): Run
    decreases fuel, 0
  {
    if fuel == 0 then Run(OutOfFuel, saved, sets, s)
    else AfterFetch(FetchObject(s), cfg, sets, saved, fuel - 1)
  }

  /** The rest of the loop once `__getitem__` has returned `f`. */
  function AfterFetch(f: (Fetch, ReaderState), cfg: Config, sets: Sets, saved: seq<BuildData>, fuel: nat): Run
    decreases fuel, 1
  {
    match f.0
    case Exhausted => Run(Finished, saved, sets, f.1)
    case Crashed => Run(Crash, saved, sets, f.1)
    case Object(layer, rows) =>
      var d := DecideObject(cfg, sets, layer, rows);
      match d.0
      case Skipped => RunObjects(f.1, cfg, d.1, saved, fuel)
      case ObjectCrash => Run(Crash, saved, d.1, f.1)
      case Conflict => Run(Exit2, saved, d.1, f.1)
      case Built(data) =>
        RunObjects(f.1, cfg, d.1, if data.hasGeometry then saved + [data] else saved, fuel)
  }

  /** Only layers outside all selections are classified. */
  predicate Classified(sets: Sets)
  {
    forall n :: n in sets.points + sets.lines ==> n !in Supported()
  }

  /** What the object loop keeps: the objects saved before stay saved, in order, every object
      it saves has geometry, only layers outside all selections are classified, and a loop that
      finishes leaves no layer both a point and a line layer. */
  predicate RunKeeps(r: Run, saved: seq<BuildData>)
  {
    && |saved| <= |r.saved| && r.saved[..|saved|] == saved
    && (forall i :: |saved| <= i < |r.saved| ==> r.saved[i].hasGeometry)
    && Classified(r.sets)
    && (r.end == Finished ==> r.sets.points * r.sets.lines == {})
  }

  lemma RunKeepsAppend(r: Run, saved: seq<BuildData>, saved': seq<BuildData>)
    requires RunKeeps(r, saved') && |saved| <= |saved'| && saved'[..|saved|] == saved
    requires forall i :: |saved| <= i < |saved'| ==> saved'[i].hasGeometry
    ensures RunKeeps(r, saved)
  {
    assert r.saved[..|saved|] == r.saved[..|saved'|][..|saved|];
  }

  /** The object loop keeps `RunKeeps` from any start where the sets are disjoint and hold only
      layers outside all selections. */
  lemma {:induction false} RunObjectsInvariant(s: ReaderState, cfg: Config, sets: Sets, saved: seq<BuildData>, fuel: nat)
    requires Classified(sets) && sets.points * sets.lines == {}
    ensures RunKeeps(RunObjects(s, cfg, sets, saved, fuel), saved)
    decreases fuel, 0
  {
    if fuel > 0 {
      AfterFetchInvariant(FetchObject(s), cfg, sets, saved, fuel - 1);
    }
  }

  lemma {:induction false} AfterFetchInvariant(f: (Fetch, ReaderState), cfg: Config, sets: Sets, saved: seq<BuildData>, fuel: nat)
    requires Classified(sets) && sets.points * sets.lines == {}
    ensures RunKeeps(AfterFetch(f, cfg, sets, saved, fuel), saved)
    decreases fuel, 1
  {
    if f.0.Object? {
      var d := DecideObject(cfg, sets, f.0.layer, f.0.lines);
      DecideObjectSets(cfg, sets, f.0.layer, f.0.lines);
      if d.0.Skipped? {
        RunObjectsInvariant(f.1, cfg, d.1, saved, fuel);
      } else if d.0.Built? {
        var saved' := if d.0.data.hasGeometry then saved + [d.0.data] else saved;
        RunObjectsInvariant(f.1, cfg, d.1, saved', fuel);
        RunKeepsAppend(RunObjects(f.1, cfg, d.1, saved', fuel), saved, saved');
      }
    }
  }

  /** The objects saved by the end of the run `r` begin with `saved`. */
  predicate SavedBefore(r: Run, saved: seq<BuildData>)
  {
    |saved| <= |r.saved| && r.saved[..|saved|] == saved
  }

  /** The object loop never takes back an object it has saved. */
  lemma {:induction false} RunObjectsExtends(s: ReaderState, cfg: Config, sets: Sets, saved: seq<BuildData>, fuel: nat)
    ensures SavedBefore(RunObjects(s, cfg, sets, saved, fuel), saved)
    decreases fuel, 0
  {
    if fuel > 0 {
      AfterFetchExtends(FetchObject(s), cfg, sets, saved, fuel - 1);
    }
  }

  lemma {:induction false} AfterFetchExtends(f: (Fetch, ReaderState), cfg: Config, sets: Sets, saved: seq<BuildData>, fuel: nat)
    ensures SavedBefore(AfterFetch(f, cfg, sets, saved, fuel), saved)
    decreases fuel, 1
  {
    if f.0.Object? {
      var d := DecideObject(cfg, sets, f.0.layer, f.0.lines);
      if d.0.Skipped? {
        RunObjectsExtends(f.1, cfg, d.1, saved, fuel);
      } else if d.0.Built? {
        var saved' := if d.0.data.hasGeometry then saved + [d.0.data] else saved;
        RunObjectsExtends(f.1, cfg, d.1, saved', fuel);
        var r := RunObjects(f.1, cfg, d.1, saved', fuel);
        assert r.saved[..|saved|] == r.saved[..|saved'|][..|saved|];
      }
    }
  }

  /** Once the segmenter has returned an object (`f`), an object built with geometry is saved
      right after the objects saved before, once, and the loop goes on from there. */
  lemma ObjectIsSavedOnceWithGeometry(f: (Fetch, ReaderState), cfg: Config, sets: Sets, saved: seq<BuildData>, fuel: nat)
    requires f.0.Object?
    ensures var d := DecideObject(cfg, sets, f.0.layer, f.0.lines);
      d.0.Built? && d.0.data.hasGeometry ==>
        && AfterFetch(f, cfg, sets, saved, fuel) == RunObjects(f.1, cfg, d.1, saved + [d.0.data], fuel)
        && SavedBefore(AfterFetch(f, cfg, sets, saved, fuel), saved + [d.0.data])
  {
    var d := DecideObject(cfg, sets, f.0.layer, f.0.lines);
    if d.0.Built? && d.0.data.hasGeometry {
      RunObjectsExtends(f.1, cfg, d.1, saved + [d.0.data], fuel);
    }
  }

  /** Once the segmenter has returned an object, an object built without geometry, or
      skipped, saves nothing and the loop goes on; a conflict or a crash ends the loop with
      nothing more saved. */
  lemma ObjectWithoutGeometryIsNotSaved(f: (Fetch, ReaderState), cfg: Config, sets: Sets, saved: seq<BuildData>, fuel: nat)
    requires f.0.Object?
    ensures var d := DecideObject(cfg, sets, f.0.layer, f.0.lines);
      && (d.0.Skipped? || (d.0.Built? && !d.0.data.hasGeometry) ==>
            AfterFetch(f, cfg, sets, saved, fuel) == RunObjects(f.1, cfg, d.1, saved, fuel))
      && (d.0.Conflict? || d.0.ObjectCrash? ==> AfterFetch(f, cfg, sets, saved, fuel).saved == saved)
  {
  }

  /** The object loop over the segmenter, with the counter `poc_objektov`. */
  method ProcessObjects(co: CitacObjektov, cfg: Config, fuel: nat) returns (run: Run, count: nat)
    modifies co, co.citac
    ensures run == RunObjects(old(co.citac.State()), cfg, Sets({}, {}), [], fuel)
    ensures count == |run.saved|
  {
    ghost var goal := RunObjects(co.citac.State(), cfg, Sets({}, {}), [], fuel);
    var saved: seq<BuildData> := [];
    var sets := Sets({}, {});
    count := 0;
    var n := fuel;
    while n > 0
      invariant RunObjects(co.citac.State(), cfg, sets, saved, n) == goal
      invariant count == |saved|
      decreases n
    {
      var f := co.Next();
      match f {
        case Exhausted =>
          return Run(Finished, saved, sets, co.citac.State()), count;
        case Crashed =>
          return Run(Crash, saved, sets, co.citac.State()), count;
        case Object(layer, rows) =>
          var outcome, sets' := HandleObject(co, cfg, sets);
          match outcome {
            case Skipped =>
            case ObjectCrash =>
              return Run(Crash, saved, sets', co.citac.State()), count;
            case Conflict =>
              return Run(Exit2, saved, sets', co.citac.State()), count;
            case Built(data) =>
              if data.hasGeometry {
                saved := saved + [data];
                count := count + 1;
              }
          }
          sets := sets';
      }
      n := n - 1;
    }
    return Run(OutOfFuel, saved, sets, co.citac.State()), count;
  }

  /** The whole of `process_files`: the reader's checks and the output directory's, the header,
      `AKTUAL`, then the object loop. */
  function Convert(path: string, isRegularFile: bool, contents: string, fileName: string, outputIsFile: bool,
                   builder: Builder, layerNames: set<string>, parse: string -> Option<DateTime>,
                   processUnknown: bool, fuel: nat): Run
  {
    if OpenCheck(path, isRegularFile, contents).Some? || outputIsFile then
      Run(Exit2, [], Sets({}, {}), Initial(contents))
    else
      var h := HeaderFrom(Initial(contents), map["SUBOR" := Text(fileName)], [], processUnknown);
      AfterHeader(h, builder, layerNames, parse, processUnknown, fuel)
  }

  /** What follows the header loop: exit 2 on a missing `&K` or an unknown type, a crash on an
      exception, otherwise `AKTUAL` and the object loop. */
  function AfterHeader(h: Header, builder: Builder, layerNames: set<string>, parse: string -> Option<DateTime>,
                       processUnknown: bool, fuel: nat): Run
  {
    match h.end
    case HeaderMissingEnd => Run(Exit2, [], Sets({}, {}), h.reader)
    case HeaderExit2 => Run(Exit2, [], Sets({}, {}), h.reader)
    case HeaderCrash => Run(Crash, [], Sets({}, {}), h.reader)
    case _ =>
      var attrs := h.attrs["AKTUAL" := Aktual(h.attrs, parse)];
      RunObjects(h.reader, Config(builder, layerNames, attrs, processUnknown), Sets({}, {}), [], fuel)
  }

  /** Over a whole conversion, only objects with geometry are saved, and a conversion that
      ends normally leaves no layer classified both as points and as lines. */
  lemma ConvertSavesOnlyGeometry(path: string, isRegularFile: bool, contents: string, fileName: string,
                                 outputIsFile: bool, builder: Builder, layerNames: set<string>,
                                 parse: string -> Option<DateTime>, processUnknown: bool, fuel: nat)
    ensures var r := Convert(path, isRegularFile, contents, fileName, outputIsFile, builder, layerNames,
                             parse, processUnknown, fuel);
      && (forall i :: 0 <= i < |r.saved| ==> r.saved[i].hasGeometry)
      && (r.end == Finished ==> r.sets.points * r.sets.lines == {})
  {
    if OpenCheck(path, isRegularFile, contents).None? && !outputIsFile {
      var h := HeaderFrom(Initial(contents), map["SUBOR" := Text(fileName)], [], processUnknown);
      var attrs := h.attrs["AKTUAL" := Aktual(h.attrs, parse)];
      RunObjectsInvariant(h.reader, Config(builder, layerNames, attrs, processUnknown), Sets({}, {}), [], fuel);
    }
  }

  /** `process_files` over a file given by its path, whether it is a regular file, and its
      text. */
  method ProcessFiles(path: string, isRegularFile: bool, contents: string, fileName: string, outputIsFile: bool,
                      builder: Builder, layerNames: set<string>, parse: string -> Option<DateTime>,
                      processUnknown: bool, fuel: nat)
    returns (end: RunEnd, saved: seq<BuildData>, count: nat)
    ensures var r := Convert(path, isRegularFile, contents, fileName, outputIsFile, builder, layerNames,
                             parse, processUnknown, fuel);
      end == r.end && saved == r.saved
    ensures count == |saved|
  {
    var otvoreny := Open(path, isRegularFile, contents);
    if otvoreny.Err? || outputIsFile {
      return Exit2, [], 0;
    }
    var vstup := otvoreny.value;
    var atributy: Attributes := map["SUBOR" := Text(fileName)];
    var h := ReadHeader(vstup, atributy, processUnknown);
    end, saved, count := ObjectsAfterHeader(vstup, h, builder, layerNames, parse, processUnknown, fuel);
  }

  /** `process_files` after the header loop. */
  method ObjectsAfterHeader(vstup: Citac, h: Header, builder: Builder, layerNames: set<string>,
                            parse: string -> Option<DateTime>, processUnknown: bool, fuel: nat)
    returns (end: RunEnd, saved: seq<BuildData>, count: nat)
    requires vstup.State() == h.reader
    modifies vstup
    ensures var r := AfterHeader(h, builder, layerNames, parse, processUnknown, fuel);
      end == r.end && saved == r.saved
    ensures count == |saved|
  {
    match h.end {
      case HeaderMissingEnd =>
        return Exit2, [], 0;
      case HeaderExit2 =>
        return Exit2, [], 0;
      case HeaderCrash =>
        return Crash, [], 0;
      case _ =>
    }
    var atributy := h.attrs["AKTUAL" := Aktual(h.attrs, parse)];
    var rawObjekty := new CitacObjektov(vstup);
    var run;
    run, count := ProcessObjects(rawObjekty, Config(builder, layerNames, atributy, processUnknown), fuel);
    return run.end, run.saved, count;
  }
}
