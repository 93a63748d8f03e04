/**
 * katastertools/kt_import_fuvi.py:23-113: the SQL batch generated from a cleaned FPU file. Lines
 * starting with a dot set a key (`.SKUPINA KN-PA`, `.POLOZKY ...`, `.KATASTRALNE_UZEMIE 800001`);
 * empty lines are skipped; every other line is a record that becomes one `INSERT` into the table
 * the current `SKUPINA` names, with the columns `POLOZKY` lists. Every cadastral area met gets
 * three `UPDATE` statements for the parcel keys, and the batch ends with `END;`.
 *
 * The clock, the user name from the environment and the package version that make up the first
 * line are parameters. Python's exceptions are the `ImportError` values.
 */
module FuviImport {
  import opened Results
  import opened PyStr

  /** The exceptions that escape `import_fuvi`. */
  datatype ImportError =
    | MissingKey(key: string)   // `KeyError` on `kluce[...]`
    | NoKeyToken(line: string)  // `IndexError` on `split()[0]` of a dot line without a word
    | NoUser                    // `KeyError` on `os.environ['USER']`
    | WrongInput                // `Exception('Wrong input for ...')`
    | BytesLine                 // `TypeError` from `re.match` with a text pattern on a bytes line

  /** `re.match(r"^\.", riadok)`. */
  predicate IsKeyLine(riadok: string)
  {
    StartsWith(riadok, ".")
  }

  /** `re.match(r"^$", riadok)`: `$` also matches before a final newline. */
  predicate IsBlankLine(riadok: string)
  {
    riadok == "" || riadok == "\n"
  }

  /** A line that becomes an `INSERT`. */
  predicate IsRecord(riadok: string)
  {
    !IsKeyLine(riadok) && !IsBlankLine(riadok)
  }

  /** `sql_stlpce`: `"ku"` and the quoted, lower-cased column names without their `KN-` prefix. */
  function Columns(polozky: string): string
  {
    var pol2 := Quote + Join(QuoteSep, SplitOn(polozky, ';'));
    KuColumn + Lower(DropLast(Replace(pol2, Prefix, ""), 2))
  }

  /** The pieces of the column list. */
  const Quote := "\""
  const QuoteSep := "\",\""
  const KuColumn := "\"ku\","
  /** The prefix removed from column and table names. */
  const Prefix := "KN-"

  /** `sql_tab`. */
  function Table(skupina: string): string
  {
    Lower(Replace(skupina, Prefix, ""))
  }

  /** `sql_hodn`: the cadastral area and the fields of the record, each between `$$`. */
  function Values(ku: string, riadok: string): string
  {
    Dollars + ku + DollarSep + DropLast(Join(DollarSep, SplitOn(riadok, ';')), 5) + Dollar
  }

  /** The pieces of the value list. */
  const Dollar := "$"
  const Dollars := "$$"
  const DollarSep := "$$, $$"

  function Insert(tab: string, columns: string, values: string): string
  {
    "INSERT INTO kn_" + tab + " (" + columns + ") VALUES (" + values + ");"
  }

  /** `kluce`, `zoznam_ku` and `result`. */
  datatype ImportState = ImportState(kluce: map<string, string>, zoznamKu: seq<string>, result: seq<string>)

  const KU := "KATASTRALNE_UZEMIE"

  /** `riadok.strip(".").split()`. */
  function KeyWords(riadok: string): seq<string>
  {
    Words(StripChar(riadok, '.'))
  }

  /** `hodn_prem`: the second word, or `""` when there is none. */
  function KeyValue(words: seq<string>): string
  {
    if |words| >= 2 then words[1] else ""
  }

  /** What a key line adds to `zoznam_ku`: its value when the key is `KATASTRALNE_UZEMIE`. */
  function KuEntry(words: seq<string>): seq<string>
  {
    if |words| >= 1 && words[0] == KU then [KeyValue(words)] else []
  }

  /** `process_line(riadok, kluce, zoznam_ku, result)` on the state `st`. */
  function LineEffect(st: ImportState, riadok: string): Result<ImportState, ImportError>
  {
    if IsKeyLine(riadok) then
      var words := KeyWords(riadok);
      if |words| == 0 then Err(NoKeyToken(riadok))
      else
        Ok(ImportState(st.kluce[words[0] := KeyValue(words)], st.zoznamKu + KuEntry(words), st.result))
    else if IsBlankLine(riadok) then Ok(st)
    else if KU !in st.kluce then Err(MissingKey(KU))
    else if "POLOZKY" !in st.kluce then Err(MissingKey("POLOZKY"))
    else if "SKUPINA" !in st.kluce then Err(MissingKey("SKUPINA"))
    else
      var statement := Insert(Table(st.kluce["SKUPINA"]), Columns(st.kluce["POLOZKY"]), Values(st.kluce[KU], riadok));
      Ok(st.(result := st.result + [statement]))
  }

  /** The lines of `data` fed to `process_line` one after the other, up to the first exception. */
  function LinesEffect(st: ImportState, data: seq<string>): Result<ImportState, ImportError>
    decreases |data|
  {
    if data == [] then Ok(st)
    else
      match LineEffect(st, data[0])
      case Err(e) => Err(e)
      case Ok(st') => LinesEffect(st', data[1..])
  }

  /** The first three lines of the batch. */
  function Preamble(cas: string, user: string, version: string): seq<string>
  {
    ["-- I: CAS: " + cas + ", VYTVORIL: " + user + ", VERZIA: " + version,
     "SET client_encoding TO UTF8;",
     "BEGIN;"]
  }

  /** The state `process_list` and `process_file` start from. */
  function Begin(cas: string, user: Option<string>, version: string): Result<ImportState, ImportError>
  {
    if user.None? then Err(NoUser) else Ok(ImportState(map[], [], Preamble(cas, user.value, version)))
  }

  /** The lines `readline` returns before the first empty string, where `while riadok` stops. */
  function ReadLines(sub: seq<string>): (lines: seq<string>)
    ensures "" !in lines && |lines| <= |sub| && lines == sub[..|lines|]
    ensures |lines| < |sub| ==> sub[|lines|] == ""
  {
    if sub == [] || sub[0] == "" then []
    else
      var rest := ReadLines(sub[1..]);
      assert sub[..|rest| + 1] == [sub[0]] + sub[1..][..|rest|];
      [sub[0]] + rest
  }

  /** `process_list(data)`. */
  function ProcessListSpec(data: seq<string>, cas: string, user: Option<string>, version: string): Result<ImportState, ImportError>
  {
    match Begin(cas, user, version)
    case Err(e) => Err(e)
    case Ok(st) => LinesEffect(st, data)
  }

  /** `process_file(sub)`. */
  function ProcessFileSpec(sub: seq<string>, cas: string, user: Option<string>, version: string): Result<ImportState, ImportError>
  {
    match Begin(cas, user, version)
    case Err(e) => Err(e)
    case Ok(st) => LinesEffect(st, ReadLines(sub))
  }

  /** `process_file(data)` on an open binary file: `USER` is read first; then the first
      non-empty byte string `readline` returns reaches `re.match(r"^\.", riadok)`, which raises
      `TypeError`, and only an empty file gets through. */
  function ProcessBytesSpec(sub: seq<string>, cas: string, user: Option<string>, version: string): Result<ImportState, ImportError>
  {
    match Begin(cas, user, version)
    case Err(e) => Err(e)
    case Ok(st) => if ReadLines(sub) == [] then Ok(st) else Err(BytesLine)
  }

  const UpdateCs := "UPDATE kn_cs SET parckey = ku::text || '00' || to_char(cpa, 'FM000000000') WHERE ku = '"
  const UpdateEp := "UPDATE kn_ep SET parckey = ku::text || to_char(cpu, 'FM00') || to_char(cpa, 'FM000000000') WHERE ku = '"
  const UpdatePa := "UPDATE kn_pa SET parckey = ku::text || '00' || to_char(cpa, 'FM000000000') WHERE ku = '"

  /** The three `UPDATE` statements that build `parckey` for one cadastral area. */
  function Updates(u: string): (r: seq<string>)
    ensures |r| == 3
  {
    [UpdateCs + u + "';", UpdateEp + u + "';", UpdatePa + u + "';"]
  }

  function AllUpdates(kus: seq<string>): (r: seq<string>)
    ensures |r| == 3 * |kus|
  {
    if kus == [] then [] else Updates(kus[0]) + AllUpdates(kus[1..])
  }

  /** What `import_fuvi` is given: a path (the text lines its `readline` returns), an open binary
      file (the byte strings its `readline` returns, written here as strings), a list, or
      anything else. */
  datatype Input = PathInput(lines: seq<string>) | BufferedInput(lines: seq<string>) | ListInput(lines: seq<string>) | OtherInput

  /** `import_fuvi(data)`. */
  function ImportFuviSpec(data: Input, cas: string, user: Option<string>, version: string): Result<seq<string>, ImportError>
  {
    var processed := match data
      case PathInput(lines) => ProcessFileSpec(lines, cas, user, version)
      case BufferedInput(lines) => ProcessBytesSpec(lines, cas, user, version)
      case ListInput(lines) => ProcessListSpec(lines, cas, user, version)
      case OtherInput => Err(WrongInput);
    match processed
    case Err(e) => Err(e)
    case Ok(st) => Ok(st.result + AllUpdates(st.zoznamKu) + ["END;"])
  }

  // ---------------------------------------------------------------------------------------------
  // The imperative code

  /** The dictionary and the two lists `process_line` mutates. */
  class Importer {
    var kluce: map<string, string>
    var zoznamKu: seq<string>
    var result: seq<string>

    function State(): ImportState
      reads this
    {
      ImportState(kluce, zoznamKu, result)
    }

    constructor (st: ImportState)
      ensures State() == st
    {
      kluce := st.kluce;
      zoznamKu := st.zoznamKu;
      result := st.result;
    }

    /** `process_line(riadok, kluce, zoznam_ku, result)`: an exception leaves the state as it
        was. */
    method ProcessLine(riadok: string) returns (err: Option<ImportError>)
      modifies this
      ensures LineEffect(old(State()), riadok).Ok? ==> err.None? && State() == LineEffect(old(State()), riadok).value
      ensures LineEffect(old(State()), riadok).Err? ==> err == Some(LineEffect(old(State()), riadok).error) && State() == old(State())
    {
      if StartsWith(riadok, ".") {
        var words := Words(StripChar(riadok, '.'));
        if |words| == 0 {
          return Some(NoKeyToken(riadok));
        }
        var prem := words[0];
        var hodnPrem := "";
        if |words| >= 2 {
          hodnPrem := words[1];
        }
        kluce := kluce[prem := hodnPrem];
        if prem == KU {
          zoznamKu := zoznamKu + [hodnPrem];
        }
      } else if riadok == "" || riadok == "\n" {
      } else {
        if KU !in kluce {
          return Some(MissingKey(KU));
        }
        var sqlKu := kluce[KU];
        if "POLOZKY" !in kluce {
          return Some(MissingKey("POLOZKY"));
        }
        var sqlStlpce := Columns(kluce["POLOZKY"]);
        if "SKUPINA" !in kluce {
          return Some(MissingKey("SKUPINA"));
        }
        var sqlTab := Table(kluce["SKUPINA"]);
        var sqlHodn := Values(sqlKu, riadok);
        result := result + [Insert(sqlTab, sqlStlpce, sqlHodn)];
      }
      return None;
    }
  }

  /** `process_list(data)`. */
  method ProcessList(data: seq<string>, cas: string, user: Option<string>, version: string)
    returns (r: Result<ImportState, ImportError>)
    ensures r == ProcessListSpec(data, cas, user, version)
  {
    if user.None? {
      return Err(NoUser);
    }
    var imp := new Importer(ImportState(map[], [], Preamble(cas, user.value, version)));
    for i := 0 to |data|
      invariant LinesEffect(imp.State(), data[i..]) == ProcessListSpec(data, cas, user, version)
    {
      assert data[i..][1..] == data[i + 1..];
      var err := imp.ProcessLine(data[i]);
      if err.Some? {
        return Err(err.value);
      }
    }
    return Ok(imp.State());
  }

  /** `process_file(sub)`: `readline` until it returns an empty string. */
  method ProcessFile(sub: seq<string>, cas: string, user: Option<string>, version: string)
    returns (r: Result<ImportState, ImportError>)
    ensures r == ProcessFileSpec(sub, cas, user, version)
  {
    if user.None? {
      return Err(NoUser);
    }
    var imp := new Importer(ImportState(map[], [], Preamble(cas, user.value, version)));
    var i := 0;
    var riadok := if i < |sub| then sub[i] else "";
    while riadok != ""
      invariant i <= |ReadLines(sub)| && riadok == (if i < |sub| then sub[i] else "")
      invariant LinesEffect(imp.State(), ReadLines(sub)[i..]) == ProcessFileSpec(sub, cas, user, version)
      decreases |sub| - i
    {
      assert ReadLines(sub)[i..] == [riadok] + ReadLines(sub)[i + 1..];
      var err := imp.ProcessLine(riadok);
      if err.Some? {
        return Err(err.value);
      }
      i := i + 1;
      riadok := if i < |sub| then sub[i] else "";
    }
    assert ReadLines(sub)[i..] == [];
    return Ok(imp.State());
  }

  /** `process_file(data)` on an open binary file: the loop stops at its first line, either
      because `readline` returned an empty byte string or because `process_line` raised. */
  method ProcessBytes(sub: seq<string>, cas: string, user: Option<string>, version: string)
    returns (r: Result<ImportState, ImportError>)
    ensures r == ProcessBytesSpec(sub, cas, user, version)
  {
    if user.None? {
      return Err(NoUser);
    }
    var riadok := if 0 < |sub| then sub[0] else "";
    if riadok != "" {
      return Err(BytesLine);
    }
    return Ok(ImportState(map[], [], Preamble(cas, user.value, version)));
  }

  /** `import_fuvi(data)`. */
  method ImportFuvi(data: Input, cas: string, user: Option<string>, version: string)
    returns (r: Result<seq<string>, ImportError>)
    ensures r == ImportFuviSpec(data, cas, user, version)
  {
    var processed: Result<ImportState, ImportError>;
    match data {
      case PathInput(lines) =>
        processed := ProcessFile(lines, cas, user, version);
      case BufferedInput(lines) =>
        processed := ProcessBytes(lines, cas, user, version);
      case ListInput(lines) =>
        processed := ProcessList(lines, cas, user, version);
      case OtherInput =>
        return Err(WrongInput);
    }
    if processed.Err? {
      return Err(processed.error);
    }
    var result := AppendUpdates(processed.value.result, processed.value.zoznamKu);
    result := result + ["END;"];
    return Ok(result);
  }

  /** The loop `for u in zoznam_ku` with its three appends. */
  method AppendUpdates(result: seq<string>, zoznamKu: seq<string>) returns (out: seq<string>)
    ensures out == result + AllUpdates(zoznamKu)
  {
    out := result;
    for k := 0 to |zoznamKu|
      invariant out + AllUpdates(zoznamKu[k..]) == result + AllUpdates(zoznamKu)
    {
      var u := zoznamKu[k];
      assert zoznamKu[k..][1..] == zoznamKu[k + 1..];
      assert AllUpdates(zoznamKu[k..]) == Updates(u) + AllUpdates(zoznamKu[k + 1..]);
      ghost var before := out;
      out := out + [UpdateCs + u + "';"];
      out := out + [UpdateEp + u + "';"];
      out := out + [UpdatePa + u + "';"];
      assert out == before + Updates(u);
      assert before + (Updates(u) + AllUpdates(zoznamKu[k + 1..])) == out + AllUpdates(zoznamKu[k + 1..]);
    }
    assert zoznamKu[|zoznamKu|..] == [];
    assert out + [] == out;
  }

  // ---------------------------------------------------------------------------------------------
  // Properties

  /** `readline` on a file without empty strings reads every line. */
  lemma {:induction false} ReadLinesWithoutEmpty(sub: seq<string>)
    requires "" !in sub
    ensures ReadLines(sub) == sub
    decreases |sub|
  {
    if sub != [] {
      assert sub[0] in sub;
      assert forall x :: x in sub[1..] ==> x in sub;
      ReadLinesWithoutEmpty(sub[1..]);
      assert sub == [sub[0]] + sub[1..];
    }
  }

  /** `readline` stops at the first empty string. */
  lemma {:induction false} ReadLinesStopsAtEmpty(a: seq<string>, b: seq<string>)
    requires "" !in a
    ensures ReadLines(a + [""] + b) == a
    decreases |a|
  {
    var sub := a + [""] + b;
    if a == [] {
      assert sub[0] == "";
    } else {
      assert a[0] in a && sub[0] == a[0];
      assert forall x :: x in a[1..] ==> x in a;
      ReadLinesStopsAtEmpty(a[1..], b);
      assert sub[1..] == a[1..] + [""] + b;
      assert a == [a[0]] + a[1..];
    }
  }

  /** A file without empty strings is processed like the list of its lines. */
  lemma FileAgreesWithList(sub: seq<string>, cas: string, user: Option<string>, version: string)
    requires "" !in sub
    ensures ProcessFileSpec(sub, cas, user, version) == ProcessListSpec(sub, cas, user, version)
  {
    ReadLinesWithoutEmpty(sub);
  }

  /** An empty string ends the file: what follows it is never read. */
  lemma FileStopsAtEmpty(a: seq<string>, b: seq<string>, cas: string, user: Option<string>, version: string)
    requires "" !in a
    ensures ProcessFileSpec(a + [""] + b, cas, user, version) == ProcessListSpec(a, cas, user, version)
  {
    ReadLinesStopsAtEmpty(a, b);
  }

  /** The number of records among `data`. */
  function Records(data: seq<string>): nat
  {
    if data == [] then 0 else (if IsRecord(data[0]) then 1 else 0) + Records(data[1..])
  }

  /** The cadastral areas the key lines of `data` announce, in order. */
  function KuValues(data: seq<string>): seq<string>
  {
    if data == [] then []
    else (if IsKeyLine(data[0]) then KuEntry(KeyWords(data[0])) else []) + KuValues(data[1..])
  }

  /** What `LinesEffectAccounting` states about the state `st'` reached from `st` over `data`. */
  predicate Accounted(st: ImportState, st': ImportState, data: seq<string>)
  {
    && |st'.result| == |st.result| + Records(data) && st'.result[..|st.result|] == st.result
    && (forall i :: |st.result| <= i < |st'.result| ==> StartsWith(st'.result[i], "INSERT INTO kn_"))
    && st'.zoznamKu == st.zoznamKu + KuValues(data)
  }

  /** What one line does to the two lists when it raises no exception. */
  predicate LineAccounted(st: ImportState, st': ImportState, riadok: string)
  {
    && |st'.result| == |st.result| + (if IsRecord(riadok) then 1 else 0)
    && st'.result[..|st.result|] == st.result
    && (IsRecord(riadok) ==> StartsWith(st'.result[|st.result|], "INSERT INTO kn_"))
    && st'.zoznamKu == st.zoznamKu + (if IsKeyLine(riadok) then KuEntry(KeyWords(riadok)) else [])
  }

  /** A record adds one `INSERT`, a key line adds its cadastral area if it names one, and
      nothing else changes the lists. */
  lemma LineEffectAccounted(st: ImportState, riadok: string)
    requires LineEffect(st, riadok).Ok?
    ensures LineAccounted(st, LineEffect(st, riadok).value, riadok)
  {
    if IsRecord(riadok) {
      var statement := LineEffect(st, riadok).value.result[|st.result|];
      assert statement[..15] == "INSERT INTO kn_";
    }
  }

  lemma AccountedCons(st: ImportState, st': ImportState, st'': ImportState, riadok: string, rest: seq<string>)
    requires LineAccounted(st, st', riadok) && Accounted(st', st'', rest)
    ensures Accounted(st, st'', [riadok] + rest)
  {
    var data := [riadok] + rest;
    assert data[0] == riadok && data[1..] == rest;
    assert st''.result[..|st.result|] == st''.result[..|st'.result|][..|st.result|];
    if IsRecord(riadok) {
      assert st''.result[|st.result|] == st'.result[|st.result|];
    }
  }

  /** A run that raises no exception keeps what was there, adds one `INSERT` per record after
      it, and collects the announced cadastral areas in order. */
  lemma {:induction false} LinesEffectAccounting(st: ImportState, data: seq<string>)
    ensures LinesEffect(st, data).Ok? ==> Accounted(st, LinesEffect(st, data).value, data)
    decreases |data|
  {
    if data != [] && LineEffect(st, data[0]).Ok? {
      var st' := LineEffect(st, data[0]).value;
      LinesEffectAccounting(st', data[1..]);
      if LinesEffect(st', data[1..]).Ok? {
        assert data == [data[0]] + data[1..];
        LineEffectAccounted(st, data[0]);
        AccountedCons(st, st', LinesEffect(st', data[1..]).value, data[0], data[1..]);
      }
    }
  }

  /** Processing `a + b` is processing `a` and then, from the state it leaves, `b`: the lines
      take effect one after the other in input order, and the first exception ends the run. */
  lemma {:induction false} LinesEffectAppend(st: ImportState, a: seq<string>, b: seq<string>)
    ensures LinesEffect(st, a + b)
         == match LinesEffect(st, a)
            case Err(e) => Err(e)
            case Ok(st') => LinesEffect(st', b)
    decreases |a|
  {
    if a == [] {
      assert a + b == b;
    } else {
      assert (a + b)[0] == a[0] && (a + b)[1..] == a[1..] + b;
      if LineEffect(st, a[0]).Ok? {
        LinesEffectAppend(LineEffect(st, a[0]).value, a[1..], b);
      }
    }
  }

  /** The batch for a list: the three opening lines, one `INSERT` per record, the three `UPDATE`s
      of each announced cadastral area in the order they were announced, and `END;`; without
      `USER` nothing is produced. */
  lemma ListBatchShape(data: seq<string>, cas: string, user: Option<string>, version: string)
    ensures var r := ImportFuviSpec(ListInput(data), cas, user, version);
      && (user.None? ==> r == Err(NoUser))
      && (r.Ok? ==>
            && user.Some? && |r.value| == 4 + Records(data) + 3 * |KuValues(data)|
            && r.value[..3] == Preamble(cas, user.value, version)
            && (forall i :: 3 <= i < 3 + Records(data) ==> StartsWith(r.value[i], "INSERT INTO kn_"))
            && r.value[3 + Records(data)..|r.value| - 1] == AllUpdates(KuValues(data))
            && r.value[|r.value| - 1] == "END;")
  {
    if user.Some? {
      var st := ImportState(map[], [], Preamble(cas, user.value, version));
      LinesEffectAccounting(st, data);
      if LinesEffect(st, data).Ok? {
        var st' := LinesEffect(st, data).value;
        assert st'.zoznamKu == [] + KuValues(data) == KuValues(data);
        BatchParts(st.result, st'.result, AllUpdates(KuValues(data)));
      }
    }
  }

  /** The batch `result + updates + ["END;"]` laid out around a prefix `pre` of `result`. */
  lemma BatchParts(pre: seq<string>, result: seq<string>, updates: seq<string>)
    requires |pre| <= |result| && result[..|pre|] == pre
    ensures var out := result + updates + ["END;"];
      && |out| == |result| + |updates| + 1
      && out[..|pre|] == pre
      && (forall i :: |pre| <= i < |result| ==> out[i] == result[i])
      && out[|result|..|out| - 1] == updates
      && out[|out| - 1] == "END;"
  {
    var out := result + updates + ["END;"];
    assert out[..|pre|] == result[..|pre|];
    assert out[|result|..|out| - 1] == updates;
  }

  /** An open binary file: without `USER` nothing is produced; an empty file gives the bare batch;
      any other file raises `TypeError` on its first line. */
  lemma BytesFileShape(lines: seq<string>, cas: string, user: Option<string>, version: string)
    ensures var r := ImportFuviSpec(BufferedInput(lines), cas, user, version);
      && (user.None? ==> r == Err(NoUser))
      && (user.Some? && lines != [] && lines[0] != "" ==> r == Err(BytesLine))
      && (user.Some? && (lines == [] || lines[0] == "") ==> r == Ok(Preamble(cas, user.value, version) + ["END;"]))
  {
    if user.Some? && (lines == [] || lines[0] == "") {
      var pre := Preamble(cas, user.value, version);
      assert ReadLines(lines) == [];
      assert AllUpdates([]) == [];
      assert pre + [] + ["END;"] == pre + ["END;"];
    }
  }

  /** Splitting a record that ends in `;` gives its fields and an empty last part. */
  lemma SplitRecord(fields: seq<string>)
    requires |fields| >= 1 && forall k :: 0 <= k < |fields| ==> ';' !in fields[k]
    ensures SplitOn(Join(";", fields) + ";", ';') == fields + [""]
  {
    JoinAppend(";", fields, "");
    assert Join(";", fields) + ";" + "" == Join(";", fields) + ";";
    JoinSplitOn(fields + [""], ';');
  }

  /** The empty last part leaves `$$, $$` at the end, and `[:-5]` keeps its first `$`. */
  lemma QuoteTail(fields: seq<string>)
    requires |fields| >= 1
    ensures DropLast(Join(DollarSep, fields + [""]), 5) == Join(DollarSep, fields) + Dollar
  {
    JoinAppend(DollarSep, fields, "");
    var joined := Join(DollarSep, fields);
    var sep := DollarSep;
    assert joined + sep + "" == joined + sep;
    DropLastAppend(joined, sep, 5);
    assert sep[..1] == Dollar;
  }

  /** A record ending in `;`: every field becomes `$$field$$`, after the cadastral area. */
  lemma ValuesQuoteEachField(ku: string, fields: seq<string>)
    requires |fields| >= 1 && forall k :: 0 <= k < |fields| ==> ';' !in fields[k]
    ensures Values(ku, Join(";", fields) + ";") == Dollars + ku + DollarSep + Join(DollarSep, fields) + Dollars
  {
    SplitRecord(fields);
    QuoteTail(fields);
    Regroup(Dollars + ku + DollarSep, Join(DollarSep, fields), Dollar);
    assert Dollar + Dollar == Dollars;
  }

  /** Regrouping a concatenation, stated over variables so that the literals stay folded. */
  lemma Regroup(pre: string, mid: string, d: string)
    ensures pre + (mid + d) + d == pre + mid + (d + d)
  {
  }

  /** An empty line, or one holding only a newline, changes nothing. */
  lemma BlankLineChangesNothing(st: ImportState, riadok: string)
    requires IsBlankLine(riadok)
    ensures LineEffect(st, riadok) == Ok(st)
  {
  }

  /** A record raises `KeyError` exactly when one of the three keys is unset; otherwise it adds
      one statement and leaves `kluce` and `zoznam_ku` as they were. */
  lemma RecordLine(st: ImportState, riadok: string)
    requires IsRecord(riadok)
    ensures LineEffect(st, riadok).Err? <==> KU !in st.kluce || "POLOZKY" !in st.kluce || "SKUPINA" !in st.kluce
    ensures LineEffect(st, riadok).Ok? ==>
      && LineEffect(st, riadok).value.kluce == st.kluce
      && LineEffect(st, riadok).value.zoznamKu == st.zoznamKu
      && |LineEffect(st, riadok).value.result| == |st.result| + 1
  {
  }

  /** `.KEY VALUE` stores `VALUE` under `KEY`, and a `KATASTRALNE_UZEMIE` joins the list. */
  lemma KeyLineStores(st: ImportState, key: string, val: string)
    requires key != "" && val != "" && key[0] != '.' && val[|val| - 1] != '.'
    requires forall k :: 0 <= k < |key| ==> !IsSpace(key[k])
    requires forall k :: 0 <= k < |val| ==> !IsSpace(val[k])
    ensures LineEffect(st, "." + key + " " + val)
         == Ok(ImportState(st.kluce[key := val], st.zoznamKu + (if key == KU then [val] else []), st.result))
  {
    var riadok := "." + key + " " + val;
    var body := key + (" " + val);
    assert riadok == "." + body && riadok[1..] == body;
    assert body[|body| - 1] == val[|val| - 1];
    assert StripChar(riadok, '.') == body;
    WordsOfWord(key, " " + val);
    assert (" " + val)[1..] == val;
    WordsOfWord(val, "");
    assert val + "" == val;
    assert KeyWords(riadok) == [key, val];
  }

  /** `.KEY` without a value: the `except` branch stores `""`, which also goes to `zoznam_ku`
      when the key is `KATASTRALNE_UZEMIE`. */
  lemma KeyLineWithoutValue(st: ImportState, key: string)
    requires key != "" && key[0] != '.' && key[|key| - 1] != '.'
    requires forall k :: 0 <= k < |key| ==> !IsSpace(key[k])
    ensures LineEffect(st, "." + key)
         == Ok(ImportState(st.kluce[key := ""], st.zoznamKu + (if key == KU then [""] else []), st.result))
  {
    var riadok := "." + key;
    assert riadok[1..] == key;
    assert StripChar(riadok, '.') == key;
    WordsOfWord(key, "");
    assert key + "" == key;
    assert KeyWords(riadok) == [key];
  }

  /** `.KEY VALUE EXTRA`: only the first two words count; a third is ignored. */
  lemma KeyLineIgnoresExtraWords(st: ImportState, key: string, val: string, extra: string)
    requires key != "" && val != "" && extra != "" && key[0] != '.' && extra[|extra| - 1] != '.'
    requires forall k :: 0 <= k < |key| ==> !IsSpace(key[k])
    requires forall k :: 0 <= k < |val| ==> !IsSpace(val[k])
    requires forall k :: 0 <= k < |extra| ==> !IsSpace(extra[k])
    ensures LineEffect(st, "." + key + " " + val + " " + extra)
         == Ok(ImportState(st.kluce[key := val], st.zoznamKu + (if key == KU then [val] else []), st.result))
  {
    var riadok := "." + key + " " + val + " " + extra;
    var tail2 := " " + extra;
    var tail1 := " " + (val + tail2);
    var body := key + tail1;
    assert riadok == "." + body && riadok[1..] == body;
    assert body[|body| - 1] == extra[|extra| - 1];
    assert StripChar(riadok, '.') == body;
    WordsOfWord(extra, "");
    assert extra + "" == extra;
    assert tail2[1..] == extra;
    assert Words(tail2) == [extra];
    WordsOfWord(val, tail2);
    assert tail1[1..] == val + tail2;
    WordsOfWord(key, tail1);
    assert KeyWords(riadok) == [key, val, extra];
  }

  /** `'"' + '","'.join(polozky.split(';'))` for `POLOZKY = "c1;…;cn;"`: the names joined, with a
      separator left over from the empty last part. */
  lemma QuotedNames(names: seq<string>)
    requires |names| >= 1 && forall k :: 0 <= k < |names| ==> ';' !in names[k]
    ensures Quote + Join(QuoteSep, SplitOn(Join(";", names) + ";", ';')) == Quote + Join(QuoteSep, names) + QuoteSep
  {
    SplitRecord(names);
    JoinEmptyLast(QuoteSep, names);
    Regroup2(Quote, Join(QuoteSep, names), QuoteSep);
  }

  /** Regrouping a concatenation, stated over variables so that the literals stay folded. */
  lemma Regroup2(pre: string, mid: string, post: string)
    ensures pre + (mid + post) == pre + mid + post
  {
  }

  /** Removing `KN-` from the quoted list removes it from each name; the quotes and separators stay. */
  lemma ReplaceInQuotedNames(names: seq<string>)
    ensures Replace(Quote + Join(QuoteSep, names) + QuoteSep, Prefix, "")
         == Quote + Join(QuoteSep, ReplaceEach(names, Prefix, "")) + QuoteSep
  {
    var joined := Join(QuoteSep, names);
    assert Quote + joined + QuoteSep == Quote + (joined + QuoteSep);
    ReplaceFreePrefix(Quote, joined + QuoteSep, Prefix, "");
    ReplaceSplit(joined, QuoteSep, Prefix, "");
    ReplaceFreePrefix(QuoteSep, "", Prefix, "");
    assert QuoteSep + "" == QuoteSep;
    ReplaceJoin(QuoteSep, names, Prefix, "");
  }

  /** `[:-2]` takes the `,"` of the leftover separator and keeps its closing quote. */
  lemma DropLeftoverSeparator(x: string)
    ensures DropLast(Quote + x + QuoteSep, 2) == Quote + x + Quote
  {
    DropLastAppend(Quote + x, QuoteSep, 2);
  }

  /** `POLOZKY = "c1;…;cn;"`: the columns are `"ku"` and each name, with every `KN-` removed,
      between double quotes, the whole list lower-cased. */
  lemma ColumnsQuoteEachName(names: seq<string>)
    requires |names| >= 1 && forall k :: 0 <= k < |names| ==> ';' !in names[k]
    ensures Columns(Join(";", names) + ";")
         == KuColumn + Lower(Quote + Join(QuoteSep, ReplaceEach(names, Prefix, "")) + Quote)
  {
    QuotedNames(names);
    ReplaceInQuotedNames(names);
    DropLeftoverSeparator(Join(QuoteSep, ReplaceEach(names, Prefix, "")));
  }

  /** A record `v1;…;vn;` under `POLOZKY = "c1;…;cn;"`: one INSERT into the table of `SKUPINA`,
      naming the columns and quoting each value after the cadastral area. */
  lemma InsertShape(st: ImportState, names: seq<string>, values: seq<string>)
    requires |names| >= 1 && forall k :: 0 <= k < |names| ==> ';' !in names[k]
    requires |values| >= 1 && forall k :: 0 <= k < |values| ==> ';' !in values[k]
    requires IsRecord(Join(";", values) + ";")
    requires KU in st.kluce && "SKUPINA" in st.kluce
    requires "POLOZKY" in st.kluce && st.kluce["POLOZKY"] == Join(";", names) + ";"
    ensures LineEffect(st, Join(";", values) + ";")
         == Ok(st.(result := st.result + [Insert(Table(st.kluce["SKUPINA"]),
                                                 KuColumn + Lower(Quote + Join(QuoteSep, ReplaceEach(names, Prefix, "")) + Quote),
                                                 Dollars + st.kluce[KU] + DollarSep + Join(DollarSep, values) + Dollars)]))
  {
    ColumnsQuoteEachName(names);
    ValuesQuoteEachField(st.kluce[KU], values);
  }
}
