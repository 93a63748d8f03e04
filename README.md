# kataster-import: the VGI reader, the VGI converter's decisions and the FPU tools

A Dafny model of the text-processing core of `kataster-import`, the tools that turn the
cadastral exchange files of the Slovak land registry (ISKN) into shapefiles and SQL.

The model covers four parts:

- **The VGI reader (`VgiReader`, `VgiObjects`, `JumpShift`).** This is katastertools/VgiShp/io.py.
  - `Citac` reads a VGI file line by line with a one-line lookahead. It merges one tab-indented
    continuation line into the current line. It stops at a missing end record or at `&K`.
    It steps back (`spat`) by subtracting recorded line lengths from a running offset.
  - `CitacObjektov` groups the logical lines into objects delimited by `&O` lines. It drops
    comment lines and pushes the next object's `&O` line back.
  - `posun_skoky` rewrites a line-string object so that the jump prefix `N` moves one line later
    inside each block that contains a jump.

  The reader's state is also a value, `ReaderState`. The functions `NextStep`, `Rewind` and
  `Gather` give the effect of each call on it. The classes `Citac` and `CitacObjektov` update
  their fields in place, and each of their methods is proved to agree with those functions.
- **The converter's decisions (`Vgi2Shp`).** This is katastertools/kt_vgi2shp.py, which covers:
  - the header loop that fills `atributy`, and the `TYP` and `KU` checks;
  - the `AKTUAL` conversion and the choice of layers;
  - the choice between the normal build and the jump-shifted build;
  - the point/line classification of unknown layers, and the counter of saved objects.
- **The FPU cleaner (`FuviClean`).** This is katastertools/kt_vycisti_fuvi.py. It filters
  characters, strips trailing blanks and joins records spread over several lines.
- **The FPU to SQL generator (`FuviImport`).** This is katastertools/kt_import_fuvi.py. It covers
  the key store, one `INSERT` per record, the `UPDATE` trailer per cadastral area and the whole
  batch.

`Results` holds `Option` and `Result`. `PyStr` holds the Python string operations the code uses,
with the laws the proofs need: `strip`, `rstrip` and `lstrip`, `split` with and without a
separator, `join`, `replace`, `upper` and `lower`, `int` and the slices.

The code's quirks are kept as the code has them, and lemmas exhibit them:

- `spat` reads twice after the seek.
- `zaciatok` is tested for truth, so a block at index 0 never opens.
- `skok` survives into the next block.
- Lines between two ranges that do not touch are dropped.

## Model

| member | source | states |
|---|---|---|
| VgiReader.OpenCheck | katastertools/VgiShp/io.py:13-26 | the constructor's checks in their order: not a regular file, then a space in the path, then contents not starting with `&V`; each error exactly under its condition, none iff all pass |
| VgiReader.Open | katastertools/VgiShp/io.py:13-31 | fails exactly when a check fails, with that check's error; otherwise a fresh reader in the initial state |
| VgiReader.Citac.constructor | katastertools/VgiShp/io.py:28-31 | after the checks pass: offset 0, no recorded lengths, the first line as lookahead |
| VgiReader.Initial | katastertools/VgiShp/io.py:28-31 | the initial state keeps the invariant, is open, has offset 0, an empty length list and the first `readline` as lookahead |
| VgiReader.ReadLine | katastertools/VgiShp/io.py:31 | `readline` is "" exactly at or past the end, and otherwise non-empty and inside the text |
| VgiReader.ReadLineIsNextLine | katastertools/VgiShp/io.py:48 | `readline` returns the text from the cursor up to and including the first newline, or to the end when there is none |
| VgiReader.NextStepAccounting | katastertools/VgiShp/io.py:36-52 | every `__getitem__` call appends exactly one length and adds that same amount to the offset; earlier lengths and the text are unchanged |
| VgiReader.NextStepTerminal | katastertools/VgiShp/io.py:41-46 | `ChybaKoncovaVeta` iff the lookahead is empty, `IndexError` iff it starts with `&K`; both close the reader and keep the lookahead; a dropped handle fails; a yielded line leaves the reader open |
| VgiReader.NextStepProgress | katastertools/VgiShp/io.py:36-55 | a call that yields a line decreases the remaining input, and the offset stays behind the cursor |
| VgiReader.NextStepLine | katastertools/VgiShp/io.py:48-55 | a tab-indented next line is merged as `(rstrip(cur) + ' ' + lstrip(next)).strip()`, its length is added to the recorded one, and the line after it becomes the lookahead; otherwise the lookahead is stripped and the next line becomes the lookahead |
| VgiReader.NextStepStop | katastertools/VgiShp/io.py:37-46 | a call that yields nothing records the lookahead's length and only closes the handle on the two end conditions |
| VgiReader.NextStepPlain | katastertools/VgiShp/io.py:47-55 | the state after yielding a line with no continuation |
| VgiReader.NextStepJoin | katastertools/VgiShp/io.py:48-55 | the state after yielding a line merged with its continuation, field by field |
| VgiReader.TerminalIsSticky | katastertools/VgiShp/io.py:41-46 | once the reader closed on an end condition, every later call raises the same condition and the handle stays dropped |
| VgiReader.PullsKeepBalance | katastertools/VgiShp/io.py:36-52 | no number of calls changes the difference between the offset and the sum of the recorded lengths |
| VgiReader.OffsetIsSumOfLengths | katastertools/VgiShp/io.py:29-52 | before any `spat`, the offset equals the sum of the recorded lengths |
| VgiReader.OneContinuationPerCall | katastertools/VgiShp/io.py:48-55 | of two tab-indented lines after a record line, the first is merged and the second comes out on its own |
| VgiReader.JoinedOneChar | katastertools/VgiShp/io.py:53-55 | the merge of `a` and tab-`b` is `a b` |
| VgiReader.PyTailCases | katastertools/VgiShp/io.py:59 | `xs[-n:]` is the whole list for `n == 0`, the last `n` items for `n > 0`, and the items from `-n` on for `n < 0` |
| VgiReader.Rewind | katastertools/VgiShp/io.py:57-64 | `spat(n)` lowers the offset by the sum of the last `n` recorded lengths, keeps the length list, text and handle, fails on a dropped handle and on a negative offset |
| VgiReader.RewindLookahead | katastertools/VgiShp/io.py:62-64 | a successful `spat` primes the lookahead with the SECOND line read from the new offset; a failed one leaves cursor and lookahead alone |
| VgiReader.RewindKeepsInv | katastertools/VgiShp/io.py:57-64 | `spat` keeps the offset behind the cursor |
| VgiReader.RewindSkipsPushedBackLine | katastertools/VgiShp/io.py:57-64 | after yielding two lines of a three-line file and `spat(1)`, the next call yields the third line, not the second again |
| VgiReader.SumOf | katastertools/VgiShp/io.py:58-60 | the summing loop of `spat` returns the sum of the list |
| VgiReader.Citac.Next | katastertools/VgiShp/io.py:36-55 | `__getitem__` yields and updates the fields as `NextStep` says |
| VgiReader.Citac.Stop | katastertools/VgiShp/io.py:37-46 | the raising branches, as `NextStep` says |
| VgiReader.Citac.Advance | katastertools/VgiShp/io.py:47-55 | the branches that yield a line, as `NextStep` says |
| VgiReader.Citac.YieldPlain | katastertools/VgiShp/io.py:47-55 | the branch without a continuation, as `NextStep` says |
| VgiReader.Citac.YieldJoined | katastertools/VgiShp/io.py:48-55 | the branch with a continuation, field by field as `NextStep` says |
| VgiReader.Citac.Record | katastertools/VgiShp/io.py:38-39 | one length is appended and the offset grows by it; nothing else changes |
| VgiReader.Citac.Spat | katastertools/VgiShp/io.py:57-64 | `spat(n)` updates the fields as `Rewind` says |
| VgiReader.Citac.SeekTo | katastertools/VgiShp/io.py:61-64 | the offset is set, then the seek and the two reads are made when the handle is held and the offset is not negative |
| VgiReader.Citac.Close | katastertools/VgiShp/io.py:66-69 | `zavriet` drops the handle and changes nothing else |
| VgiReader.Citac.IsEndOfFile | katastertools/VgiShp/io.py:71-72 | true exactly when the handle has been dropped |
| VgiObjects.Gather | katastertools/VgiShp/io.py:83-102 | the object starts with the lines stored before |
| VgiObjects.GatherFollowsStream | katastertools/VgiShp/io.py:83-102 | the object is the reader's lines up to the `&O` line that ends it, in order, without `&*` lines; the layer is the upper-cased second token of the first `&O` line; it ends by pushing back only when such an `&O` line exists and at the end record only when none does |
| VgiObjects.ObjectHasNoComments | katastertools/VgiShp/io.py:96-97 | no stored line is an `&*` line |
| VgiObjects.GatherStoresOneHeader | katastertools/VgiShp/io.py:89-95 | an object holds at most one `&O` line |
| VgiObjects.GatherLayerNeedsHeader | katastertools/VgiShp/io.py:89-92 | a layer name is only set together with storing an `&O` line |
| VgiObjects.FetchObject | katastertools/VgiShp/io.py:104-112 | a closed reader gives `IndexError` and changes nothing |
| VgiObjects.CitacObjektov.constructor | katastertools/VgiShp/io.py:79-81 | the segmenter wraps the reader with an empty object and layer name |
| VgiObjects.CitacObjektov.NacitajDalsiObjekt | katastertools/VgiShp/io.py:83-102 | the loop ends with the ending, object, layer name and reader state `Gather` gives |
| VgiObjects.CitacObjektov.Next | katastertools/VgiShp/io.py:104-112 | `__getitem__` returns what `FetchObject` gives, the object being the segmenter's own list and layer name |
| VgiObjects.CitacObjektov.PopFirstLine | katastertools/kt_vgi2shp.py:171-172 | popping through the returned dictionary removes the first line of the segmenter's own list |
| VgiObjects.CitacObjektov.PosunSkoky | katastertools/VgiShp/io.py:114-165 | returns `ShiftJumps` of the stored list |
| JumpShift.AllRecordedBounds | katastertools/VgiShp/io.py:115-138 | recorded ranges lie inside the object, after index 0, increasing and non-overlapping |
| JumpShift.ScanUpToInv | katastertools/VgiShp/io.py:119-135 | the scan loop keeps its invariant: every recorded range opens at an `&L P` line without `S=`, holds no other record line, ends at a record line or the end, and a jump line lies after the previous range and before its end |
| JumpShift.Ranges | katastertools/VgiShp/io.py:115-138 | `hranice` after the final check: every range is recorded as above, so the ranges are increasing, non-overlapping and inside the object |
| JumpShift.FindRanges | katastertools/VgiShp/io.py:115-138 | the scan loop returns `Ranges` |
| JumpShift.ShiftBlock | katastertools/VgiShp/io.py:143-158 | a block maps to a block of the same length |
| JumpShift.ShiftRange | katastertools/VgiShp/io.py:143-158 | the inner loop returns `ShiftBlock` of the block |
| JumpShift.PosunSkoky | katastertools/VgiShp/io.py:114-165 | the whole method returns `ShiftJumps` of the object |
| JumpShift.RewriteLength | katastertools/VgiShp/io.py:140-163 | the result is as long as the object less the lines between ranges, and that count is not negative |
| JumpShift.ShiftJumpsLength | katastertools/VgiShp/io.py:140-163 | `posun_skoky` never lengthens the object, and shortens it by exactly the lines between ranges |
| JumpShift.ShiftJumpsKeepsOutside | katastertools/VgiShp/io.py:141-162 | the lines before the first range and after the last range are copied unchanged |
| JumpShift.ShiftBlockWithoutJumps | katastertools/VgiShp/io.py:146-158 | a block without jump lines is copied unchanged |
| JumpShift.ShiftBlockMovesPrefix | katastertools/VgiShp/io.py:146-158 | the first jump line of a run loses its `N`, the rest of the run is kept, and the line after the run gains an `N` |
| JumpShift.ShiftOpenerAndJump | katastertools/VgiShp/io.py:146-158 | the block `opener, jump[, line]` becomes `opener, jump[1:][, "N" + line]` |
| JumpShift.BlockAtIndexZeroIsNotOpen | katastertools/VgiShp/io.py:121-137 | a block opening at index 0 never becomes a range, so the object comes back unchanged |
| JumpShift.SingleBlock | katastertools/VgiShp/io.py:119-163 | a record line and one block: one range exactly when the block holds a jump line, and then the block is rewritten; otherwise no change |
| JumpShift.JumpMovesToNextLine | katastertools/VgiShp/io.py:140-163 | the `N` of `NL 1 1` moves to `L 2 2` |
| JumpShift.OneRangeToEnd | katastertools/VgiShp/io.py:140-163 | one range reaching the end: the lines before it, then its rewrite |
| JumpShift.TwoRangesToEnd | katastertools/VgiShp/io.py:140-163 | two ranges, the second reaching the end: the lines before the first, then both rewrites; what lies between is gone |
| JumpShift.UnjumpedBlockScan | katastertools/VgiShp/io.py:115-138 | three line-strings with no jump in the middle one give the ranges `(1, 3)` and `(5, 8)` |
| JumpShift.UnjumpedBlockIsDropped | katastertools/VgiShp/io.py:140-162 | the middle line-string, between the two ranges, is missing from the result |
| JumpShift.JumpBeforeBlockCounts | katastertools/VgiShp/io.py:126-134 | a jump line outside every block sets `skok`, and the next block becomes a range without holding a jump |
| JumpShift.JumpBeforeBlockKeepsLines | katastertools/VgiShp/io.py:140-163 | the rewrite of such a range keeps every line |
| Vgi2Shp.ObjektVrstvy | katastertools/kt_vgi2shp.py:53-73 | the class whose name is the layer name, `KeyError` exactly when no class has that name |
| Vgi2Shp.ObjektVrstvyRoundTrip | katastertools/kt_vgi2shp.py:53-73 | every class is reached by its own name |
| Vgi2Shp.SelectedLayersHaveClass | katastertools/kt_vgi2shp.py:109-115 | every selected layer has a class and is supported; a type outside `objects_selection` selects nothing |
| Vgi2Shp.BRowStores | katastertools/kt_vgi2shp.py:124-126 | `&B KEY=VAL` stores `VAL` under `KEY` |
| Vgi2Shp.VRowFields | katastertools/kt_vgi2shp.py:128-147 | an `&V` row exits on an unknown type unless unknown layers are processed; otherwise it stores `NAZOV`, `TYP` = upper of the first two characters, `KU` = the next seven, and both reductions; an unknown type and an invalid `KU` are only logged, each iff it holds |
| Vgi2Shp.HeaderConsumesHeaderRows | katastertools/kt_vgi2shp.py:120-150 | when the header loop ends by pushing back, the row pushed back is the first that is not `&V`, `&R` or `&B`, and one length was recorded per row up to it |
| Vgi2Shp.ReadHeader | katastertools/kt_vgi2shp.py:118-150 | the header loop over a `Citac` ends as `HeaderFrom` says, with the reader in its state |
| Vgi2Shp.Aktual | katastertools/kt_vgi2shp.py:152-158 | a 7-tuple ending in 104 exactly when `AKTUAL` is present and parses; otherwise `(1970,1,1,0,0,0,0)` |
| Vgi2Shp.Tolerant | katastertools/kt_vgi2shp.py:179-183 | the rows taken keep those taken before and are among the rows fed |
| Vgi2Shp.StrictTakesAll | katastertools/kt_vgi2shp.py:189-190 | a feed without `try` that succeeds takes every row |
| Vgi2Shp.StrictAgreesWithTolerant | katastertools/kt_vgi2shp.py:179-190 | a feed without `try` fails exactly when the tolerant feed leaves a row out |
| Vgi2Shp.FeedTolerantly | katastertools/kt_vgi2shp.py:179-183 | the row loop with `try` returns `Tolerant` |
| Vgi2Shp.FeedStrictly | katastertools/kt_vgi2shp.py:189-190 | the row loop over the shifted rows returns `Strict` |
| Vgi2Shp.Choose | katastertools/kt_vgi2shp.py:193-195 | the shifted build is kept only when its closure count is strictly lower; ties keep the normal one |
| Vgi2Shp.KnownBuild | katastertools/kt_vgi2shp.py:176-195 | the chosen build never has more closures than the normal one |
| Vgi2Shp.NoClosuresNoShift | katastertools/kt_vgi2shp.py:186 | a build without closures is kept and the shifted build is not attempted |
| Vgi2Shp.GenericFeedClassifies | katastertools/kt_vgi2shp.py:199-217 | a line layer is built as lines; a point build keeps every row; lines are built for another layer exactly when the point builder refuses a row |
| Vgi2Shp.FeedGeneric | katastertools/kt_vgi2shp.py:199-217 | the generic row loop, with its restart and `break`, returns `GenericFeed` |
| Vgi2Shp.RouteFor | katastertools/kt_vgi2shp.py:176-225 | the known path only for a requested layer selected for the type, with its class; the generic path only with the flag and for an unsupported layer |
| Vgi2Shp.UnknownTypeSkipsKnownLayers | katastertools/kt_vgi2shp.py:176-225 | with an unknown or missing type, every supported layer is skipped |
| Vgi2Shp.NoGenericWithoutFlag | katastertools/kt_vgi2shp.py:197 | without `process_unknown_layers` the generic path is never taken |
| Vgi2Shp.Trim | katastertools/kt_vgi2shp.py:171-172 | the pops remove exactly the rows before the first `&` row, and raise when there is none |
| Vgi2Shp.KnownOutcomeSets | katastertools/kt_vgi2shp.py:176-230 | the known path leaves the sets alone and builds only when they are disjoint |
| Vgi2Shp.GenericOutcomeSets | katastertools/kt_vgi2shp.py:197-230 | the generic path adds the layer to exactly one set and builds only when the sets stay disjoint |
| Vgi2Shp.DecideObjectSets | katastertools/kt_vgi2shp.py:169-230 | only unsupported layers are classified, sets only grow, a built object leaves them disjoint, a skipped or failed one leaves them unchanged |
| Vgi2Shp.PointLayerTurnedLinesExits | katastertools/kt_vgi2shp.py:218-230 | a point layer that later needs lines makes the program exit with 2 |
| Vgi2Shp.HandleObject | katastertools/kt_vgi2shp.py:171-225 | the loop body, popping the segmenter's own list, decides as `DecideObject` |
| Vgi2Shp.HandleTrimmed | katastertools/kt_vgi2shp.py:173-225 | after the pops it decides as `DecideTrimmed` |
| Vgi2Shp.BuildKnown | katastertools/kt_vgi2shp.py:176-230 | the known-layer build with `posun_skoky` of the segmenter's list decides as `KnownOutcome` |
| Vgi2Shp.BuildGeneric | katastertools/kt_vgi2shp.py:197-230 | the generic build decides as `GenericOutcome` |
| Vgi2Shp.RunObjectsInvariant | katastertools/kt_vgi2shp.py:169-240 | the object loop keeps the objects saved before, saves only objects with geometry, classifies only unsupported layers, and ends normally only with disjoint sets |
| Vgi2Shp.RunObjectsExtends | katastertools/kt_vgi2shp.py:169-240 | from any start, the object loop never takes back an object it has saved |
| Vgi2Shp.ObjectIsSavedOnceWithGeometry | katastertools/kt_vgi2shp.py:235-240 | once the segmenter has returned an object, an object built with geometry is saved once, right after the objects saved before, and the loop goes on |
| Vgi2Shp.ObjectWithoutGeometryIsNotSaved | katastertools/kt_vgi2shp.py:223-240 | once the segmenter has returned an object, one built without geometry, or skipped, saves nothing and the loop goes on; a conflict or crash ends the loop with nothing more saved |
| Vgi2Shp.AfterFetchInvariant | katastertools/kt_vgi2shp.py:169-240 | the same, from the object the segmenter has just returned |
| Vgi2Shp.ProcessObjects | katastertools/kt_vgi2shp.py:164-240 | the loop over the segmenter ends as `RunObjects` says, and `poc_objektov` is the number of saved objects |
| Vgi2Shp.ConvertSavesOnlyGeometry | katastertools/kt_vgi2shp.py:76-250 | a whole conversion saves only objects with geometry, and a normal end leaves no layer both a point and a line layer |
| Vgi2Shp.ProcessFiles | katastertools/kt_vgi2shp.py:76-251 | `process_files` ends and saves as `Convert` says, and counts the saved objects |
| Vgi2Shp.ObjectsAfterHeader | katastertools/kt_vgi2shp.py:152-250 | what follows the header loop ends and saves as `AfterHeader` says (exit 2 on a missing end record or an unknown type, a crash on an exception, otherwise `AKTUAL` and the object loop), and counts the saved objects |
| FuviClean.Filter | katastertools/kt_vycisti_fuvi.py:19-28 | only accepted characters remain, the line never grows, and a line of accepted characters is kept as it is |
| FuviClean.FilterKeepsAcceptedInOrder | katastertools/kt_vycisti_fuvi.py:44 | the filter of a concatenation is the concatenation of the filters, and one character is kept exactly when it is accepted; so every accepted character is kept, in order |
| FuviClean.VycistiFuvi | katastertools/kt_vycisti_fuvi.py:31-64 | the loop returns `CleanFrom` of the lines from the initial state |
| FuviClean.RStripTidy | katastertools/kt_vycisti_fuvi.py:44-59 | stripping a filtered line leaves no trailing blank |
| FuviClean.StepTidy | katastertools/kt_vycisti_fuvi.py:44-60 | one line emits only tidy lines and keeps the buffer of accepted characters |
| FuviClean.OutputIsTidy | katastertools/kt_vycisti_fuvi.py:44-59 | every emitted line holds only accepted characters and ends in no blank |
| FuviClean.OneLinePerTerminator | katastertools/kt_vycisti_fuvi.py:43-62 | exactly one line comes out per dot line, empty line or `;` line read; no other line emits anything |
| FuviClean.StartStateIsIrrelevant | katastertools/kt_vycisti_fuvi.py:32-57 | the initial `uplnost_riadku = False` gives the same output as `True` |
| FuviClean.FragmentStep | katastertools/kt_vycisti_fuvi.py:58-60 | a fragment is buffered stripped and emits nothing |
| FuviClean.FragmentsAreBuffered | katastertools/kt_vycisti_fuvi.py:58-60 | a run of fragments is buffered in order and emits nothing |
| FuviClean.JoinedRecord | katastertools/kt_vycisti_fuvi.py:53-60 | fragments followed by a `;` line come out as one line: the fragments joined without separator, then the `;` line; the buffer is emptied |
| FuviClean.DanglingFragmentsAreDropped | katastertools/kt_vycisti_fuvi.py:43-64 | fragments still pending at the end of the file are never emitted |
| FuviClean.DotAndEmptyLinesPassThrough | katastertools/kt_vycisti_fuvi.py:45-48 | dot lines and empty lines come out at once and leave a pending record pending |
| FuviImport.Importer.constructor | katastertools/kt_import_fuvi.py:64-68 | the importer starts in the given state |
| FuviImport.Importer.ProcessLine | katastertools/kt_import_fuvi.py:23-57 | `process_line` updates the state as `LineEffect` says, and an exception leaves it as it was |
| FuviImport.ProcessList | katastertools/kt_import_fuvi.py:60-73 | returns `ProcessListSpec` |
| FuviImport.ProcessFile | katastertools/kt_import_fuvi.py:76-91 | returns `ProcessFileSpec`, reading until the first empty string |
| FuviImport.ImportFuvi | katastertools/kt_import_fuvi.py:94-113 | returns `ImportFuviSpec` |
| FuviImport.ProcessBytes | katastertools/kt_import_fuvi.py:76-99 | `process_file` on an open binary file returns `ProcessBytesSpec`: `NoUser` first, then `TypeError` on the first non-empty line, the bare state for an empty file |
| FuviImport.BytesFileShape | katastertools/kt_import_fuvi.py:94-113 | a binary file: without `USER` nothing is produced; an empty file gives the preamble and `END;`; any other raises `TypeError` |
| FuviImport.AppendUpdates | katastertools/kt_import_fuvi.py:106-110 | the loop appends the three `UPDATE`s of each cadastral area, in order |
| FuviImport.Updates | katastertools/kt_import_fuvi.py:107-110 | three statements per cadastral area |
| FuviImport.AllUpdates | katastertools/kt_import_fuvi.py:106-110 | three statements per cadastral area listed |
| FuviImport.ReadLines | katastertools/kt_import_fuvi.py:86-89 | the lines read are a prefix of the file without empty strings, stopped by an empty string |
| FuviImport.ReadLinesWithoutEmpty | katastertools/kt_import_fuvi.py:86-89 | a file without empty strings is read whole |
| FuviImport.ReadLinesStopsAtEmpty | katastertools/kt_import_fuvi.py:86-89 | reading stops at the first empty string |
| FuviImport.FileAgreesWithList | katastertools/kt_import_fuvi.py:60-91 | `process_file` over a reader yielding a list without empty strings gives what `process_list` gives |
| FuviImport.FileStopsAtEmpty | katastertools/kt_import_fuvi.py:76-91 | what follows an empty string in the file is never processed |
| FuviImport.KeyLineStores | katastertools/kt_import_fuvi.py:24-36 | `.KEY VALUE` overwrites `kluce[KEY]` with `VALUE`, and a `KATASTRALNE_UZEMIE` value is appended to `zoznam_ku` |
| FuviImport.KeyLineWithoutValue | katastertools/kt_import_fuvi.py:24-36 | `.KEY` alone stores `""` under `KEY`, and appends `""` to `zoznam_ku` for `KATASTRALNE_UZEMIE` |
| FuviImport.KeyLineIgnoresExtraWords | katastertools/kt_import_fuvi.py:24-36 | `.KEY VALUE EXTRA` acts as `.KEY VALUE`: a third word is ignored |
| FuviImport.BlankLineChangesNothing | katastertools/kt_import_fuvi.py:38-39 | an empty line changes nothing |
| FuviImport.RecordLine | katastertools/kt_import_fuvi.py:40-57 | a record raises `KeyError` exactly when one of the three keys is unset; otherwise it adds one statement and leaves `kluce` and `zoznam_ku` alone |
| FuviImport.LineEffectAccounted | katastertools/kt_import_fuvi.py:23-57 | a record adds one `INSERT`, a key line adds its cadastral area if it names one, and nothing else changes the two lists |
| FuviImport.LinesEffectAccounting | katastertools/kt_import_fuvi.py:60-73 | a run without exceptions keeps the earlier lines, appends one `INSERT INTO kn_` line per record, and collects the announced cadastral areas in order, duplicates kept |
| FuviImport.LinesEffectAppend | katastertools/kt_import_fuvi.py:70-71 | processing `a + b` is processing `a`, then `b` from the state `a` leaves; the first exception ends the run |
| FuviImport.ListBatchShape | katastertools/kt_import_fuvi.py:66-113 | without `USER` nothing is produced; a batch is the three preamble lines, one `INSERT` per record, then exactly `AllUpdates` of the announced cadastral areas in their order, then `END;` |
| FuviImport.SplitRecord | katastertools/kt_import_fuvi.py:45 | splitting `c1;…;cn;` at `;` gives the names and an empty last part |
| FuviImport.QuotedNames | katastertools/kt_import_fuvi.py:45-46 | the quoted list of `c1;…;cn;` ends with a separator left over from the empty last part |
| FuviImport.ReplaceInQuotedNames | katastertools/kt_import_fuvi.py:47 | removing `KN-` from the quoted list removes it from each name and keeps the quotes and separators |
| FuviImport.DropLeftoverSeparator | katastertools/kt_import_fuvi.py:47 | `[:-2]` removes `,"` of the leftover separator and keeps the closing quote |
| FuviImport.ColumnsQuoteEachName | katastertools/kt_import_fuvi.py:45-47 | the columns are `"ku"` followed by each name without `KN-`, quoted and lower-cased |
| FuviImport.QuoteTail | katastertools/kt_import_fuvi.py:54 | `[:-5]` of the joined fields leaves one `$` after the last field |
| FuviImport.ValuesQuoteEachField | katastertools/kt_import_fuvi.py:53-54 | the values are the cadastral area and each field of `v1;…;vn;`, each between `$$` |
| FuviImport.InsertShape | katastertools/kt_import_fuvi.py:42-57 | a record `v1;…;vn;` under `POLOZKY = c1;…;cn;` gives exactly one `INSERT INTO kn_<table>` with those columns and values |

## Left out

- The file is text with `'\n'` line ends. The difference between byte offsets and character
  counts, which newline translation and cp1250 decoding introduce, is not modelled. So `spat`
  works on character offsets, and no rewind round-trip is claimed.
- `Citac.__init__`'s `os.stat` and the `open` call are left out. The path, whether it is a
  regular file and the file's text are parameters. An `OSError` during the checks is the
  `NotARegularFile` outcome.
- `__del__` is left out; it only calls `zavriet`.
- The `__koniec_suboru` flag of `CitacObjektov` is never read in the code, so it is not modelled.
- The geometry builders and the writer of `katastertools.VgiShp.data` are not part of this model.
  They are the `Builder` parameter: whether `pridaj_riadok` accepts a row, and what `data()`
  returns (the messages, `pocet_uzatvoreni`, and whether there is geometry).
  - `Zapisovac.uloz` is recorded as the list of saved build results.
  - The output-directory `mkdir` and `Zapisovac`'s construction are left out.
- `Vgi2Shp.KnownBuild` reads `pocet_uzatvoreni` of every build as a number. The code's
  `.get("pocet_uzatvoreni", 0)` default for a build without that key is not modelled.
- The conflict check iterates over `bodove_objekty`. It is modelled as the test that the two
  sets intersect, which gives the same outcome.
- `Vgi2Shp.RunObjects` and `Vgi2Shp.ProcessObjects` take a `fuel` bound on the number of objects.
  A conversion that would read more objects ends as `OutOfFuel`, which the code has no
  counterpart for.
- `posun_skoky` returns the segmenter's own list when there are no ranges. The model returns
  the same value, but the sharing between that value and the stored list is not modelled.
- Logging, `ConsoleHandler`, the clock in the log, and `main()` of the three programs are left
  out.
- `sys.exit(2)` is the outcome `Exit2`. An exception that escapes is `Crash`, or an
  `ImportError` value in the FPU generator.
- `upper` and `lower` map only ASCII letters. `str.split()` and `strip` use the whole of
  Python's `isspace` set, as `PyStr.IsSpace` lists it.
- `int()` accepts an optional sign and ASCII digits, with surrounding blanks, but not
  underscores or other Unicode digits.
- Whether a character encodes in Latin-2 is the parameter `latin2`.
- `strptime` with the fixed format is the parameter `parse`.
- The FPU files' decoding (`IBM852`) is left out.
- The clock, the `USER` environment variable and the package version in the SQL preamble are
  parameters. A missing `USER` is the `NoUser` error.
- `import_fuvi`'s dispatch on `Path`, `BufferedRandom` or `list` is the `Input` datatype; the
  opening of the file is left out. A text file is the sequence of strings its `readline`
  returns. An open binary file is the sequence of byte strings its `readline` returns, written
  as strings; only whether the first one is empty matters, since any other line raises
  `TypeError` in `process_line`.
- FuviImport.InsertShape: states the statement only for a record without a trailing newline.
  A record read from a file still ending in `'\n'` gives a last field with the newline, which
  the general `LineEffect` covers.
