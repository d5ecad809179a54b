/**
 * selenium_qt_browser/session_manager.py: saving the window's tabs, chat
 * logs, history and metadata under "last_session", and restoring them when
 * the next window opens.  The session directory is an abstract store from
 * paths to file contents; json.load and json.dump are modelled on `Json`
 * values.
 */
module Session {
  import opened Common
  import opened TabTypes
  import opened Json
  import JsonText
  import opened Browser
  import Spreadsheet

  /** The files under the session directory that the manager reads and writes. */
  datatype Path = TabsFile | ChatsFile | HistoryFile | MetadataFile | NotesEntry(name: string)

  /**
   * A stored file: a JSON document, plain text (which json.load refuses),
   * or a file neither reader can use (truncated or undecodable).
   */
  datatype FileContent = JsonDoc(json: Json) | TextDoc(text: string) | Damaged

  type Store = map<Path, FileContent>

  // ----- spreadsheet keys in a sheet file -----

  /** The text between a key's outer parentheses. */
  function Inner(k: string): string
    requires |k| >= 2
  {
    k[1..|k| - 1]
  }

  predicate Parenthesised(k: string) {
    |k| >= 2 && k[0] == '(' && k[|k| - 1] == ')'
  }

  /** `k.startswith("(") and k.endswith(")")`, written with indices. */
  lemma ParenthesisedMeans(k: string)
    ensures Parenthesised(k) <==> StartsWith(k, "(") && EndsWith(k, ")")
  {
    if StartsWith(k, "(") && EndsWith(k, ")") {
      assert k[0] == '(' && k[|k| - 1] == ')';
    }
  }

  /** The comma-separated parts of a parenthesised key: two integers make a cell, two other parts stay text. */
  function DecodeParts(k: string, parts: seq<string>): Option<SheetKey> {
    if |parts| == 2 then
      match (ParseInt(parts[0]), ParseInt(parts[1]))
      case (Some(a), Some(b)) => Some(CellKey(Spreadsheet.Cell(a, b)))
      case _ => Some(TextKey(k))
    else None
  }

  /**
   * How `_load_tabs` turns one key of a sheet file back into a key of the
   * spreadsheet's dict.  `None` is a key the loop drops.
   */
  function DecodeKey(k: string): (r: Option<SheetKey>)
    ensures r.Some? && r.value.TextKey? ==> r.value.text == k
  {
    if Parenthesised(k) then DecodeParts(k, Split(Inner(k), ',')) else Some(TextKey(k))
  }

  /** A key is dropped exactly when it is parenthesised without exactly one comma inside. */
  lemma DecodeKeyDrops(k: string)
    ensures DecodeKey(k).None? <==> Parenthesised(k) && CountChar(Inner(k), ',') != 1
  {
    if Parenthesised(k) {
      SplitJoin(Inner(k), ',');
    }
  }

  /** The text a corrected save writes for a key: `"(row,col)"` for a cell, a text key as it is. */
  function EncodeKey(k: SheetKey): string {
    match k
    case CellKey(c) => "(" + IntToString(c.row) + "," + IntToString(c.col) + ")"
    case TextKey(t) => t
  }

  /** A key the program can hold: the decoder gives it back from its own text. */
  predicate WellFormedKey(k: SheetKey) {
    DecodeKey(EncodeKey(k)) == Some(k)
  }

  predicate SheetWellFormed(sheet: map<SheetKey, Json>) {
    forall k :: k in sheet ==> WellFormedKey(k)
  }

  lemma IntToStringHasNoComma(i: int)
    ensures ',' !in IntToString(i)
  {
    var s := IntToString(i);
    var n: nat := if i < 0 then -i else i;
    var d := NatToString(n);
    if i < 0 {
      assert s == "-" + d;
      assert forall j :: 1 <= j < |s| ==> s[j] == d[j - 1];
    }
    assert forall j :: 0 <= j < |s| ==> s[j] != ',';
  }

  /** Every cell, negative coordinates included, survives encoding and decoding. */
  lemma CellKeyWellFormed(c: Spreadsheet.Cell)
    ensures WellFormedKey(CellKey(c))
  {
    var a, b := IntToString(c.row), IntToString(c.col);
    var k := EncodeKey(CellKey(c));
    var inner := a + "," + b;
    IntToStringHasNoComma(c.row);
    IntToStringHasNoComma(c.col);
    assert k == "(" + inner + ")";
    assert Parenthesised(k) && Inner(k) == inner;
    assert inner[..|a|] == a && inner[|a| + 1..] == b;
    SplitOneSep(inner, ',', |a|);
    ParseIntToString(c.row);
    ParseIntToString(c.col);
    assert DecodeParts(k, [a, b]) == Some(CellKey(c));
  }

  /** Whatever the decoder produces, it produces again from the key's own text. */
  lemma DecodedKeysWellFormed(s: string)
    requires DecodeKey(s).Some?
    ensures WellFormedKey(DecodeKey(s).value)
  {
    match DecodeKey(s).value
    case CellKey(c) => CellKeyWellFormed(c);
    case TextKey(t) =>
  }

  /** A key whose parts are integers becomes a cell. */
  lemma DecodeCellExample()
    ensures DecodeKey("(0,1)") == Some(CellKey(Spreadsheet.Cell(0, 1)))
  {
    assert Inner("(0,1)") == "0,1";
    SplitOneSep("0,1", ',', 1);
    assert "0,1"[..1] == "0" && "0,1"[2..] == "1";
    ParseIntToString(0);
    ParseIntToString(1);
  }

  /** A parenthesised key with two non-integer parts stays text. */
  lemma DecodeTextExample()
    ensures DecodeKey("(a,b)") == Some(TextKey("(a,b)"))
  {
    assert Inner("(a,b)") == "a,b";
    SplitOneSep("a,b", ',', 1);
    assert "a,b"[..1] == "a";
    ParseIntNeedsDigit("a");
  }

  // ----- sheet files -----

  /** What Python's json module does with a key that is neither text, number, bool nor None. */
  datatype DumpError = TupleKey

  /**
   * `json.dump(tab.spreadsheet_model.data, f)` as written: the json module
   * refuses tuple keys, so any edited cell makes the dump raise.
   */
  function DumpSheetAsWritten(sheet: map<SheetKey, Json>): (r: Result<Json, DumpError>)
    ensures r.Ok? <==> forall k :: k in sheet ==> k.TextKey?
    ensures r.Ok? ==> r.value == JObj(TextEntries(sheet))
  {
    if exists k :: k in sheet && k.CellKey? then Err(TupleKey)
    else Ok(JObj(TextEntries(sheet)))
  }

  /** The entries of a sheet whose keys are text, as a JSON object. */
  function TextEntries(sheet: map<SheetKey, Json>): (r: map<string, Json>)
    ensures forall t :: t in r <==> TextKey(t) in sheet
  {
    map t | t in (set k | k in sheet && k.TextKey? :: k.text) :: sheet[TextKey(t)]
  }

  /** A sheet with one edited cell cannot be saved as written. */
  lemma EditedSheetCannotBeSaved()
    ensures DumpSheetAsWritten(map[CellKey(Spreadsheet.Cell(0, 0)) := JStr("x")]).Err?
  {
    var sheet := map[CellKey(Spreadsheet.Cell(0, 0)) := JStr("x")];
    assert CellKey(Spreadsheet.Cell(0, 0)) in sheet;
  }

  /** The corrected dump: every key written as the text the loader turns back into it. */
  function EncodeSheet(sheet: map<SheetKey, Json>): (r: map<string, Json>)
    requires SheetWellFormed(sheet)
    ensures forall k :: k in sheet ==> EncodeKey(k) in r && r[EncodeKey(k)] == sheet[k]
    ensures forall s :: s in r ==> DecodeKey(s).Some? && DecodeKey(s).value in sheet
  {
    map s | s in (set k | k in sheet :: EncodeKey(k)) :: sheet[DecodeKey(s).value]
  }

  /**
   * `converted_data` after the loop over a sheet file's items: every key
   * the decoder keeps is there, holding the value of one of the stored
   * keys that denote it.  Which one wins when two stored keys denote the
   * same cell depends on the file's key order, which `Json` objects do not
   * record.
   */
  ghost predicate IsDecoding(data: map<string, Json>, out: map<SheetKey, Json>) {
    (forall k :: k in out ==> exists s :: s in data && DecodeKey(s) == Some(k) && out[k] == data[s]) &&
    (forall s :: s in data && DecodeKey(s).Some? ==> DecodeKey(s).value in out)
  }

  /** Every sheet file has a conversion. */
  lemma {:induction false} DecodingExists(data: map<string, Json>)
    ensures exists out :: IsDecoding(data, out)
    decreases |data.Keys|
  {
    if data.Keys == {} {
      assert IsDecoding(data, map[]);
    } else {
      var s :| s in data;
      var rest := data - {s};
      assert rest.Keys == data.Keys - {s};
      DecodingExists(rest);
      var out :| IsDecoding(rest, out);
      assert data == rest[s := data[s]];
      var extended := DecodingStep(rest, out, s, data[s]);
    }
  }

  /** Every decoded cell keeps its source key when the file gains a new key. */
  lemma DecodedKept(rest: map<string, Json>, out: map<SheetKey, Json>, s: string, v: Json)
    requires IsDecoding(rest, out) && s !in rest
    ensures forall k :: k in out ==> exists s' :: s' in rest[s := v] && DecodeKey(s') == Some(k) && out[k] == rest[s := v][s']
  {
    var data := rest[s := v];
    forall k | k in out
      ensures exists s' :: s' in data && DecodeKey(s') == Some(k) && out[k] == data[s']
    {
      var s' :| s' in rest && DecodeKey(s') == Some(k) && out[k] == rest[s'];
      assert s' in data && data[s'] == rest[s'];
    }
  }

  /** A conversion of a sheet file extends to one more (new) key. */
  lemma DecodingStep(rest: map<string, Json>, out: map<SheetKey, Json>, s: string, v: Json) returns (extended: map<SheetKey, Json>)
    requires IsDecoding(rest, out) && s !in rest
    ensures IsDecoding(rest[s := v], extended)
  {
    var data := rest[s := v];
    DecodedKept(rest, out, s, v);
    if DecodeKey(s).None? || DecodeKey(s).value in out {
      extended := out;
    } else {
      var key := DecodeKey(s).value;
      extended := out[key := v];
      forall k | k in extended
        ensures exists s' :: s' in data && DecodeKey(s') == Some(k) && extended[k] == data[s']
      {
        if k == key {
          assert s in data && data[s] == v;
        }
      }
    }
  }

  /** Conversions for the records after the one that raised, which the loader never reads. */
  lemma PadSheets(recs: seq<Json>, store: Store, sheets: seq<map<SheetKey, Json>>) returns (padded: seq<map<SheetKey, Json>>)
    requires |sheets| <= |recs| && SheetsFit(recs[..|sheets|], store, sheets)
    ensures SheetsFit(recs, store, padded) && padded[..|sheets|] == sheets
  {
    padded := sheets;
    while |padded| < |recs|
      invariant |sheets| <= |padded| <= |recs| && padded[..|sheets|] == sheets
      invariant SheetsFit(recs[..|padded|], store, padded)
      decreases |recs| - |padded|
    {
      var d: map<SheetKey, Json> := map[];
      if RecordSheet(recs[|padded|], store).Found? {
        DecodingExists(RecordSheet(recs[|padded|], store).value);
        d :| IsDecoding(RecordSheet(recs[|padded|], store).value, d);
      }
      assert recs[..|padded| + 1][..|padded|] == recs[..|padded|];
      padded := padded + [d];
    }
    assert recs[..|padded|] == recs;
  }

  /** Saving with the corrected dump and loading gives the sheet back. */
  lemma SheetRoundTrip(sheet: map<SheetKey, Json>, out: map<SheetKey, Json>)
    requires SheetWellFormed(sheet) && IsDecoding(EncodeSheet(sheet), out)
    ensures out == sheet
  {
    var data := EncodeSheet(sheet);
    forall k | k in sheet
      ensures k in out
    {
      assert EncodeKey(k) in data;
    }
    forall k | k in out
      ensures k in sheet && out[k] == sheet[k]
    {
      var s :| s in data && DecodeKey(s) == Some(k) && out[k] == data[s];
    }
  }

  /** The key-conversion loop of `_load_tabs` (session_manager.py:244-256). */
  method DecodeSheet(data: map<string, Json>) returns (out: map<SheetKey, Json>)
    ensures IsDecoding(data, out)
    ensures forall k :: k in out ==> WellFormedKey(k)
  {
    out := map[];
    var todo := data.Keys;
    ghost var done: set<string> := {};
    while todo != {}
      invariant todo + done == data.Keys && todo !! done
      invariant forall k :: k in out ==> exists s :: s in done && DecodeKey(s) == Some(k) && out[k] == data[s]
      invariant forall s :: s in done && DecodeKey(s).Some? ==> DecodeKey(s).value in out
      invariant forall k :: k in out ==> WellFormedKey(k)
      decreases |todo|
    {
      var s :| s in todo;
      match DecodeKey(s) {
        case None =>
        case Some(k) =>
          DecodedKeysWellFormed(s);
          out := out[k := data[s]];
      }
      todo := todo - {s};
      done := done + {s};
    }
  }

  // ----- saving -----

  function SheetFileName(i: nat): string {
    "sheet_" + NatToString(i) + ".json"
  }

  function NoteFileName(i: nat): string {
    "note_" + NatToString(i) + ".txt"
  }

  /** A file name built from a tab index names that index only. */
  lemma IndexedNamesDistinct(prefix: string, suffix: string, i: nat, j: nat)
    requires i != j
    ensures prefix + NatToString(i) + suffix != prefix + NatToString(j) + suffix
  {
    var a, b := NatToString(i), NatToString(j);
    var x, y := prefix + a + suffix, prefix + b + suffix;
    if x == y {
      assert |a| == |b|;
      assert a == x[|prefix|..|prefix| + |a|];
      assert b == y[|prefix|..|prefix| + |b|];
      DigitsOfNat(i);
      DigitsOfNat(j);
    }
  }

  /** Distinct tabs get distinct note and sheet files, and no note file is a sheet file. */
  lemma FileNamesDistinct(i: nat, j: nat)
    ensures i != j ==> SheetFileName(i) != SheetFileName(j) && NoteFileName(i) != NoteFileName(j)
    ensures NoteFileName(i) != SheetFileName(j)
  {
    assert NoteFileName(i)[0] != SheetFileName(j)[0];
    if i != j {
      IndexedNamesDistinct("sheet_", ".json", i, j);
      IndexedNamesDistinct("note_", ".txt", i, j);
    }
  }

  /**
   * The record `_save_tabs` writes for tab `i`: its index and title, and
   * for a tab with a `tab_type` the type's name plus the URL of a browser
   * page, the note file of a note page or the sheet file of a spreadsheet.
   */
  function TabRecord(i: nat, t: Tab): (r: map<string, Json>)
    ensures "index" in r && r["index"] == JInt(i) && "title" in r && r["title"] == JStr(t.title)
    ensures "type" in r <==> TypeOf(t.widget).Some?
    ensures "type" in r ==> r["type"] == JStr(Name(TypeOf(t.widget).value))
    ensures "url" in r <==> t.widget.BrowserTab?
    ensures t.widget.BrowserTab? ==> r["url"] == JStr(t.widget.url)
    ensures "sheet_file" in r <==> t.widget.NotePageExcTab?
    ensures t.widget.NotePageExcTab? ==> r["sheet_file"] == JStr(SheetFileName(i))
    ensures "note_file" in r <==> t.widget.NotePageTab?
    ensures t.widget.NotePageTab? ==> r["note_file"] == JStr(NoteFileName(i))
  {
    var base := map["index" := JInt(i), "title" := JStr(t.title)];
    match TypeOf(t.widget)
    case None => base
    case Some(k) =>
      var typed := base["type" := JStr(Name(k))];
      match t.widget
      case BrowserTab(url) => typed["url" := JStr(url)]
      case NotePageTab(_) => typed["note_file" := JStr(NoteFileName(i))]
      case NotePageExcTab(_) => typed["sheet_file" := JStr(SheetFileName(i))]
      case _ => typed
  }

  /** The list written to tabs.json, one record per tab in tab order. */
  function TabRecords(tabs: seq<Tab>): (r: seq<Json>)
    decreases |tabs|
  {
    if tabs == [] then []
    else TabRecords(tabs[..|tabs| - 1]) + [JObj(TabRecord(|tabs| - 1, tabs[|tabs| - 1]))]
  }

  /** Record `i` of tabs.json describes tab `i`. */
  lemma {:induction false} TabRecordsIndexed(tabs: seq<Tab>)
    ensures |TabRecords(tabs)| == |tabs|
    ensures forall i :: 0 <= i < |tabs| ==> TabRecords(tabs)[i] == JObj(TabRecord(i, tabs[i]))
    decreases |tabs|
  {
    if tabs != [] {
      var front := tabs[..|tabs| - 1];
      TabRecordsIndexed(front);
      assert forall i :: 0 <= i < |front| ==> front[i] == tabs[i];
    }
  }

  predicate SheetsWellFormed(tabs: seq<Tab>) {
    forall i :: 0 <= i < |tabs| && tabs[i].widget.NotePageExcTab? ==> SheetWellFormed(tabs[i].widget.sheet)
  }

  /**
   * The files `_save_tabs` writes beside tabs.json: the text of each note
   * page, and the cells of each spreadsheet, with the corrected dump.
   */
  function WriteTabFiles(store: Store, tabs: seq<Tab>): (r: Store)
    requires SheetsWellFormed(tabs)
    decreases |tabs|
  {
    if tabs == [] then store
    else
      var i := |tabs| - 1;
      WriteTabFile(WriteTabFiles(store, tabs[..i]), i, tabs[i])
  }

  /** The file `_save_tabs` writes for tab `i`: a note page's text or a spreadsheet's cells. */
  function WriteTabFile(store: Store, i: nat, t: Tab): (r: Store)
    requires t.widget.NotePageExcTab? ==> SheetWellFormed(t.widget.sheet)
  {
    match t.widget
    case NotePageTab(text) => store[NotesEntry(NoteFileName(i)) := TextDoc(text)]
    case NotePageExcTab(sheet) => store[NotesEntry(SheetFileName(i)) := JsonDoc(JObj(EncodeSheet(sheet)))]
    case _ => store
  }

  /** One more tab: one more record, and the files of that tab written over the earlier ones. */
  lemma WriteTabFilesStep(store: Store, tabs: seq<Tab>, i: nat)
    requires SheetsWellFormed(tabs) && i < |tabs|
    ensures SheetsWellFormed(tabs[..i]) && SheetsWellFormed(tabs[..i + 1])
    ensures TabRecords(tabs[..i + 1]) == TabRecords(tabs[..i]) + [JObj(TabRecord(i, tabs[i]))]
    ensures WriteTabFiles(store, tabs[..i + 1]) == WriteTabFile(WriteTabFiles(store, tabs[..i]), i, tabs[i])
  {
    assert tabs[..i + 1][..i] == tabs[..i];
  }

  /** A spreadsheet tab whose data the as-written dump refuses. */
  predicate Unsaveable(t: Tab) {
    t.widget.NotePageExcTab? && DumpSheetAsWritten(t.widget.sheet).Err?
  }

  /** The first tab `_save_tabs` as written fails on, if any. */
  function FirstUnsaveable(tabs: seq<Tab>): (r: Option<nat>)
    ensures r.Some? ==> r.value < |tabs| && Unsaveable(tabs[r.value])
    ensures forall i :: 0 <= i < |tabs| && (r.None? || i < r.value) ==> !Unsaveable(tabs[i])
  {
    if tabs == [] then None
    else if Unsaveable(tabs[0]) then Some(0)
    else match FirstUnsaveable(tabs[1..])
      case None => None
      case Some(k) => Some(k + 1)
  }

  /** A spreadsheet tab with an edited cell stops the as-written save at or before it. */
  lemma EditedSheetAbortsSave(tabs: seq<Tab>, i: nat, c: Spreadsheet.Cell)
    requires i < |tabs| && tabs[i].widget.NotePageExcTab? && CellKey(c) in tabs[i].widget.sheet
    ensures FirstUnsaveable(tabs).Some? && FirstUnsaveable(tabs).value <= i
  {
    assert Unsaveable(tabs[i]);
  }

  /** The first unsaveable tab is the one that is unsaveable with none before it. */
  lemma FirstUnsaveableAt(tabs: seq<Tab>, i: nat)
    requires i < |tabs| && Unsaveable(tabs[i]) && forall j :: 0 <= j < i ==> !Unsaveable(tabs[j])
    ensures FirstUnsaveable(tabs) == Some(i)
  {
    var r := FirstUnsaveable(tabs);
    assert r.Some?;
    assert r.value <= i;
  }

  lemma SaveableStep(tabs: seq<Tab>, i: nat)
    requires i < |tabs| && !Unsaveable(tabs[i]) && forall j :: 0 <= j < i ==> !Unsaveable(tabs[j])
    ensures forall j :: 0 <= j < i + 1 ==> !Unsaveable(tabs[j])
  {
  }

  /** Where the as-written dump succeeds it writes what the corrected dump writes. */
  lemma AsWrittenDumpAgrees(sheet: map<SheetKey, Json>)
    requires SheetWellFormed(sheet) && DumpSheetAsWritten(sheet).Ok?
    ensures DumpSheetAsWritten(sheet).value == JObj(EncodeSheet(sheet))
  {
    var e := EncodeSheet(sheet);
    var t := TextEntries(sheet);
    forall s | s in e ensures s in t && t[s] == e[s] {
      var k := DecodeKey(s).value;
      assert k.TextKey? && EncodeKey(k) in e;
    }
    forall s | s in t ensures s in e {
      assert EncodeKey(TextKey(s)) == s;
    }
    assert e == t;
  }

  /** Writing the tabs' files touches only note and sheet files. */
  lemma {:induction false} WriteTabFilesOnlyNotes(store: Store, tabs: seq<Tab>, p: Path)
    requires SheetsWellFormed(tabs) && !p.NotesEntry?
    ensures Stored(WriteTabFiles(store, tabs), p) == Stored(store, p)
    decreases |tabs|
  {
    if tabs != [] {
      WriteTabFilesOnlyNotes(store, tabs[..|tabs| - 1], p);
    }
  }

  /**
   * The files after `_save_tabs` as written stopped at the first sheet it
   * could not dump: the earlier tabs' files, and that sheet's file holding
   * only an opening brace.
   */
  function AbortedSave(store: Store, tabs: seq<Tab>): (r: Store)
    requires SheetsWellFormed(tabs) && FirstUnsaveable(tabs).Some?
  {
    var k := FirstUnsaveable(tabs).value;
    WriteTabFilesStep(store, tabs, k);
    WriteTabFiles(store, tabs[..k])[NotesEntry(SheetFileName(k)) := Damaged]
  }

  /**
   * An aborted save leaves tabs.json, chats.json, the history and the
   * metadata as they were, and the refused sheet's file unreadable.
   */
  lemma AbortedSaveKeepsSessionFiles(store: Store, tabs: seq<Tab>, p: Path)
    requires SheetsWellFormed(tabs) && FirstUnsaveable(tabs).Some? && !p.NotesEntry?
    ensures Stored(AbortedSave(store, tabs), p) == Stored(store, p)
    ensures Stored(AbortedSave(store, tabs), NotesEntry(SheetFileName(FirstUnsaveable(tabs).value))) == Some(Damaged)
  {
    var k := FirstUnsaveable(tabs).value;
    WriteTabFilesStep(store, tabs, k);
    WriteTabFilesOnlyNotes(store, tabs[..k], p);
  }

  /** What a save leaves behind: the files, and whether it finished. */
  datatype SaveOutcome = SaveOutcome(files: Store, ok: bool)

  /**
   * `save_session` with the corrected dump: tabs, chat logs, history, then
   * the metadata, whose update alone can fail.
   */
  function SessionSave(store: Store, tabs: seq<Tab>, now: string, stamp: string): (r: SaveOutcome)
    requires SheetsWellFormed(tabs)
    ensures TabsFile in r.files && r.files[TabsFile] == JsonDoc(JArr(TabRecords(tabs)))
    ensures ChatsFile in r.files && r.files[ChatsFile] == JsonDoc(JArr(ChatLogs(tabs)))
    ensures r.ok <==> Metadata(Stored(store, MetadataFile), tabs, now, stamp).Ok?
  {
    WriteTabFilesOnlyNotes(store, tabs, MetadataFile);
    var afterTabs := WriteTabFiles(store, tabs)[TabsFile := JsonDoc(JArr(TabRecords(tabs)))];
    var afterChats := afterTabs[ChatsFile := JsonDoc(JArr(ChatLogs(tabs)))];
    var afterHistory := afterChats[HistoryFile := JsonDoc(JArr(MergedHistory(Stored(afterChats, HistoryFile), HistoryEntries(tabs, now))))];
    var m := Metadata(Stored(afterHistory, MetadataFile), tabs, now, stamp);
    SaveOutcome(if m.Ok? then afterHistory[MetadataFile := JsonDoc(JObj(m.value))] else afterHistory, m.Ok?)
  }

  /** After the save, each note page's file holds its text. */
  lemma {:induction false} WriteNoteFiles(store: Store, tabs: seq<Tab>, i: nat)
    requires SheetsWellFormed(tabs) && i < |tabs| && tabs[i].widget.NotePageTab?
    ensures NotesEntry(NoteFileName(i)) in WriteTabFiles(store, tabs)
    ensures WriteTabFiles(store, tabs)[NotesEntry(NoteFileName(i))] == TextDoc(tabs[i].widget.text)
    decreases |tabs|
  {
    var n := |tabs| - 1;
    if i < n {
      assert tabs[..n][i] == tabs[i];
      WriteNoteFiles(store, tabs[..n], i);
      FileNamesDistinct(i, n);
      FileNamesDistinct(n, i);
    }
  }

  /** After the save, each spreadsheet tab's file holds its encoded sheet. */
  lemma {:induction false} WriteSheetsFiles(store: Store, tabs: seq<Tab>, i: nat)
    requires SheetsWellFormed(tabs) && i < |tabs| && tabs[i].widget.NotePageExcTab?
    ensures NotesEntry(SheetFileName(i)) in WriteTabFiles(store, tabs)
    ensures WriteTabFiles(store, tabs)[NotesEntry(SheetFileName(i))] == JsonDoc(JObj(EncodeSheet(tabs[i].widget.sheet)))
    decreases |tabs|
  {
    var n := |tabs| - 1;
    if i < n {
      assert tabs[..n][i] == tabs[i];
      WriteSheetsFiles(store, tabs[..n], i);
      FileNamesDistinct(i, n);
      FileNamesDistinct(n, i);
    }
  }

  /** The save touches no file but the note and sheet files of its tabs. */
  lemma {:induction false} WriteSheetsKeepsOthers(store: Store, tabs: seq<Tab>, p: Path)
    requires SheetsWellFormed(tabs) && p in store
    requires forall i :: 0 <= i < |tabs| ==> p != NotesEntry(SheetFileName(i)) && p != NotesEntry(NoteFileName(i))
    ensures p in WriteTabFiles(store, tabs) && WriteTabFiles(store, tabs)[p] == store[p]
    decreases |tabs|
  {
    if tabs != [] {
      WriteSheetsKeepsOthers(store, tabs[..|tabs| - 1], p);
    }
  }

  // ----- chat logs -----

  /** The messages `_save_chat_logs` records from a chat layout: only widgets exposing both labels. */
  function SavedMessages(lines: seq<ChatLine>): (r: seq<Json>)
    ensures |r| <= |lines|
    ensures (forall j :: 0 <= j < |lines| ==> !lines[j].exposesLabels) ==> r == []
    decreases |lines|
  {
    if lines == [] then []
    else
      var before := SavedMessages(lines[..|lines| - 1]);
      var l := lines[|lines| - 1];
      if l.exposesLabels then before + [JObj(map["sender" := JStr(l.sender), "message" := JStr(l.message)])]
      else before
  }

  /** The list written to chats.json: one log per tab whose `tab_type` is CHAT. */
  function ChatLogs(tabs: seq<Tab>): seq<Json>
    decreases |tabs|
  {
    if tabs == [] then []
    else
      var i := |tabs| - 1;
      var before := ChatLogs(tabs[..i]);
      if TypeOf(tabs[i].widget) == Some(Chat) then before + [ChatLog(i, tabs[i].widget)]
      else before
  }

  /** The widgets of a page's `chat_layout`; a page without one has none. */
  function ChatLayout(w: Widget): seq<ChatLine> {
    match w
    case ChatTab(lines) => lines
    case _ => []
  }

  /** The record `_save_chat_logs` writes for the chat page at index `i`. */
  function ChatLog(i: int, w: Widget): Json {
    JObj(map["tab_index" := JInt(i), "messages" := JArr(SavedMessages(ChatLayout(w)))])
  }

  /** Since no widget is tagged CHAT, chats.json always receives an empty list. */
  lemma {:induction false} NoChatLogIsSaved(tabs: seq<Tab>)
    ensures ChatLogs(tabs) == []
    decreases |tabs|
  {
    if tabs != [] {
      NoChatLogIsSaved(tabs[..|tabs| - 1]);
    }
  }

  // ----- history -----

  /** Number of tabs whose `tab_type` is `k`. */
  function Count(tabs: seq<Tab>, k: TabType): nat
    decreases |tabs|
  {
    if tabs == [] then 0
    else Count(tabs[..|tabs| - 1], k) + (if TypeOf(tabs[|tabs| - 1].widget) == Some(k) then 1 else 0)
  }

  /** The entries `_save_history` makes: one per browser tab, in tab order, stamped `now`. */
  function HistoryEntries(tabs: seq<Tab>, now: string): (r: seq<Json>)
    decreases |tabs|
  {
    if tabs == [] then []
    else
      var before := HistoryEntries(tabs[..|tabs| - 1], now);
      var t := tabs[|tabs| - 1];
      if TypeOf(t.widget) == Some(Browser) && t.widget.BrowserTab? then
        before + [JObj(map["url" := JStr(t.widget.url), "title" := JStr(t.title), "timestamp" := JStr(now)])]
      else before
  }

  /** There is exactly one new entry per browser tab. */
  lemma {:induction false} HistoryEntriesPerBrowserTab(tabs: seq<Tab>, now: string)
    ensures |HistoryEntries(tabs, now)| == Count(tabs, Browser)
    decreases |tabs|
  {
    if tabs != [] {
      HistoryEntriesPerBrowserTab(tabs[..|tabs| - 1], now);
    }
  }

  /**
   * The list written to history.json: the stored list followed by the new
   * entries when the stored file is a JSON list; the new entries alone when
   * it is missing, unreadable or not a list (`list + list` fails and the
   * error is caught).
   */
  function MergedHistory(stored: Option<FileContent>, added: seq<Json>): (r: seq<Json>)
    ensures stored.Some? && stored.value.JsonDoc? && stored.value.json.JArr? ==>
      r == stored.value.json.items + added
    ensures !(stored.Some? && stored.value.JsonDoc? && stored.value.json.JArr?) ==> r == added
  {
    match stored
    case Some(JsonDoc(JArr(items))) => items + added
    case _ => added
  }

  /** Saving keeps the old history in front and adds this session's pages after it. */
  lemma HistoryKeepsOlderEntriesFirst(items: seq<Json>, tabs: seq<Tab>, now: string)
    ensures var r := MergedHistory(Some(JsonDoc(JArr(items))), HistoryEntries(tabs, now));
      r[..|items|] == items && r[|items|..] == HistoryEntries(tabs, now) &&
      |r| == |items| + Count(tabs, Browser)
  {
    HistoryEntriesPerBrowserTab(tabs, now);
  }

  // ----- metadata -----

  /** The `tab_types` dict: how many tabs carry each `tab_type` name. */
  function TypeCounts(tabs: seq<Tab>): map<string, nat>
    decreases |tabs|
  {
    if tabs == [] then map[]
    else
      var before := TypeCounts(tabs[..|tabs| - 1]);
      match TypeOf(tabs[|tabs| - 1].widget)
      case None => before
      case Some(k) => before[Name(k) := (if Name(k) in before then before[Name(k)] else 0) + 1]
  }

  /** Each type name is counted exactly, names of absent types are missing, and nothing else is a key. */
  lemma {:induction false} TypeCountsExact(tabs: seq<Tab>)
    ensures forall k :: Name(k) in TypeCounts(tabs) <==> Count(tabs, k) > 0
    ensures forall k :: Name(k) in TypeCounts(tabs) ==> TypeCounts(tabs)[Name(k)] == Count(tabs, k)
    ensures forall n :: n in TypeCounts(tabs) ==> FromName(n).Some?
    decreases |tabs|
  {
    if tabs != [] {
      TypeCountsExact(tabs[..|tabs| - 1]);
      forall k1: TabType, k2: TabType | Name(k1) == Name(k2)
        ensures k1 == k2
      {
        NameRoundTrip(k1);
        NameRoundTrip(k2);
      }
      match TypeOf(tabs[|tabs| - 1].widget) {
        case None =>
        case Some(k) => NameRoundTrip(k);
      }
    }
  }

  /** Number of tabs that carry a `tab_type` at all. */
  function TypedCount(tabs: seq<Tab>): nat
    decreases |tabs|
  {
    if tabs == [] then 0
    else TypedCount(tabs[..|tabs| - 1]) + (if TypeOf(tabs[|tabs| - 1].widget).Some? then 1 else 0)
  }

  /** The `tab_types` counts add up to the number of tagged tabs. */
  lemma {:induction false} CountsAddUp(tabs: seq<Tab>)
    ensures Count(tabs, Browser) + Count(tabs, Chat) + Count(tabs, Terminal) + Count(tabs, NotePage) +
      Count(tabs, NotePageExc) + Count(tabs, ResourceMonitor) + Count(tabs, AiBrowser) == TypedCount(tabs)
    decreases |tabs|
  {
    if tabs != [] {
      CountsAddUp(tabs[..|tabs| - 1]);
    }
  }

  function CountsAsJson(counts: map<string, nat>): map<string, Json> {
    map n | n in counts :: JInt(counts[n])
  }

  datatype MetadataError = NotADict

  /**
   * `_update_metadata`: the stored metadata when it is a JSON object, a
   * fresh {name, created} when it is missing or unparsable, then updated,
   * timestamp, tab_count and tab_types set.  Stored JSON that is not an
   * object makes the item assignment raise.
   */
  function Metadata(stored: Option<FileContent>, tabs: seq<Tab>, now: string, stamp: string): (r: Result<map<string, Json>, MetadataError>)
  {
    var start: Result<map<string, Json>, MetadataError> :=
      match stored
      case Some(JsonDoc(j)) => if j.JObj? then Ok(j.fields) else Err(NotADict)
      case _ => Ok(map["name" := JStr("Last Session"), "created" := JStr(now)]);
    match start
    case Err(e) => Err(e)
    case Ok(m) =>
      Ok(m["updated" := JStr(now)]["timestamp" := JStr(stamp)]["tab_count" := JInt(|tabs|)]
        ["tab_types" := JObj(CountsAsJson(TypeCounts(tabs)))])
  }

  /** An existing creation time and name survive every save; tab_count is the number of tabs. */
  lemma MetadataKeepsCreation(fields: map<string, Json>, tabs: seq<Tab>, now: string, stamp: string)
    ensures var r := Metadata(Some(JsonDoc(JObj(fields))), tabs, now, stamp);
      r.Ok? && r.value["tab_count"] == JInt(|tabs|) && r.value["updated"] == JStr(now) &&
      ("created" in fields ==> r.value["created"] == fields["created"]) &&
      ("name" in fields ==> r.value["name"] == fields["name"])
  {
  }

  /** Without readable metadata the session is called "Last Session" and created now. */
  lemma MetadataStartsFresh(stored: Option<FileContent>, tabs: seq<Tab>, now: string, stamp: string)
    requires stored.None? || !stored.value.JsonDoc?
    ensures var r := Metadata(stored, tabs, now, stamp);
      r.Ok? && r.value["name"] == JStr("Last Session") && r.value["created"] == JStr(now)
  {
  }

  /** Metadata that parses to anything but an object makes the save raise. */
  lemma MetadataRejectsNonObjects(j: Json, tabs: seq<Tab>, now: string, stamp: string)
    requires !j.JObj?
    ensures Metadata(Some(JsonDoc(j)), tabs, now, stamp).Err?
  {
  }

  // ----- restoring -----

  /**
   * The items a `for x in value:` loop of the loader visits, when every
   * item must then answer `.get`: a list's items; nothing for an empty
   * dict or string; an error for anything else (a non-empty dict or string
   * yields strings, which have no `.get`; other values are not iterable).
   */
  function Rows(j: Json): Option<seq<Json>> {
    match j
    case JArr(items) => Some(items)
    case JObj(fields) => if |fields| == 0 then Some([]) else None
    case JStr(s) => if s == "" then Some([]) else None
    case _ => None
  }

  /** The outcome of a restore step: the window's pages, and whether no exception was raised. */
  datatype Loaded = Loaded(state: TabState, ok: bool)

  /** Looking up a file named by a record: no usable name or no such file, a file that raises, or its content. */
  datatype Lookup<T> = Skip | Raises | Found(value: T)

  /** The file a record names under `key`: skipped when the name is falsy or the file is missing. */
  function NamedFile(fields: map<string, Json>, key: string, store: Store): Lookup<FileContent> {
    var name := Get(fields, key, JNull);
    if !Truthy(name) then Skip
    else if !name.JStr? then Raises
    else if NotesEntry(name.s) !in store then Skip
    else Found(store[NotesEntry(name.s)])
  }

  /** What reading a stored file as text gives: a JSON file reads as the text json.dump wrote. */
  function ReadText(f: FileContent): Option<string> {
    match f
    case TextDoc(text) => Some(text)
    case JsonDoc(j) => Some(JsonText.Dumped(j))
    case Damaged => None
  }

  /** The note text to load: the file's contents read as text. */
  function NoteText(fields: map<string, Json>, store: Store): Lookup<string> {
    match NamedFile(fields, "note_file", store)
    case Skip => Skip
    case Raises => Raises
    case Found(f) => if ReadText(f).Some? then Found(ReadText(f).value) else Raises
  }

  /** The sheet data to convert: a sheet file that json.load turns into a dict. */
  function SheetData(fields: map<string, Json>, store: Store): Lookup<map<string, Json>> {
    match NamedFile(fields, "sheet_file", store)
    case Skip => Skip
    case Raises => Raises
    case Found(f) => if f.JsonDoc? && f.json.JObj? then Found(f.json.fields) else Raises
  }

  /** The sheet data record `rec` leads to, if any. */
  function RecordSheet(rec: Json, store: Store): Lookup<map<string, Json>> {
    if rec.JObj? && Get(rec.fields, "type", JNull) == JStr("NOTEPAGE_EXC") then SheetData(rec.fields, store)
    else Skip
  }

  /** The page kind a saved type name restores; RESOURCE_MONITOR, AI_BROWSER and anything else restore none. */
  function RestoredKind(ty: Json): (r: Option<TabType>)
    ensures r.Some? ==> r.value in {Browser, Chat, Terminal, NotePage, NotePageExc}
    ensures r.Some? ==> ty == JStr(Name(r.value))
  {
    if ty == JStr("BROWSER") then Some(Browser)
    else if ty == JStr("CHAT") then Some(Chat)
    else if ty == JStr("TERMINAL") then Some(Terminal)
    else if ty == JStr("NOTEPAGE") then Some(NotePage)
    else if ty == JStr("NOTEPAGE_EXC") then Some(NotePageExc)
    else None
  }

  /** Which kind of page a widget is, whatever its `tab_type`. */
  function KindOf(w: Widget): TabType {
    match w
    case BrowserTab(_) => Browser
    case ChatTab(_) => Chat
    case TerminalTab => Terminal
    case NotePageTab(_) => NotePage
    case NotePageExcTab(_) => NotePageExc
    case ResourceMonitorTab => ResourceMonitor
    case AiBrowserTab => AiBrowser
  }

  /** The last page with its widget replaced. */
  function WithLastWidget(s: TabState, w: Widget): (r: TabState)
    requires ValidState(s) && |s.tabs| > 0
    ensures ValidState(r) && |r.tabs| == |s.tabs| && r.current == s.current
    ensures r.tabs[..|s.tabs| - 1] == s.tabs[..|s.tabs| - 1] && r.tabs[|s.tabs| - 1].widget == w
  {
    var n := |s.tabs| - 1;
    TabState(s.tabs[n := Tab(s.tabs[n].title, w)], s.current)
  }

  /** A BROWSER record: a browser page on the saved URL, or on start_url when it is falsy; a URL that is not text raises after the page was added. */
  function RestoreBrowser(s: TabState, startUrl: string, f: map<string, Json>): (r: Loaded)
    requires ValidState(s)
    ensures ValidState(r.state) && s.tabs <= r.state.tabs && |r.state.tabs| == |s.tabs| + 1
    ensures r.state.current == |s.tabs| && KindOf(r.state.tabs[|s.tabs|].widget) == Browser
  {
    var url := Get(f, "url", JNull);
    if !Truthy(url) then Loaded(Added(s, NewTabFor(Browser, startUrl)), true)
    else if url.JStr? then Loaded(Added(s, Tab("Web Browser", BrowserTab(NormalizeUrl(url.s)))), true)
    else Loaded(Added(s, Tab("Web Browser", BrowserTab(""))), false)
  }

  /** A NOTEPAGE record: a note page, holding the named note file's text when there is one. */
  function RestoreNote(s: TabState, startUrl: string, f: map<string, Json>, store: Store): (r: Loaded)
    requires ValidState(s)
    ensures ValidState(r.state) && s.tabs <= r.state.tabs && |r.state.tabs| == |s.tabs| + 1
    ensures r.state.current == |s.tabs| && KindOf(r.state.tabs[|s.tabs|].widget) == NotePage
    ensures r.ok <==> !NoteText(f, store).Raises?
    ensures NoteText(f, store).Found? ==> r.state.tabs[|s.tabs|].widget == NotePageTab(NoteText(f, store).value)
  {
    var added := Added(s, NewTabFor(NotePage, startUrl));
    match NoteText(f, store)
    case Skip => Loaded(added, true)
    case Raises => Loaded(added, false)
    case Found(text) => Loaded(WithLastWidget(added, NotePageTab(text)), true)
  }

  /**
   * A NOTEPAGE_EXC record: a spreadsheet page, holding `sheet` when the
   * named sheet file was read; `sheet` is the converted dict (see
   * `IsDecoding`).
   */
  function RestoreSheet(s: TabState, startUrl: string, f: map<string, Json>, store: Store, sheet: map<SheetKey, Json>): (r: Loaded)
    requires ValidState(s)
    ensures ValidState(r.state) && s.tabs <= r.state.tabs && |r.state.tabs| == |s.tabs| + 1
    ensures r.state.current == |s.tabs| && KindOf(r.state.tabs[|s.tabs|].widget) == NotePageExc
  {
    var added := Added(s, NewTabFor(NotePageExc, startUrl));
    match SheetData(f, store)
    case Skip => Loaded(added, true)
    case Raises => Loaded(added, false)
    case Found(_) => Loaded(WithLastWidget(added, NotePageExcTab(sheet)), true)
  }

  /**
   * One iteration of `_load_tabs`'s loop over the saved records.  A record
   * that is not a dict raises; so does a bad URL or an unreadable named
   * file, after the record's page was added.
   */
  function RestoreRecord(s: TabState, startUrl: string, rec: Json, store: Store, sheet: map<SheetKey, Json>): (r: Loaded)
    requires ValidState(s)
    ensures ValidState(r.state) && s.tabs <= r.state.tabs && |r.state.tabs| <= |s.tabs| + 1
    ensures rec.JObj? && RestoredKind(Get(rec.fields, "type", JNull)).None? ==> r == Loaded(s, true)
    ensures rec.JObj? && RestoredKind(Get(rec.fields, "type", JNull)).Some? ==>
      |r.state.tabs| == |s.tabs| + 1 && r.state.current == |s.tabs| &&
      KindOf(r.state.tabs[|s.tabs|].widget) == RestoredKind(Get(rec.fields, "type", JNull)).value
  {
    if !rec.JObj? then Loaded(s, false)
    else
      var f := rec.fields;
      match RestoredKind(Get(f, "type", JNull))
      case None => Loaded(s, true)
      case Some(Browser) => RestoreBrowser(s, startUrl, f)
      case Some(NotePage) => RestoreNote(s, startUrl, f, store)
      case Some(NotePageExc) => RestoreSheet(s, startUrl, f, store, sheet)
      case Some(k) => Loaded(Added(s, NewTabFor(k, startUrl)), true)
  }

  /** Restoring a saved browser record reopens its URL, under the title "Web Browser" rather than the saved one. */
  lemma RestoredBrowserTab(s: TabState, startUrl: string, i: nat, t: Tab, store: Store, sheet: map<SheetKey, Json>)
    requires ValidState(s) && t.widget.BrowserTab? && t.widget.url != ""
    ensures RestoreRecord(s, startUrl, JObj(TabRecord(i, t)), store, sheet) ==
      Loaded(Added(s, Tab("Web Browser", BrowserTab(NormalizeUrl(t.widget.url)))), true)
  {
  }

  /** Saved resource-monitor and AI-browser records come back as nothing at all. */
  lemma UntypedAndSkippedRecords(s: TabState, startUrl: string, i: nat, t: Tab, store: Store, sheet: map<SheetKey, Json>)
    requires ValidState(s)
    requires TypeOf(t.widget).None? || t.widget == ResourceMonitorTab || t.widget == AiBrowserTab
    ensures RestoreRecord(s, startUrl, JObj(TabRecord(i, t)), store, sheet) == Loaded(s, true)
  {
  }

  /**
   * A spreadsheet tab saved with the corrected dump comes back with the same
   * cells, provided its file was not overwritten in between.
   */
  lemma RestoredSheetTab(s: TabState, startUrl: string, tabs: seq<Tab>, i: nat, store: Store, sheet: map<SheetKey, Json>)
    requires ValidState(s) && SheetsWellFormed(tabs) && i < |tabs| && tabs[i].widget.NotePageExcTab?
    requires IsDecoding(EncodeSheet(tabs[i].widget.sheet), sheet)
    ensures var r := RestoreRecord(s, startUrl, JObj(TabRecord(i, tabs[i])), WriteTabFiles(store, tabs), sheet);
      r.ok && |r.state.tabs| == |s.tabs| + 1 && r.state.tabs[|s.tabs|].widget == NotePageExcTab(tabs[i].widget.sheet)
  {
    var rec := TabRecord(i, tabs[i]);
    SheetRecordKind(i, tabs[i]);
    SavedSheetData(store, tabs, i);
    SheetRoundTrip(tabs[i].widget.sheet, sheet);
    RestoreSheetRecord(s, startUrl, rec, WriteTabFiles(store, tabs), sheet);
  }

  /** A note page saved by `_save_tabs` comes back with the same text. */
  lemma RestoredNoteTab(s: TabState, startUrl: string, tabs: seq<Tab>, i: nat, store: Store, sheet: map<SheetKey, Json>)
    requires ValidState(s) && SheetsWellFormed(tabs) && i < |tabs| && tabs[i].widget.NotePageTab?
    ensures var r := RestoreRecord(s, startUrl, JObj(TabRecord(i, tabs[i])), WriteTabFiles(store, tabs), sheet);
      r.ok && |r.state.tabs| == |s.tabs| + 1 && r.state.tabs[|s.tabs|].widget == tabs[i].widget
  {
    var saved := WriteTabFiles(store, tabs);
    WriteNoteFiles(store, tabs, i);
    var rec := TabRecord(i, tabs[i]);
    assert Get(rec, "type", JNull) == JStr("NOTEPAGE");
    assert Get(rec, "note_file", JNull) == JStr(NoteFileName(i));
    assert |NoteFileName(i)| > 0;
    assert NoteText(rec, saved) == Found(tabs[i].widget.text);
  }

  /**
   * A note file that holds a JSON document (say, a sheet file named as a
   * note file) is read as text like any other: the note page shows the text
   * json.dump wrote, and the restore goes on.
   */
  lemma JsonNoteFileReadAsText(s: TabState, startUrl: string, f: map<string, Json>, store: Store, name: string, j: Json)
    requires ValidState(s) && "note_file" in f && f["note_file"] == JStr(name) && name != ""
    requires NotesEntry(name) in store && store[NotesEntry(name)] == JsonDoc(j)
    ensures var r := RestoreNote(s, startUrl, f, store);
      r.ok && r.state.tabs[|s.tabs|].widget == NotePageTab(JsonText.Dumped(j))
  {
    assert NoteText(f, store) == Found(JsonText.Dumped(j));
  }

  lemma SheetRecordKind(i: nat, t: Tab)
    requires t.widget.NotePageExcTab?
    ensures RestoredKind(Get(TabRecord(i, t), "type", JNull)) == Some(NotePageExc)
  {
    assert Get(TabRecord(i, t), "type", JNull) == JStr("NOTEPAGE_EXC");
  }

  /** A spreadsheet record whose file holds a dict adds a spreadsheet page holding the converted dict. */
  lemma RestoreSheetRecord(s: TabState, startUrl: string, rec: map<string, Json>, store: Store, sheet: map<SheetKey, Json>)
    requires ValidState(s) && RestoredKind(Get(rec, "type", JNull)) == Some(NotePageExc) && SheetData(rec, store).Found?
    ensures var r := RestoreRecord(s, startUrl, JObj(rec), store, sheet);
      r.ok && |r.state.tabs| == |s.tabs| + 1 && r.state.tabs[|s.tabs|].widget == NotePageExcTab(sheet)
  {
  }

  /** One more record: the loop over `recs[..i + 1]` is the loop over `recs[..i]` followed by record `i`. */
  lemma RestoreRecordsStep(s: TabState, startUrl: string, recs: seq<Json>, store: Store,
                           sheets: seq<map<SheetKey, Json>>, sheet: map<SheetKey, Json>, i: nat)
    requires ValidState(s) && i < |recs| && |sheets| == i
    ensures var before := RestoreRecords(s, startUrl, recs[..i], store, sheets);
      RestoreRecords(s, startUrl, recs[..i + 1], store, sheets + [sheet]) ==
        if !before.ok then before else RestoreRecord(before.state, startUrl, recs[i], store, sheet)
  {
    assert recs[..i + 1][..i] == recs[..i];
    assert (sheets + [sheet])[..i] == sheets;
  }

  /** A loop turn of `_load_tabs` that restores record `i` extends the restore by that record. */
  lemma LoadStep(startUrl: string, recs: seq<Json>, store: Store, before: seq<map<SheetKey, Json>>,
                 sheet: map<SheetKey, Json>, i: nat, pre: TabState, after: Loaded)
    requires i < |recs| && |before| == i
    requires RestoreRecords(TabState([], -1), startUrl, recs[..i], store, before) == Loaded(pre, true)
    requires ValidState(pre) && after == RestoreRecord(pre, startUrl, recs[i], store, sheet)
    ensures RestoreRecords(TabState([], -1), startUrl, recs[..i + 1], store, before + [sheet]) == after
  {
    RestoreRecordsStep(TabState([], -1), startUrl, recs, store, before, sheet, i);
  }

  /** The conversions of the first `i` records, followed by a conversion of record `i`. */
  lemma SheetsFitStep(recs: seq<Json>, store: Store, before: seq<map<SheetKey, Json>>, sheet: map<SheetKey, Json>, i: nat)
    requires i < |recs| && SheetsFit(recs[..i], store, before)
    requires RecordSheet(recs[i], store).Found? ==> IsDecoding(RecordSheet(recs[i], store).value, sheet)
    ensures SheetsFit(recs[..i + 1], store, before + [sheet])
  {
    var sheets := before + [sheet];
    assert forall j :: 0 <= j < i ==> recs[..i + 1][j] == recs[..i][j] && sheets[j] == before[j];
    assert recs[..i + 1][i] == recs[i] && sheets[i] == sheet;
  }

  /** A record naming an existing sheet file that holds a dict leads to that dict. */
  lemma SheetDataFound(fields: map<string, Json>, store: Store, name: string, data: map<string, Json>)
    requires "sheet_file" in fields && fields["sheet_file"] == JStr(name) && name != ""
    requires NotesEntry(name) in store && store[NotesEntry(name)] == JsonDoc(JObj(data))
    ensures SheetData(fields, store) == Found(data)
  {
    assert NamedFile(fields, "sheet_file", store) == Found(JsonDoc(JObj(data)));
  }

  /** The sheet file named by a saved spreadsheet record holds that tab's encoded sheet. */
  lemma SavedSheetData(store: Store, tabs: seq<Tab>, i: nat)
    requires SheetsWellFormed(tabs) && i < |tabs| && tabs[i].widget.NotePageExcTab?
    ensures SheetData(TabRecord(i, tabs[i]), WriteTabFiles(store, tabs)) == Found(EncodeSheet(tabs[i].widget.sheet))
  {
    WriteSheetsFiles(store, tabs, i);
    assert |SheetFileName(i)| > 0;
    SheetDataFound(TabRecord(i, tabs[i]), WriteTabFiles(store, tabs), SheetFileName(i), EncodeSheet(tabs[i].widget.sheet));
  }

  /** The loop of `_load_tabs` over the first records, stopping at the first that raises. */
  function RestoreRecords(s: TabState, startUrl: string, recs: seq<Json>, store: Store, sheets: seq<map<SheetKey, Json>>): (r: Loaded)
    requires ValidState(s) && |sheets| == |recs|
    ensures ValidState(r.state) && s.tabs <= r.state.tabs
    decreases |recs|
  {
    if recs == [] then Loaded(s, true)
    else
      var n := |recs| - 1;
      var before := RestoreRecords(s, startUrl, recs[..n], store, sheets[..n]);
      if !before.ok then before else RestoreRecord(before.state, startUrl, recs[n], store, sheets[n])
  }

  /** Once a record raised, later records are never looked at. */
  lemma {:induction false} FailureStops(s: TabState, startUrl: string, recs: seq<Json>, store: Store, sheets: seq<map<SheetKey, Json>>, n: nat)
    requires ValidState(s) && |sheets| == |recs| && n <= |recs|
    requires !RestoreRecords(s, startUrl, recs[..n], store, sheets[..n]).ok
    ensures RestoreRecords(s, startUrl, recs, store, sheets) == RestoreRecords(s, startUrl, recs[..n], store, sheets[..n])
    decreases |recs| - n
  {
    if n < |recs| {
      var m := |recs| - 1;
      assert recs[..m][..n] == recs[..n] && sheets[..m][..n] == sheets[..n];
      FailureStops(s, startUrl, recs[..m], store, sheets[..m], n);
    } else {
      assert recs[..n] == recs && sheets[..n] == sheets;
    }
  }

  /** The kind of page one record asks for, if any. */
  function RecordKinds(rec: Json): seq<TabType> {
    if rec.JObj? && RestoredKind(Get(rec.fields, "type", JNull)).Some? then
      [RestoredKind(Get(rec.fields, "type", JNull)).value]
    else []
  }

  /** The kinds of page the records ask for, in record order. */
  function RequestedKinds(recs: seq<Json>): seq<TabType>
    decreases |recs|
  {
    if recs == [] then [] else RequestedKinds(recs[..|recs| - 1]) + RecordKinds(recs[|recs| - 1])
  }

  function Kinds(tabs: seq<Tab>): (r: seq<TabType>)
    ensures |r| == |tabs|
  {
    seq(|tabs|, i requires 0 <= i < |tabs| => KindOf(tabs[i].widget))
  }

  /** One record that raises nothing adds the page it asks for after those already there. */
  lemma RestoreStepKinds(before: TabState, base: nat, startUrl: string, rec: Json, store: Store, sheet: map<SheetKey, Json>)
    requires ValidState(before) && base <= |before.tabs|
    ensures var r := RestoreRecord(before, startUrl, rec, store, sheet);
      r.ok ==> Kinds(r.state.tabs[base..]) == Kinds(before.tabs[base..]) + RecordKinds(rec)
  {
    var r := RestoreRecord(before, startUrl, rec, store, sheet);
    if r.ok && RecordKinds(rec) != [] {
      var m := |before.tabs|;
      var t := r.state.tabs[m];
      assert r.state.tabs == before.tabs + [t];
      assert r.state.tabs[base..] == before.tabs[base..] + [t];
      KindsAppend(before.tabs[base..], t);
    } else if r.ok {
      assert r.state == before;
    }
  }

  /**
   * A restore that raises nothing appends, after the pages already there,
   * exactly one page per BROWSER, CHAT, TERMINAL, NOTEPAGE or NOTEPAGE_EXC
   * record, of that kind and in record order.
   */
  lemma {:induction false} RestoreFollowsRecords(s: TabState, startUrl: string, recs: seq<Json>, store: Store, sheets: seq<map<SheetKey, Json>>)
    requires ValidState(s) && |sheets| == |recs|
    ensures var r := RestoreRecords(s, startUrl, recs, store, sheets);
      r.ok ==> Kinds(r.state.tabs[|s.tabs|..]) == RequestedKinds(recs)
    decreases |recs|
  {
    if recs != [] {
      var n := |recs| - 1;
      var before := RestoreRecords(s, startUrl, recs[..n], store, sheets[..n]);
      RestoreFollowsRecords(s, startUrl, recs[..n], store, sheets[..n]);
      if before.ok {
        RestoreStepKinds(before.state, |s.tabs|, startUrl, recs[n], store, sheets[n]);
      }
    }
  }

  lemma KindsAppend(tabs: seq<Tab>, t: Tab)
    ensures Kinds(tabs + [t]) == Kinds(tabs) + [KindOf(t.widget)]
  {
  }

  // ----- restoring chat logs -----

  /** One saved message as `add_message` shows it: sender defaults to "Unknown", text to "". */
  function MessageLine(m: Json): Option<ChatLine> {
    if !m.JObj? then None
    else
      var sender := Get(m.fields, "sender", JStr("Unknown"));
      var text := Get(m.fields, "message", JStr(""));
      if sender.JStr? && text.JStr? then Some(NewChatLine(sender.s, text.s)) else None
  }

  /** The lines the messages add, stopping at the first one that raises. */
  function MessageLines(msgs: seq<Json>): (r: (seq<ChatLine>, bool))
    ensures r.1 ==> |r.0| == |msgs| && forall j :: 0 <= j < |msgs| ==> MessageLine(msgs[j]) == Some(r.0[j])
    decreases |msgs|
  {
    if msgs == [] then ([], true)
    else match MessageLine(msgs[0])
      case None => ([], false)
      case Some(line) =>
        var rest := MessageLines(msgs[1..]);
        ([line] + rest.0, rest.1)
  }

  /** The chat page `_load_chat_logs` reuses for a log saved from index `i`, if there is one there. */
  function ChatSlot(s: TabState, i: int): (r: Option<nat>)
    ensures r.Some? <==> 0 <= i < |s.tabs| && TypeOf(s.tabs[i].widget) == Some(Chat)
    ensures r.Some? ==> r.value == i
  {
    if 0 <= i < |s.tabs| && TypeOf(s.tabs[i].widget) == Some(Chat) then Some(i) else None
  }

  /**
   * Where `_load_chat_logs` puts a log, decided by `tab_index < count()`:
   * `None` when that raises, otherwise `ChatSlot`'s answer (`None` inside
   * means a new chat tab).  A bool compares and indexes as 0 or 1.  A float
   * at or above the count skips the lookup; one below it reaches
   * `widget()`, which refuses a float.  Any other value, `None` included,
   * cannot be compared with an int.
   */
  function ChatTarget(s: TabState, index: Json): (r: Option<Option<nat>>)
    ensures r.None? <==> !(index.JInt? || index.JBool? || (index.JFloat? && index.x >= |s.tabs| as real))
    ensures index.JInt? ==> r == Some(ChatSlot(s, index.i))
    ensures index.JBool? ==> r == Some(ChatSlot(s, if index.b then 1 else 0))
    ensures index.JFloat? && r.Some? ==> r.value.None?
  {
    match index
    case JInt(i) => Some(ChatSlot(s, i))
    case JBool(b) => Some(ChatSlot(s, if b then 1 else 0))
    case JFloat(x) => if x >= |s.tabs| as real then Some(None) else None
    case _ => None
  }

  /**
   * One iteration of `_load_chat_logs`: reuse the tab `ChatTarget` finds,
   * otherwise add a chat tab; clear it; add the saved messages.  A
   * `tab_index` that `ChatTarget` refuses, a log that is not a dict or a bad
   * message raises, and the loop stops.
   */
  function RestoreChatLog(s: TabState, startUrl: string, log: Json): (r: Loaded)
    requires ValidState(s)
    ensures ValidState(r.state) && s.tabs <= r.state.tabs
    ensures !log.JObj? || ChatTarget(s, Get(log.fields, "tab_index", JNull)).None? ==> r == Loaded(s, false)
  {
    if !log.JObj? then Loaded(s, false)
    else match ChatTarget(s, Get(log.fields, "tab_index", JNull))
      case Some(slot) =>
        var (target, at) := match slot
          case Some(i) => (s, i)
          case None => (Added(s, NewTabFor(Chat, startUrl)), |s.tabs|);
        var lines := match Rows(Get(log.fields, "messages", JArr([])))
          case None => ([], false)
          case Some(msgs) => MessageLines(msgs);
        var tabs := target.tabs[at := Tab(target.tabs[at].title, ChatTab(lines.0))];
        Loaded(TabState(tabs, target.current), lines.1)
      case None => Loaded(s, false)
  }

  /**
   * No widget is tagged CHAT, so a chat log never reuses a tab: it always
   * adds a new chat tab after the others, holding exactly the saved
   * messages when they are all well formed.
   */
  lemma ChatLogAddsTab(s: TabState, startUrl: string, log: Json, msgs: seq<Json>)
    requires ValidState(s) && log.JObj? && ChatTarget(s, Get(log.fields, "tab_index", JNull)).Some?
    requires Get(log.fields, "messages", JArr([])) == JArr(msgs)
    ensures var r := RestoreChatLog(s, startUrl, log);
      |r.state.tabs| == |s.tabs| + 1 && r.state.current == |s.tabs| &&
      r.state.tabs[|s.tabs|] == Tab("AI Chat", ChatTab(MessageLines(msgs).0))
  {
  }

  /** The loop of `_load_chat_logs`, which stops at the first log that raises. */
  function RestoreChatLogs(s: TabState, startUrl: string, logs: seq<Json>): (r: Loaded)
    requires ValidState(s)
    ensures ValidState(r.state) && s.tabs <= r.state.tabs
    decreases |logs|
  {
    if logs == [] then Loaded(s, true)
    else
      var first := RestoreChatLog(s, startUrl, logs[0]);
      if !first.ok then first else RestoreChatLogs(first.state, startUrl, logs[1..])
  }

  /** `_load_chat_logs`: a missing or unparsable chats.json changes nothing; its errors never propagate. */
  function RestoreChats(s: TabState, startUrl: string, store: Store): (r: TabState)
    requires ValidState(s)
    ensures ValidState(r) && s.tabs <= r.tabs
  {
    if ChatsFile !in store || !store[ChatsFile].JsonDoc? then s
    else match Rows(store[ChatsFile].json)
      case None => s
      case Some(logs) => RestoreChatLogs(s, startUrl, logs).state
  }

  /** The sheets of the records fit them: each read sheet file was converted as `IsDecoding` says. */
  ghost predicate SheetsFit(recs: seq<Json>, store: Store, sheets: seq<map<SheetKey, Json>>) {
    |sheets| == |recs| &&
    forall i :: 0 <= i < |recs| && RecordSheet(recs[i], store).Found? ==> IsDecoding(RecordSheet(recs[i], store).value, sheets[i])
  }

  /**
   * `load_last_session` on a window with no pages: false with nothing
   * changed when tabs.json is missing; false after a partial restore when
   * reading tabs.json or restoring a record raises; otherwise the chat logs
   * are restored and the result is true.
   */
  function LastSession(store: Store, startUrl: string, sheets: seq<map<SheetKey, Json>>): (r: Loaded)
    ensures ValidState(r.state)
    ensures TabsFile !in store ==> r == Loaded(TabState([], -1), false)
  {
    var empty := TabState([], -1);
    if TabsFile !in store then Loaded(empty, false)
    else if !store[TabsFile].JsonDoc? then Loaded(empty, false)
    else match Rows(store[TabsFile].json)
      case None => Loaded(empty, false)
      case Some(recs) =>
        if |sheets| != |recs| then Loaded(empty, false)
        else
          var restored := RestoreRecords(empty, startUrl, recs, store, sheets);
          if !restored.ok then restored
          else Loaded(RestoreChats(restored.state, startUrl, store), true)
  }

  /** The pages of a newly opened window: the restored session, or the defaults after whatever a failed restore left. */
  function OpenedWindow(store: Store, startUrl: string, sheets: seq<map<SheetKey, Json>>): Result<TabState, InitError> {
    var restored := LastSession(store, startUrl, sheets);
    if restored.ok then Ok(restored.state) else WithDefaultTabs(restored.state, startUrl)
  }

  /** Without a saved tab list the window opens browser, chat and terminal pages, browser current. */
  lemma NoSessionOpensDefaults(store: Store, startUrl: string, sheets: seq<map<SheetKey, Json>>)
    requires TabsFile !in store
    ensures OpenedWindow(store, startUrl, sheets) == Ok(DefaultTabs(startUrl))
  {
  }

  /** A window that opened without its session has at least the three default pages, page 0 current. */
  lemma FallbackKeepsDefaults(store: Store, startUrl: string, sheets: seq<map<SheetKey, Json>>)
    requires !LastSession(store, startUrl, sheets).ok && OpenedWindow(store, startUrl, sheets).Ok?
    ensures var w := OpenedWindow(store, startUrl, sheets).value;
      |w.tabs| >= 3 && w.current == 0 && w.tabs[0].widget == BrowserTab(NormalizeUrl(startUrl)) &&
      w.tabs[|w.tabs| - 1] == NewTabFor(Terminal, startUrl)
  {
    var s := LastSession(store, startUrl, sheets).state;
    var w := OpenedWindow(store, startUrl, sheets).value;
    if s.tabs != [] {
      assert w.tabs[|w.tabs| - 1] == w.tabs[1..][|w.tabs| - 2];
    }
  }

  function Stored(store: Store, p: Path): Option<FileContent> {
    if p in store then Some(store[p]) else None
  }

  /** The sheets chosen while restoring fit the records of tabs.json. */
  ghost predicate SessionSheetsFit(store: Store, sheets: seq<map<SheetKey, Json>>) {
    TabsFile in store && store[TabsFile].JsonDoc? && Rows(store[TabsFile].json).Some? ==>
      SheetsFit(Rows(store[TabsFile].json).value, store, sheets)
  }

  /** The session manager and the files of the last session. */
  class SessionManager {
    var store: Store

    /** `__init__`: the session directories exist; their files are whatever is on disk. */
    constructor (onDisk: Store)
      ensures store == onDisk
    {
      store := onDisk;
    }

    /** `_save_tabs`, with sheet keys written by `EncodeKey`. */
    method SaveTabs(tabs: seq<Tab>)
      requires SheetsWellFormed(tabs)
      modifies this`store
      ensures store == WriteTabFiles(old(store), tabs)[TabsFile := JsonDoc(JArr(TabRecords(tabs)))]
    {
      var records: seq<Json> := [];
      var i := 0;
      while i < |tabs|
        invariant 0 <= i <= |tabs|
        invariant records == TabRecords(tabs[..i])
        invariant store == WriteTabFiles(old(store), tabs[..i])
      {
        WriteTabFilesStep(old(store), tabs, i);
        var t := tabs[i];
        store := WriteTabFile(store, i, t);
        records := records + [JObj(TabRecord(i, t))];
        i := i + 1;
      }
      assert tabs[..i] == tabs;
      store := store[TabsFile := JsonDoc(JArr(records))];
    }

    /**
     * `_save_tabs` as written: `json.dump` has written the opening brace of
     * the first sheet it refuses when it raises, so that file is left
     * unreadable, tabs.json is not written, and `ok` is false.
     */
    method SaveTabsAsWritten(tabs: seq<Tab>) returns (ok: bool)
      requires SheetsWellFormed(tabs)
      modifies this`store
      ensures ok <==> FirstUnsaveable(tabs).None?
      ensures ok ==> store == WriteTabFiles(old(store), tabs)[TabsFile := JsonDoc(JArr(TabRecords(tabs)))]
      ensures !ok ==> store == AbortedSave(old(store), tabs)
    {
      var records: seq<Json> := [];
      var i := 0;
      while i < |tabs|
        invariant 0 <= i <= |tabs|
        invariant records == TabRecords(tabs[..i])
        invariant store == WriteTabFiles(old(store), tabs[..i])
        invariant forall j :: 0 <= j < i ==> !Unsaveable(tabs[j])
      {
        WriteTabFilesStep(old(store), tabs, i);
        var t := tabs[i];
        if t.widget.NotePageExcTab? {
          var sheet := t.widget.sheet;
          var dumped := DumpSheetAsWritten(sheet);
          if dumped.Err? {
            store := store[NotesEntry(SheetFileName(i)) := Damaged];
            FirstUnsaveableAt(tabs, i);
            return false;
          }
          assert SheetWellFormed(sheet);
          AsWrittenDumpAgrees(sheet);
          store := store[NotesEntry(SheetFileName(i)) := JsonDoc(dumped.value)];
          assert store == WriteTabFile(WriteTabFiles(old(store), tabs[..i]), i, t);
        } else {
          store := WriteTabFile(store, i, t);
        }
        SaveableStep(tabs, i);
        records := records + [JObj(TabRecord(i, t))];
        i := i + 1;
      }
      assert tabs[..i] == tabs;
      store := store[TabsFile := JsonDoc(JArr(records))];
      ok := true;
    }

    /** `_save_chat_logs`. */
    method SaveChatLogs(tabs: seq<Tab>)
      modifies this`store
      ensures store == old(store)[ChatsFile := JsonDoc(JArr(ChatLogs(tabs)))]
    {
      var logs: seq<Json> := [];
      var i := 0;
      while i < |tabs|
        invariant 0 <= i <= |tabs|
        invariant logs == ChatLogs(tabs[..i]) && store == old(store)
      {
        assert tabs[..i + 1][..i] == tabs[..i];
        if TypeOf(tabs[i].widget) == Some(Chat) {
          var log := SaveChatLog(i, tabs[i].widget);
          logs := logs + [log];
        }
        i := i + 1;
      }
      assert tabs[..i] == tabs;
      store := store[ChatsFile := JsonDoc(JArr(logs))];
    }

    /** One chat page's record, built by `_save_chat_logs`'s inner loop over its layout's widgets. */
    static method SaveChatLog(i: int, w: Widget) returns (log: Json)
      ensures log == ChatLog(i, w)
    {
      var lines := ChatLayout(w);
      var messages := [];
      var j := 0;
      while j < |lines|
        invariant 0 <= j <= |lines|
        invariant messages == SavedMessages(lines[..j])
      {
        assert lines[..j + 1][..j] == lines[..j];
        if lines[j].exposesLabels {
          messages := messages + [JObj(map["sender" := JStr(lines[j].sender), "message" := JStr(lines[j].message)])];
        }
        j := j + 1;
      }
      assert lines[..j] == lines;
      log := JObj(map["tab_index" := JInt(i), "messages" := JArr(messages)]);
    }

    /** `_save_history`: every entry of one save carries the same `now`. */
    method SaveHistory(tabs: seq<Tab>, now: string)
      modifies this`store
      ensures store == old(store)[HistoryFile := JsonDoc(JArr(MergedHistory(Stored(old(store), HistoryFile), HistoryEntries(tabs, now))))]
    {
      var entries: seq<Json> := [];
      var i := 0;
      while i < |tabs|
        invariant 0 <= i <= |tabs|
        invariant entries == HistoryEntries(tabs[..i], now)
      {
        assert tabs[..i + 1][..i] == tabs[..i];
        var t := tabs[i];
        if TypeOf(t.widget) == Some(Browser) && t.widget.BrowserTab? {
          entries := entries + [JObj(map["url" := JStr(t.widget.url), "title" := JStr(t.title), "timestamp" := JStr(now)])];
        }
        i := i + 1;
      }
      assert tabs[..i] == tabs;
      if HistoryFile in store && store[HistoryFile].JsonDoc? && store[HistoryFile].json.JArr? {
        entries := store[HistoryFile].json.items + entries;
      }
      store := store[HistoryFile := JsonDoc(JArr(entries))];
    }

    /** `_update_metadata`; `ok` is false when the item assignment raises. */
    method UpdateMetadata(tabs: seq<Tab>, now: string, stamp: string) returns (ok: bool)
      modifies this`store
      ensures var m := Metadata(Stored(old(store), MetadataFile), tabs, now, stamp);
        ok == m.Ok? && store == if m.Ok? then old(store)[MetadataFile := JsonDoc(JObj(m.value))] else old(store)
    {
      var metadata: map<string, Json>;
      if MetadataFile in store && store[MetadataFile].JsonDoc? {
        if !store[MetadataFile].json.JObj? {
          return false;
        }
        metadata := store[MetadataFile].json.fields;
      } else {
        metadata := map["name" := JStr("Last Session"), "created" := JStr(now)];
      }
      metadata := metadata["updated" := JStr(now)]["timestamp" := JStr(stamp)]["tab_count" := JInt(|tabs|)];
      var counts: map<string, nat> := map[];
      var i := 0;
      while i < |tabs|
        invariant 0 <= i <= |tabs|
        invariant counts == TypeCounts(tabs[..i])
      {
        assert tabs[..i + 1][..i] == tabs[..i];
        match TypeOf(tabs[i].widget) {
          case None =>
          case Some(k) =>
            var name := Name(k);
            counts := counts[name := (if name in counts then counts[name] else 0) + 1];
        }
        i := i + 1;
      }
      assert tabs[..i] == tabs;
      metadata := metadata["tab_types" := JObj(CountsAsJson(counts))];
      store := store[MetadataFile := JsonDoc(JObj(metadata))];
      ok := true;
    }

    /**
     * `save_session` as the window's close handler runs it, with the
     * corrected dump: `saved` is false when the metadata update raised,
     * which the handler catches.
     */
    method SaveSession(tabs: seq<Tab>, now: string, stamp: string) returns (saved: bool)
      requires SheetsWellFormed(tabs)
      modifies this`store
      ensures SaveOutcome(store, saved) == SessionSave(old(store), tabs, now, stamp)
    {
      SaveTabs(tabs);
      SaveChatLogs(tabs);
      SaveHistory(tabs, now);
      saved := UpdateMetadata(tabs, now, stamp);
    }

    /**
     * `save_session` as written: when `_save_tabs` raises on a sheet, the
     * chat, history and metadata saves never run and the exception reaches
     * the close handler, which catches it; `saved` is then false.
     */
    method SaveSessionAsWritten(tabs: seq<Tab>, now: string, stamp: string) returns (saved: bool)
      requires SheetsWellFormed(tabs)
      modifies this`store
      ensures FirstUnsaveable(tabs).None? ==> SaveOutcome(store, saved) == SessionSave(old(store), tabs, now, stamp)
      ensures FirstUnsaveable(tabs).Some? ==> store == AbortedSave(old(store), tabs) && !saved
    {
      var ok := SaveTabsAsWritten(tabs);
      if !ok {
        return false;
      }
      SaveChatLogs(tabs);
      SaveHistory(tabs, now);
      saved := UpdateMetadata(tabs, now, stamp);
    }

    /** One record of `_load_tabs`'s loop, applied to the window. */
    method RestoreOne(window: BrowserWindow, rec: Json) returns (ok: bool, ghost sheet: map<SheetKey, Json>)
      requires window.Valid()
      modifies window`tabs, window`current
      ensures window.Valid() && window.startUrl == old(window.startUrl)
      ensures Loaded(window.State(), ok) == RestoreRecord(old(window.State()), window.startUrl, rec, store, sheet)
      ensures RecordSheet(rec, store).Found? ==> IsDecoding(RecordSheet(rec, store).value, sheet)
    {
      sheet := map[];
      ok := true;
      if !rec.JObj? {
        ok := false;
        return;
      }
      var f := rec.fields;
      match RestoredKind(Get(f, "type", JNull)) {
        case None =>
        case Some(k) =>
          if k == Browser {
            ok := RestoreBrowserRecord(window, f);
          } else if k == NotePage {
            ok := RestoreNoteRecord(window, f);
          } else if k == NotePageExc {
            ok, sheet := RestoreSheetRecord(window, f);
          } else {
            var _ := window.AddNewTabOfType(k);
          }
      }
    }

    method RestoreBrowserRecord(window: BrowserWindow, f: map<string, Json>) returns (ok: bool)
      requires window.Valid()
      modifies window`tabs, window`current
      ensures window.Valid() && window.startUrl == old(window.startUrl)
      ensures Loaded(window.State(), ok) == RestoreBrowser(old(window.State()), window.startUrl, f)
    {
      var url := Get(f, "url", JNull);
      ok := true;
      if !Truthy(url) {
        var _ := window.AddNewTab(None);
      } else if url.JStr? {
        var _ := window.AddNewTab(Some(url.s));
      } else {
        window.tabs := window.tabs + [Tab("Web Browser", BrowserTab(""))];
        window.current := |window.tabs| - 1;
        ok := false;
      }
    }

    method RestoreNoteRecord(window: BrowserWindow, f: map<string, Json>) returns (ok: bool)
      requires window.Valid()
      modifies window`tabs, window`current
      ensures window.Valid() && window.startUrl == old(window.startUrl)
      ensures Loaded(window.State(), ok) == RestoreNote(old(window.State()), window.startUrl, f, store)
    {
      var _ := window.AddNewTabOfType(NotePage);
      ok := true;
      match NoteText(f, store) {
        case Skip =>
        case Raises => ok := false;
        case Found(text) =>
          var n := |window.tabs| - 1;
          window.tabs := window.tabs[n := Tab(window.tabs[n].title, NotePageTab(text))];
      }
    }

    method RestoreSheetRecord(window: BrowserWindow, f: map<string, Json>) returns (ok: bool, ghost sheet: map<SheetKey, Json>)
      requires window.Valid()
      modifies window`tabs, window`current
      ensures window.Valid() && window.startUrl == old(window.startUrl)
      ensures Loaded(window.State(), ok) == RestoreSheet(old(window.State()), window.startUrl, f, store, sheet)
      ensures SheetData(f, store).Found? ==> IsDecoding(SheetData(f, store).value, sheet)
    {
      var _ := window.AddNewTabOfType(NotePageExc);
      ok := true;
      sheet := map[];
      match SheetData(f, store) {
        case Skip =>
        case Raises => ok := false;
        case Found(data) =>
          var converted := DecodeSheet(data);
          sheet := converted;
          var n := |window.tabs| - 1;
          window.tabs := window.tabs[n := Tab(window.tabs[n].title, NotePageExcTab(converted))];
      }
    }

    /** One log of `_load_chat_logs`'s loop, applied to the window. */
    method RestoreOneChatLog(window: BrowserWindow, log: Json) returns (ok: bool)
      requires window.Valid()
      modifies window`tabs, window`current
      ensures window.Valid() && window.startUrl == old(window.startUrl)
      ensures Loaded(window.State(), ok) == RestoreChatLog(old(window.State()), window.startUrl, log)
    {
      if !log.JObj? {
        return false;
      }
      match ChatTarget(window.State(), Get(log.fields, "tab_index", JNull)) {
        case Some(slot) =>
          var at: nat;
          match slot {
            case Some(i) => at := i;
            case None => at := window.AddNewTabOfType(Chat);
          }
          match Rows(Get(log.fields, "messages", JArr([]))) {
            case None =>
              window.tabs := window.tabs[at := Tab(window.tabs[at].title, ChatTab([]))];
              ok := false;
            case Some(msgs) =>
              ok := FillChat(window, at, msgs);
          }
        case None =>
          return false;
      }
    }

    /**
     * Clearing the chat page at `at` and adding the saved messages one by
     * one with `add_message`, up to the first one that raises.
     */
    method FillChat(window: BrowserWindow, at: nat, msgs: seq<Json>) returns (ok: bool)
      requires window.Valid() && at < |window.tabs|
      modifies window`tabs
      ensures window.Valid()
      ensures window.tabs == old(window.tabs)[at := Tab(old(window.tabs[at].title), ChatTab(MessageLines(msgs).0))]
      ensures ok == MessageLines(msgs).1
    {
      var title := window.tabs[at].title;
      var target := window.tabs;
      var lines: seq<ChatLine> := [];
      window.tabs := target[at := Tab(title, ChatTab(lines))];
      var j := 0;
      ok := true;
      assert msgs[0..] == msgs && [] + MessageLines(msgs).0 == MessageLines(msgs).0;
      while j < |msgs| && ok
        invariant 0 <= j <= |msgs|
        invariant window.Valid()
        invariant window.tabs == target[at := Tab(title, ChatTab(lines))]
        invariant ok ==> MessageLines(msgs) == (lines + MessageLines(msgs[j..]).0, MessageLines(msgs[j..]).1)
        invariant !ok ==> MessageLines(msgs) == (lines, false)
        decreases |msgs| - j, ok
      {
        assert msgs[j..][1..] == msgs[j + 1..] && msgs[j..][0] == msgs[j];
        match MessageLine(msgs[j]) {
          case None =>
            assert lines + [] == lines;
            ok := false;
          case Some(line) =>
            assert lines + ([line] + MessageLines(msgs[j + 1..]).0) == (lines + [line]) + MessageLines(msgs[j + 1..]).0;
            lines := lines + [line];
            window.tabs := target[at := Tab(title, ChatTab(lines))];
            j := j + 1;
        }
      }
      if ok {
        assert msgs[j..] == [] && lines + [] == lines;
      }
    }

    /** `_load_chat_logs`. */
    method LoadChatLogs(window: BrowserWindow)
      requires window.Valid()
      modifies window`tabs, window`current
      ensures window.Valid() && window.startUrl == old(window.startUrl)
      ensures window.State() == RestoreChats(old(window.State()), window.startUrl, store)
    {
      if ChatsFile !in store || !store[ChatsFile].JsonDoc? {
        return;
      }
      match Rows(store[ChatsFile].json) {
        case None =>
        case Some(logs) =>
          ghost var start := window.State();
          var i := 0;
          var ok := true;
          while i < |logs| && ok
            invariant 0 <= i <= |logs|
            invariant window.Valid() && window.startUrl == old(window.startUrl)
            invariant ok ==> RestoreChatLogs(start, window.startUrl, logs) == RestoreChatLogs(window.State(), window.startUrl, logs[i..])
            invariant !ok ==> RestoreChatLogs(start, window.startUrl, logs) == Loaded(window.State(), false)
            decreases |logs| - i, ok
          {
            assert logs[i..][1..] == logs[i + 1..];
            ok := RestoreOneChatLog(window, logs[i]);
            i := i + 1;
          }
          if ok {
            assert logs[i..] == [];
          }
      }
    }

    /**
     * `load_last_session` on a window that has no pages yet, as the window's
     * `__init__` calls it.  (On a window with pages, `_load_tabs`'s
     * `while count > 0: close_tab(0)` would never end: see
     * `Browser.ClearingLoopNeverEmpties`.)
     */
    method LoadLastSession(window: BrowserWindow) returns (loaded: bool, ghost sheets: seq<map<SheetKey, Json>>)
      requires window.Valid() && window.tabs == []
      modifies window`tabs, window`current
      ensures window.Valid() && window.startUrl == old(window.startUrl)
      ensures SessionSheetsFit(store, sheets)
      ensures LastSession(store, window.startUrl, sheets) == Loaded(window.State(), loaded)
    {
      sheets := [];
      window.current := -1;
      if TabsFile !in store || !store[TabsFile].JsonDoc? {
        loaded := false;
        return;
      }
      match Rows(store[TabsFile].json) {
        case None =>
          loaded := false;
        case Some(recs) =>
          loaded, sheets := LoadTabs(window, recs);
          if loaded {
            LoadChatLogs(window);
          }
      }
    }

    /**
     * `BrowserWindow.__init__` from the session restore on: the window
     * starts with no pages, and when `load_last_session` returns false the
     * default pages are added.  `ok` is false where `__init__` raises.
     */
    method OpenWindow(startUrl0: Option<string>) returns (window: BrowserWindow, ok: bool, ghost sheets: seq<map<SheetKey, Json>>)
      ensures fresh(window) && window.Valid()
      ensures window.startUrl == if startUrl0.Some? && startUrl0.value != "" then startUrl0.value else DefaultStartUrl
      ensures SessionSheetsFit(store, sheets)
      ensures ok <==> OpenedWindow(store, window.startUrl, sheets).Ok?
      ensures ok ==> window.State() == OpenedWindow(store, window.startUrl, sheets).value
    {
      window := new BrowserWindow(startUrl0);
      var loaded;
      loaded, sheets := LoadLastSession(window);
      ok := true;
      if !loaded {
        ok := window.OpenDefaultTabs();
      }
    }

    /** The loop of `_load_tabs` over the saved records, on a window with no pages. */
    method LoadTabs(window: BrowserWindow, recs: seq<Json>) returns (ok: bool, ghost sheets: seq<map<SheetKey, Json>>)
      requires window.Valid() && window.tabs == []
      modifies window`tabs, window`current
      ensures window.Valid() && window.startUrl == old(window.startUrl)
      ensures SheetsFit(recs, store, sheets)
      ensures RestoreRecords(TabState([], -1), window.startUrl, recs, store, sheets) == Loaded(window.State(), ok)
    {
      var empty := TabState([], -1);
      assert window.State() == empty;
      sheets := [];
      var i := 0;
      ok := true;
      while i < |recs| && ok
        invariant 0 <= i <= |recs| && |sheets| == i
        invariant window.Valid() && window.startUrl == old(window.startUrl)
        invariant SheetsFit(recs[..i], store, sheets)
        invariant RestoreRecords(empty, window.startUrl, recs[..i], store, sheets) == Loaded(window.State(), ok)
        decreases |recs| - i, ok
      {
        ghost var before := sheets;
        ghost var pre := window.State();
        ghost var sheet;
        ok, sheet := RestoreOne(window, recs[i]);
        LoadStep(window.startUrl, recs, store, before, sheet, i, pre, Loaded(window.State(), ok));
        SheetsFitStep(recs, store, before, sheet, i);
        sheets := before + [sheet];
        i := i + 1;
      }
      if ok {
        assert recs[..i] == recs;
      } else {
        ghost var visited := sheets;
        sheets := PadSheets(recs, store, sheets);
        assert sheets[..i] == visited;
        FailureStops(empty, window.startUrl, recs, store, sheets, i);
      }
    }

  }
}
