/**
 * The spreadsheet log (`Excel`): one row per flash event, appended at the row
 * the persisted counter names. A workbook is modelled by its `Sheet1`, a map
 * from (row, column) to a cell value; the disk maps paths to workbooks, holds
 * the row-counter file and knows which paths refuse writing.
 */
module ToExcel {
  import opened Wrappers
  import opened PyValues
  import opened PyText

  /** A cell value as `update_index` stores it. */
  datatype Cell = IntCell(i: int) | StrCell(s: string)

  /** `Sheet1` of a workbook: (row, column) to value, both counted from 1. */
  type Sheet = map<(int, int), Cell>

  /** The fixed file name the log uses (`self.output_file`). */
  const OUTPUT_FILE: string := "output.xlsx"

  /** The header row: `Sl-No`, `MAC-ID`, `Date`, `File Name` in columns 1 to 4. */
  const HEADERS: seq<string> := ["Sl-No", "MAC-ID", "Date", "File Name"]

  /** Why `save_data` stopped before its end. */
  datatype SaveError =
    | FileNotFound(name: string)   // `readxl` found no file of that name
    | WriteRefused(path: string)   // `writexl` could not write (the file is open elsewhere)

  /** What the appender reads and writes: the class attributes, the open sheet, the counter and the disk. */
  datatype ExcelState = ExcelState(
    path: string,                   // `Excel.path`
    savedData: string,              // `Excel.saved_data`
    sheet: Sheet,                   // `self.db`'s `Sheet1`
    rowId: int,                     // `self._config.row_id`
    workbooks: map<string, Sheet>,  // the workbook files on disk
    rowCounter: Option<int>)        // the file `ExcelConfig.save` writes

  /** The state after a call, and the exception it ended in, if any. */
  datatype SaveOutcome = SaveOutcome(state: ExcelState, error: Option<SaveError>)

  /** `set_output_path(p)`: the log file in directory `p`, or in the working directory when `p` is empty. */
  function OutputPath(p: string): (r: string)
    ensures p == "" ==> r == OUTPUT_FILE
    ensures |r| >= |OUTPUT_FILE| && r[|r| - |OUTPUT_FILE|..] == OUTPUT_FILE
    ensures p != "" ==> |r| > |p| && r[..|p|] == p && r[|p|] == '/'
  {
    if p == "" then OUTPUT_FILE else p + "/" + OUTPUT_FILE
  }

  /** Wherever the directory, the log file is named `output.xlsx`. */
  lemma OutputPathName(p: string)
    ensures Basename(OutputPath(p)) == OUTPUT_FILE
    ensures p == "" ==> OutputPath(p) == OUTPUT_FILE
    ensures p != "" ==> OutputPath(p) == p + "/" + OUTPUT_FILE
  {
    if p == "" {
      BasenameOfName(OUTPUT_FILE);
    } else {
      BasenameOfJoin(p, OUTPUT_FILE);
    }
  }

  /** A new blank `Sheet1` with the header row written. */
  function HeaderSheet(): (h: Sheet)
    ensures HasHeader(h) && h.Keys == RowCells(1)
  {
    map[(1, 1) := StrCell(HEADERS[0]), (1, 2) := StrCell(HEADERS[1]),
        (1, 3) := StrCell(HEADERS[2]), (1, 4) := StrCell(HEADERS[3])]
  }

  /** The four `update_index` calls of one data row. */
  function WithRow(sheet: Sheet, row: int, macId: string, date: string, fileName: string): Sheet {
    sheet[(row, 1) := IntCell(row - 1)][(row, 2) := StrCell(macId)]
         [(row, 3) := StrCell(date)][(row, 4) := StrCell(fileName)]
  }

  /** `f"{row_id - 2}, {mac_id}, {date}"`. */
  function SavedText(seqNo: int, macId: string, date: string): (t: string)
    ensures |t| > |IntToDecimal(seqNo)| && t[..|IntToDecimal(seqNo)|] == IntToDecimal(seqNo)
    ensures t[|IntToDecimal(seqNo)|] == ','
  {
    IntToDecimal(seqNo) + ", " + macId + ", " + date
  }

  /** A comma-free text followed by ", " is no longer than any other comma-free prefix of the same string. */
  lemma CommaFreePrefix(x: string, u: string, y: string, w: string)
    requires x + u == y + w && ',' !in x && u != [] && u[0] == ','
    ensures |x| <= |y| ==> x == y[..|x|]
    ensures ',' !in y ==> |y| <= |x|
  {
    assert forall k :: 0 <= k < |x| && k < |y| ==> x[k] == (x + u)[k] == (y + w)[k] == y[k];
    if |y| > |x| {
      assert (y + w)[|x|] == y[|x|];
    }
  }

  /**
   * `saved_data` determines the sequence number it starts with: the decimal
   * text holds no comma, so it ends where the first ", " begins.
   */
  lemma SavedTextSeqNo(a: int, mac1: string, date1: string, b: int, mac2: string, date2: string)
    requires SavedText(a, mac1, date1) == SavedText(b, mac2, date2)
    ensures a == b
  {
    var x, y := IntToDecimal(a), IntToDecimal(b);
    var u, w := ", " + mac1 + ", " + date1, ", " + mac2 + ", " + date2;
    assert x + u == SavedText(a, mac1, date1);
    assert y + w == SavedText(b, mac2, date2);
    CommaFreePrefix(x, u, y, w);
    CommaFreePrefix(y, w, x, u);
    DecimalInjective(a, b);
  }

  /**
   * The part of `save_data` after the sheet is open: `loaded` is the sheet read
   * from an existing file, or `None` when a blank sheet with the header row is
   * made and the counter reset to 2.
   */
  function Append(st: ExcelState, loaded: Option<Sheet>, locked: set<string>,
                  date: string, macId: string, fileName: string): (r: SaveOutcome)
    ensures r.state.path == st.path
    ensures r.state.rowId == (if loaded.Some? then st.rowId else 2) + 1
    ensures r.error.None? <==> st.path !in locked
    ensures r.error.Some? ==> r.state.workbooks == st.workbooks && r.state.savedData == st.savedData
                              && r.state.rowCounter == st.rowCounter
    ensures r.error.None? ==> st.path in r.state.workbooks && r.state.workbooks[st.path] == r.state.sheet
  {
    var base := if loaded.Some? then loaded.value else HeaderSheet();
    var row := if loaded.Some? then st.rowId else 2;
    var sheet := WithRow(base, row, macId, date, fileName);
    if st.path in locked then
      SaveOutcome(st.(sheet := sheet, rowId := row + 1), Some(WriteRefused(st.path)))
    else
      SaveOutcome(st.(sheet := sheet, rowId := row + 1, workbooks := st.workbooks[st.path := sheet],
                      savedData := SavedText(row - 1, macId, date), rowCounter := Some(row + 1)),
                  None)
  }

  /**
   * `save_data(mac_id, file_name)` as written, with `date` the instance's date
   * text: whether a file exists is asked of `Excel.path`, but an existing sheet
   * is read from `output.xlsx`.
   */
  function Save(st: ExcelState, locked: set<string>, date: string, macId: string, fileName: string): (r: SaveOutcome)
    ensures r.state.path == st.path
    ensures r.error == Some(FileNotFound(OUTPUT_FILE)) <==> st.path in st.workbooks && OUTPUT_FILE !in st.workbooks
    ensures r.error == Some(FileNotFound(OUTPUT_FILE)) ==> r.state == st
    ensures r.state.workbooks.Keys <= st.workbooks.Keys + {st.path}
  {
    if st.path !in st.workbooks then Append(st, None, locked, date, macId, fileName)
    else if OUTPUT_FILE !in st.workbooks then SaveOutcome(st, Some(FileNotFound(OUTPUT_FILE)))
    else Append(st, Some(st.workbooks[OUTPUT_FILE]), locked, date, macId, fileName)
  }

  /** `save_data` writes only to `Excel.path`: every other workbook on disk is kept as it was. */
  lemma SaveTouchesOnlyPath(st: ExcelState, locked: set<string>, date: string, macId: string, fileName: string)
    ensures var r := Save(st, locked, date, macId, fileName);
            forall q :: q in st.workbooks && q != st.path ==> q in r.state.workbooks && r.state.workbooks[q] == st.workbooks[q]
  {
  }

  /** Row 1 holds the four column headers. */
  predicate HasHeader(sheet: Sheet) {
    forall c :: 1 <= c <= 4 ==> (1, c) in sheet && sheet[(1, c)] == StrCell(HEADERS[c - 1])
  }

  /** Row `row` holds sequence number `seqNo`, the MAC, the date and the file name. */
  predicate HasRecord(sheet: Sheet, row: int, seqNo: int, macId: string, date: string, fileName: string) {
    && (row, 1) in sheet && sheet[(row, 1)] == IntCell(seqNo)
    && (row, 2) in sheet && sheet[(row, 2)] == StrCell(macId)
    && (row, 3) in sheet && sheet[(row, 3)] == StrCell(date)
    && (row, 4) in sheet && sheet[(row, 4)] == StrCell(fileName)
  }

  /** The cells of one row that `save_data` writes. */
  function RowCells(row: int): set<(int, int)> {
    {(row, 1), (row, 2), (row, 3), (row, 4)}
  }

  /** Writing a row sets exactly its four cells, and leaves every other cell as it was. */
  lemma WithRowFrame(sheet: Sheet, row: int, macId: string, date: string, fileName: string)
    ensures var t := WithRow(sheet, row, macId, date, fileName);
            && HasRecord(t, row, row - 1, macId, date, fileName)
            && t.Keys == sheet.Keys + RowCells(row)
            && forall k :: k in sheet && k !in RowCells(row) ==> t[k] == sheet[k]
  {
  }

  /** A blank sheet gets the header row and the event at row 2, sequence number 1. */
  lemma AppendFresh(st: ExcelState, locked: set<string>, date: string, macId: string, fileName: string)
    ensures var r := Append(st, None, locked, date, macId, fileName);
            && HasHeader(r.state.sheet) && HasRecord(r.state.sheet, 2, 1, macId, date, fileName)
            && r.state.sheet.Keys == RowCells(1) + RowCells(2)
            && r.state.rowId == 3
    ensures var r := Append(st, None, locked, date, macId, fileName);
            st.path !in locked ==>
              && r.error.None? && r.state.rowCounter == Some(3)
              && r.state.workbooks == st.workbooks[st.path := r.state.sheet]
  {
    WithRowFrame(HeaderSheet(), 2, macId, date, fileName);
  }

  /** A loaded sheet gets the event at row `row_id`; its other cells, the header among them, are kept. */
  lemma AppendLoaded(st: ExcelState, sheet: Sheet, locked: set<string>, date: string, macId: string, fileName: string)
    ensures var r := Append(st, Some(sheet), locked, date, macId, fileName);
            && HasRecord(r.state.sheet, st.rowId, st.rowId - 1, macId, date, fileName)
            && r.state.sheet.Keys == sheet.Keys + RowCells(st.rowId)
            && (forall k :: k in sheet && k !in RowCells(st.rowId) ==> r.state.sheet[k] == sheet[k])
            && (HasHeader(sheet) && st.rowId >= 2 ==> HasHeader(r.state.sheet))
            && r.state.rowId == st.rowId + 1
    ensures var r := Append(st, Some(sheet), locked, date, macId, fileName);
            st.path !in locked ==>
              && r.error.None? && r.state.rowCounter == Some(st.rowId + 1)
              && r.state.workbooks == st.workbooks[st.path := r.state.sheet]
  {
    WithRowFrame(sheet, st.rowId, macId, date, fileName);
    var t := Append(st, Some(sheet), locked, date, macId, fileName).state.sheet;
    if HasHeader(sheet) && st.rowId >= 2 {
      forall c | 1 <= c <= 4
        ensures (1, c) in t && t[(1, c)] == StrCell(HEADERS[c - 1])
      {
        assert (1, c) in sheet;
      }
    }
  }

  /**
   * Without a file at `Excel.path`, the log starts over: the header row, then
   * the event at row 2 with sequence number 1, and the counter at 3; the sheet
   * holds nothing else, and it is written to `Excel.path`.
   */
  lemma SaveToNewFile(st: ExcelState, locked: set<string>, date: string, macId: string, fileName: string)
    requires st.path !in st.workbooks && st.path !in locked
    ensures var r := Save(st, locked, date, macId, fileName);
            && r.error.None?
            && HasHeader(r.state.sheet) && HasRecord(r.state.sheet, 2, 1, macId, date, fileName)
            && r.state.sheet.Keys == RowCells(1) + RowCells(2)
            && r.state.rowId == 3 && r.state.rowCounter == Some(3)
            && r.state.workbooks == st.workbooks[st.path := r.state.sheet]
  {
    AppendFresh(st, locked, date, macId, fileName);
  }

  /**
   * With a file at `Excel.path`, the sheet is loaded from `output.xlsx`, the
   * event goes to row `row_id` and the counter advances by one; every other
   * cell of the loaded sheet is kept.
   */
  lemma SaveToExistingFile(st: ExcelState, locked: set<string>, date: string, macId: string, fileName: string)
    requires st.path in st.workbooks && OUTPUT_FILE in st.workbooks && st.path !in locked
    ensures var r := Save(st, locked, date, macId, fileName);
            var base := st.workbooks[OUTPUT_FILE];
            && r.error.None?
            && HasRecord(r.state.sheet, st.rowId, st.rowId - 1, macId, date, fileName)
            && r.state.sheet.Keys == base.Keys + RowCells(st.rowId)
            && (forall k :: k in base && k !in RowCells(st.rowId) ==> r.state.sheet[k] == base[k])
            && r.state.rowId == st.rowId + 1 && r.state.rowCounter == Some(st.rowId + 1)
            && r.state.workbooks == st.workbooks[st.path := r.state.sheet]
  {
    AppendLoaded(st, st.workbooks[OUTPUT_FILE], locked, date, macId, fileName);
  }

  /** Appending below the header (`row_id >= 2`) to a file that has one keeps the header. */
  lemma SaveKeepsHeader(st: ExcelState, locked: set<string>, date: string, macId: string, fileName: string)
    requires st.path in st.workbooks && OUTPUT_FILE in st.workbooks
    requires HasHeader(st.workbooks[OUTPUT_FILE]) && st.rowId >= 2
    ensures HasHeader(Save(st, locked, date, macId, fileName).state.sheet)
  {
    AppendLoaded(st, st.workbooks[OUTPUT_FILE], locked, date, macId, fileName);
  }

  /**
   * A completed save leaves `saved_data` starting with the sequence number it
   * just wrote, `row_id - 2` after the increment.
   */
  lemma SavedDataLeadsWithSeqNo(st: ExcelState, locked: set<string>, date: string, macId: string, fileName: string)
    requires Save(st, locked, date, macId, fileName).error.None?
    ensures var t := Save(st, locked, date, macId, fileName).state;
            var seqNo := t.rowId - 2;
            && t.savedData == SavedText(seqNo, macId, date)
            && t.savedData[..|IntToDecimal(seqNo)|] == IntToDecimal(seqNo)
            && (t.rowId - 1, 1) in t.sheet && t.sheet[(t.rowId - 1, 1)] == IntCell(seqNo)
  {
    var row := if st.path in st.workbooks then st.rowId else 2;
    var base := if st.path in st.workbooks then st.workbooks[OUTPUT_FILE] else HeaderSheet();
    WithRowFrame(base, row, macId, date, fileName);
  }

  /** The counter never resets while the file exists: each completed save there adds exactly one. */
  lemma SaveCounterAdvances(st: ExcelState, locked: set<string>, date: string, macId: string, fileName: string)
    requires st.path in st.workbooks
    ensures var r := Save(st, locked, date, macId, fileName);
            r.error != Some(FileNotFound(OUTPUT_FILE)) ==> r.state.rowId == st.rowId + 1
  {
  }

  /** A refused write leaves the disk and `saved_data` alone, though the in-memory counter has advanced. */
  lemma SaveRefusedKeepsDisk(st: ExcelState, locked: set<string>, date: string, macId: string, fileName: string)
    requires st.path in locked && (st.path in st.workbooks ==> OUTPUT_FILE in st.workbooks)
    ensures var r := Save(st, locked, date, macId, fileName);
            && r.error == Some(WriteRefused(st.path))
            && r.state.workbooks == st.workbooks && r.state.rowCounter == st.rowCounter
            && r.state.savedData == st.savedData
            && r.state.rowId == (if st.path in st.workbooks then st.rowId else 2) + 1
  {
  }

  /** When `output.xlsx` is missing but `Excel.path` exists, the read raises and nothing changes. */
  lemma SaveFailedReadChangesNothing(st: ExcelState, locked: set<string>, date: string, macId: string, fileName: string)
    requires st.path in st.workbooks && OUTPUT_FILE !in st.workbooks
    ensures Save(st, locked, date, macId, fileName) == SaveOutcome(st, Some(FileNotFound(OUTPUT_FILE)))
  {
  }

  /**
   * Two saves into a fresh `output.xlsx`: the header stays in row 1, the
   * events are rows 2 and 3 with sequence numbers 1 and 2, and the counter is 4.
   */
  lemma TwoSavesFromFresh(st: ExcelState, locked: set<string>, date: string,
                          mac1: string, file1: string, mac2: string, file2: string)
    requires st.path == OUTPUT_FILE && OUTPUT_FILE !in st.workbooks && OUTPUT_FILE !in locked
    ensures var r1 := Save(st, locked, date, mac1, file1);
            var r2 := Save(r1.state, locked, date, mac2, file2);
            && r1.error.None? && r2.error.None?
            && HasHeader(r2.state.sheet)
            && HasRecord(r2.state.sheet, 2, 1, mac1, date, file1)
            && HasRecord(r2.state.sheet, 3, 2, mac2, date, file2)
            && r2.state.rowId == 4
            && r2.state.workbooks[OUTPUT_FILE] == r2.state.sheet
  {
    var r1 := Save(st, locked, date, mac1, file1);
    AppendFresh(st, locked, date, mac1, file1);
    assert r1.state.workbooks[OUTPUT_FILE] == r1.state.sheet;
    AppendLoaded(r1.state, r1.state.sheet, locked, date, mac2, file2);
  }

  /**
   * As written, the sheet is read back from `output.xlsx` in the working
   * directory, not from `Excel.path`: after a first save into another
   * directory, the second save finds its file but raises on the read.
   */
  lemma SecondSaveElsewhereFails(st: ExcelState, locked: set<string>, date: string,
                                 mac1: string, file1: string, mac2: string, file2: string)
    requires st.path != OUTPUT_FILE && st.path !in st.workbooks && OUTPUT_FILE !in st.workbooks
    requires st.path !in locked
    ensures var r1 := Save(st, locked, date, mac1, file1);
            && r1.error.None?
            && Save(r1.state, locked, date, mac2, file2).error == Some(FileNotFound(OUTPUT_FILE))
  {
  }

  /** The evidently intended `save_data`: an existing sheet is read from `Excel.path` itself. */
  function CorrectedSave(st: ExcelState, locked: set<string>, date: string, macId: string, fileName: string): (r: SaveOutcome)
    ensures r.error.None? <==> st.path !in locked
    ensures r.state.rowId == (if st.path in st.workbooks then st.rowId else 2) + 1
  {
    Append(st, if st.path in st.workbooks then Some(st.workbooks[st.path]) else None, locked, date, macId, fileName)
  }

  /** The corrected save agrees with the code as written when the log lives in the working directory. */
  lemma CorrectedSaveAgrees(st: ExcelState, locked: set<string>, date: string, macId: string, fileName: string)
    requires st.path == OUTPUT_FILE
    ensures CorrectedSave(st, locked, date, macId, fileName) == Save(st, locked, date, macId, fileName)
  {
  }

  /** With the correction, two saves into a fresh file in any directory give rows 2 and 3 under the header. */
  lemma CorrectedTwoSavesAnywhere(st: ExcelState, locked: set<string>, date: string,
                                  mac1: string, file1: string, mac2: string, file2: string)
    requires st.path !in st.workbooks && st.path !in locked
    ensures var r1 := CorrectedSave(st, locked, date, mac1, file1);
            var r2 := CorrectedSave(r1.state, locked, date, mac2, file2);
            && r1.error.None? && r2.error.None?
            && HasHeader(r2.state.sheet)
            && HasRecord(r2.state.sheet, 2, 1, mac1, date, file1)
            && HasRecord(r2.state.sheet, 3, 2, mac2, date, file2)
            && r2.state.rowId == 4
            && r2.state.workbooks[st.path] == r2.state.sheet
  {
    var r1 := CorrectedSave(st, locked, date, mac1, file1);
    CorrectedFirstSave(st, locked, date, mac1, file1);
    var r2 := CorrectedSave(r1.state, locked, date, mac2, file2);
    assert r2 == Append(r1.state, Some(r1.state.sheet), locked, date, mac2, file2);
    AppendLoaded(r1.state, r1.state.sheet, locked, date, mac2, file2);
    assert forall c :: 1 <= c <= 4 ==> (2, c) in r1.state.sheet && (2, c) !in RowCells(3);
  }

  /** The first corrected save into a fresh file writes the header and row 2 to `Excel.path`. */
  lemma CorrectedFirstSave(st: ExcelState, locked: set<string>, date: string, macId: string, fileName: string)
    requires st.path !in st.workbooks && st.path !in locked
    ensures var r := CorrectedSave(st, locked, date, macId, fileName);
            && r.error.None? && r.state.path == st.path && r.state.rowId == 3
            && st.path in r.state.workbooks && r.state.workbooks[st.path] == r.state.sheet
            && HasHeader(r.state.sheet) && HasRecord(r.state.sheet, 2, 1, macId, date, fileName)
  {
    assert CorrectedSave(st, locked, date, macId, fileName) == Append(st, None, locked, date, macId, fileName);
    AppendFresh(st, locked, date, macId, fileName);
  }

  /** The files the appender touches. */
  class Disk {
    var workbooks: map<string, Sheet>
    var rowCounter: Option<int>
    var locked: set<string>

    constructor (workbooks: map<string, Sheet>, rowCounter: Option<int>, locked: set<string>)
      ensures this.workbooks == workbooks && this.rowCounter == rowCounter && this.locked == locked
    {
      this.workbooks := workbooks;
      this.rowCounter := rowCounter;
      this.locked := locked;
    }
  }

  /** The class attributes `Excel.path` and `Excel.saved_data`, shared by every `Excel` object. */
  class ExcelStatics {
    var path: string
    var savedData: string

    constructor ()
      ensures path == OUTPUT_FILE && savedData == ""
    {
      path := OUTPUT_FILE;
      savedData := "";
    }
  }

  class Excel {
    const statics: ExcelStatics
    const disk: Disk
    const date: string   // `str(date.today())`, taken when the object is made
    var sheet: Sheet     // `Sheet1` of `self.db`
    var rowId: int       // `self._config.row_id`

    function Current(): ExcelState
      reads this, statics, disk
    {
      ExcelState(statics.path, statics.savedData, sheet, rowId, disk.workbooks, disk.rowCounter)
    }

    /** `Excel()`: an empty database, today's date, and the row counter `ExcelConfig.load()` gave. */
    constructor (statics: ExcelStatics, disk: Disk, date: string, rowId: int)
      ensures this.statics == statics && this.disk == disk && this.date == date
      ensures sheet == map[] && this.rowId == rowId
    {
      this.statics := statics;
      this.disk := disk;
      this.date := date;
      sheet := map[];
      this.rowId := rowId;
    }

    /** `set_output_path(p)`. */
    method SetOutputPath(p: string)
      modifies statics
      ensures statics.path == OutputPath(p)
      ensures statics.savedData == old(statics.savedData)
    {
      statics.path := p;
      if p == "" {
        statics.path := OUTPUT_FILE;
      } else {
        statics.path := statics.path + "/" + OUTPUT_FILE;
      }
    }

    /** `save_data(mac_id, file_name)`. */
    method SaveData(macId: string, fileName: string) returns (error: Option<SaveError>)
      modifies this`sheet, this`rowId, statics`savedData, disk`workbooks, disk`rowCounter
      ensures SaveOutcome(Current(), error) == Save(old(Current()), old(disk.locked), date, macId, fileName)
      ensures disk.locked == old(disk.locked)
    {
      var path, books := statics.path, disk.workbooks;
      var db: Sheet;
      var row: int;
      if path in books {
        if OUTPUT_FILE !in books {
          return Some(FileNotFound(OUTPUT_FILE));
        }
        db, row := books[OUTPUT_FILE], rowId;
      } else {
        db := map[];
        db := db[(1, 1) := StrCell("Sl-No")];
        db := db[(1, 2) := StrCell("MAC-ID")];
        db := db[(1, 3) := StrCell("Date")];
        db := db[(1, 4) := StrCell("File Name")];
        assert db == HeaderSheet();
        row := 2;
      }
      ghost var base := db;
      db := db[(row, 1) := IntCell(row - 1)];
      db := db[(row, 2) := StrCell(macId)];
      db := db[(row, 3) := StrCell(date)];
      db := db[(row, 4) := StrCell(fileName)];
      assert db == WithRow(base, row, macId, date, fileName);
      sheet, rowId := db, row + 1;
      if path in disk.locked {
        return Some(WriteRefused(path));
      }
      disk.workbooks := books[path := db];
      statics.savedData := IntToDecimal(rowId - 2) + ", " + macId + ", " + date;
      disk.rowCounter := Some(rowId);
      error := None;
    }
  }
}
