# ESP flasher GUI: the logic behind the buttons

A Dafny model of the parts of the ESP flasher GUI that decide what happens,
apart from the widgets that display it:

- **Settings** (`config_file.py`): the `FlashConfig` object with its defaults. `load` reads the
  per-user JSON file and fails on a missing member. `save` writes exactly four members.
- **Flash command** (`main.py`, `EspToolThread.run`): the esptool argument vector built from the
  settings.
- **MAC text** (`main.py`, `esptool_read_mac`): the device's MAC bytes as colon-separated pairs of
  upper-case hex digits.
- **Handlers** (`main.py`, `MyPanel`, `SettingsTab`):
  - the fixed order of checks in `on_upload` and `on_read_mac`;
  - the firmware-path clean-up of `on_pick_file`;
  - the sorted port list of `_get_serial_ports`;
  - the radio-box lookups that `SettingsTab` makes when it is built.
- **Spreadsheet log** (`to_excel.py`, `Excel`): a header row when the file is new, one four-cell row
  per event at the persisted row counter, the counter advanced by one, and the `saved_data` summary.

Files and modules:

| file | module | models |
|---|---|---|
| wrappers.dfy | Wrappers | `Option`, `Result` |
| py_values.dfy | PyValues | Python values (`None`, `int`, `str`), truthiness, `str()` of an int and its inverse |
| py_text.dfy | PyText | `str.replace(c, "")`, `os.path.basename` (POSIX), `str` ordering |
| config_file.dfy | ConfigFile | `FlashConfig`, the JSON record, `load`/`save` |
| mac_address.dfy | MacAddress | `esptool_read_mac` formatting and the `Espflasher` errors before it |
| flash_command.dfy | FlashCommand | `EspToolThread.run` |
| serial_ports.dfy | SerialPorts | `_get_serial_ports` with `sorted` |
| panels.dfy | Panels | `MyPanel` and `SettingsTab` handlers |
| to_excel.dfy | ToExcel | `Excel.set_output_path`, `Excel.save_data` |

Config fields hold Python values (`PyVal`). The baud is the int 921600 by default. It becomes a
string once the radio box sets it, and after JSON carries it either way. The port is `None` or a
string. A config file is `None` when it does not exist and `Some(record)` otherwise. A record maps
member names to values.

Handlers do things outside the panel: they show a message box, read the MAC from the device, and
start the worker. Each handler call records these as `Effect`s, in order. An exception that
escapes a handler is its `raised` result.

The spreadsheet state has these parts:

- the class attributes `Excel.path` and `Excel.saved_data` (the `ExcelStatics` object, shared by
  every `Excel`);
- the open sheet;
- the row counter;
- a disk holding:
  - workbooks by path, each reduced to its `Sheet1` as a map from (row, column) to a cell;
  - the persisted counter;
  - the paths that refuse writing.

Behaviour of the code that the model follows:

- `run` only builds and prints the vector: the call into esptool is commented out (main.py:86).
- The worker refers to the panel's own `FlashConfig` object, not to a copy (main.py:68, main.py:189).
- The MAC is read by `on_upload` itself, before the worker is made (main.py:188-190).
- `SettingsTab` loads a separate `FlashConfig` (main.py:225). Its radio-box changes reach the main
  panel only through the saved file, on the next start.
- No code in these files parses esptool's progress output or saves to the log after an upload
  automatically: `on_auto_save` and `on_save` only print, and the `Excel` call in `ExeclTab.on_save`
  is commented out (main.py:214-218, main.py:324-326). `ExeclTab.on_save` still runs
  `from to_excel import Excel` (main.py:325), and that import runs `from config_file import ExcelConfig`
  (to_excel.py:3). config_file.py does not define `ExcelConfig`, so the import raises `ImportError`.
- `save_data` checks for a file at `Excel.path` but reads an existing sheet from `output.xlsx` in the
  working directory (to_excel.py:28-29). It writes back to `Excel.path` (to_excel.py:53).

## Model

| member | source | states |
|---|---|---|
| ConfigFile.FlashConfig.constructor | config_file.py:11-16 | a fresh config has baud the int 921600, port `None`, firmware path `None`, mode `dio`, erase `No` |
| ConfigFile.Defaults | config_file.py:11-16 | a fresh config has no port and no firmware path (both falsy), an int baud, and an erase label that is truthy |
| ConfigFile.FlashConfig.Load | config_file.py:18-30 | makes a default object, then assigns port, baud, mode and erase in that order; it fails with the `KeyError` of the first missing member; otherwise it returns a fresh object equal to `LoadSettings(file)` |
| ConfigFile.FlashConfig.Save | config_file.py:32-42 | the new file content is the four-member record of the current fields, whatever the file held before, and loading it gives back the fields with the firmware path `None` |
| ConfigFile.LoadSettings | config_file.py:18-30 | without a file, the defaults; a failure names one of the four members that the file lacks; a loaded config never has a firmware path |
| ConfigFile.SaveRecord | config_file.py:35-40 | the record has exactly the keys `baud`, `port`, `mode`, `erase`, holding the matching fields; the firmware path is not among them |
| ConfigFile.LoadWithoutFile | config_file.py:22-23 | without a file, `load` gives exactly the defaults |
| ConfigFile.LoadFailsIffMissing | config_file.py:26-29 | with a file, `load` fails if and only if one of `port`, `baud`, `mode`, `erase` is missing, and the error names the first missing one in reading order |
| ConfigFile.LoadTakesFileMembers | config_file.py:22-30 | a successful load takes port, baud, mode and erase from the file and leaves the firmware path `None` |
| ConfigFile.SaveLoadRoundTrip | config_file.py:19-42 | `save` then `load` restores port, baud, mode and erase; the firmware path comes back `None` |
| ConfigFile.LoadSaveRoundTrip | config_file.py:19-42 | saving what was loaded writes exactly the four members that were read |
| PyValues.NatToDecimal | main.py:75 | `str()` of a natural number: at least one character, all decimal digits, no leading zero |
| PyValues.IntToDecimal | main.py:75 | `str()` of an int starts with '-' if and only if the int is negative |
| PyValues.Truthy | main.py:81 | the falsy values are exactly `None`, `0` and `""` |
| PyValues.Str | main.py:75 | `str()` of a `str` is itself, and `str()` of an int reads back as that int |
| PyValues.DecimalRoundTrip | main.py:75 | `int(str(i)) == i` for every int |
| PyValues.DecimalInjective | to_excel.py:54 | different ints never have the same decimal text |
| FlashCommand.EspToolThread.constructor | main.py:62-69 | the thread holds the caller's config object itself |
| FlashCommand.EspToolThread.Run | main.py:71-90 | `run` builds the vector with a literal, an `extend` and a conditional `append`; it ends in the argument texts, 13 or 14 of them, or in the `TypeError` the join raises |
| FlashCommand.Argv | main.py:74-82 | the list `run` builds has 13 or 14 elements, and its first 13 are the fixed ones of the literal and the `extend` |
| FlashCommand.BaseArgs | main.py:74-79 | the literal plus the `extend` give 13 elements; port, mode and firmware path sit at positions 1, 10 and 12, and every other element is a `str` |
| FlashCommand.RunOutcome | main.py:74-84 | on success, one text per list element, in order; a failure means some element is not a `str` |
| FlashCommand.RunArguments | main.py:74-82 | with a `str` port, mode and path, the result is exactly `--port P --baud str(B) --after hard_reset write_flash --flash_size detect --flash_mode M 0x00000 F`, then `--erase-all` if and only if `erase_flash` is truthy |
| FlashCommand.RunFailsIffNotStrings | main.py:74-84 | `run` raises if and only if the port, the mode or the firmware path is not a `str` |
| FlashCommand.RunWithoutFirmwareFails | main.py:79-84 | the default firmware path `None` makes `run` raise |
| FlashCommand.EraseFlagPosition | main.py:81-82 | the first 13 elements are fixed; there are 14 if and only if erase is truthy, and then the 14th is `--erase-all` |
| FlashCommand.EraseNoStillErases | main.py:81-82 | as written, erase `No` still appends `--erase-all` |
| FlashCommand.RadioEraseAlwaysFourteen | main.py:81-82 | with erase `No` or `Yes`, the vector always has 14 elements |
| FlashCommand.CorrectedEraseIffYes | main.py:81-82 | the corrected vector has `--erase-all` if and only if erase is `Yes`, and agrees with the code on `Yes` |
| FlashCommand.CorrectedArgv | main.py:81-82 | the corrected vector keeps the 13 fixed elements and has a 14th if and only if erase is `Yes` |
| FlashCommand.ExampleInvocation | main.py:74-82 | port COM3, baud 115200, mode dio, erase Yes, firmware /tmp/app.bin give the exact 14-element vector |
| FlashCommand.DefaultBaudText | main.py:75 | `str()` of the default baud is `921600` |
| MacAddress.HexPair | main.py:56 | `'{:02X}'` of a byte is two upper-case hex digits whose value is the byte |
| MacAddress.MacText | main.py:56 | the text for n bytes has length 3n-1 (0 for none) |
| MacAddress.MacTextGroup | main.py:56 | group i sits at offset 3i and is the hex pair of byte i; every group but the last is followed by ':' |
| MacAddress.MacTextAlphabet | main.py:56 | every character is an upper-case hex digit or ':' |
| MacAddress.MacTextRoundTrip | main.py:56 | parsing the text gives back the bytes |
| MacAddress.MacTextInjective | main.py:56 | different MAC bytes never give the same text |
| MacAddress.SixByteMacLength | main.py:56 | a six-byte MAC is 17 characters long |
| MacAddress.ReadMac | main.py:21-58 | `esptool_read_mac` succeeds if and only if the device gave its bytes, and the text then parses back to them; each failing step gives its own `Espflasher` message: the step's prefix (`ESP Chip Auto-Detection failed: `, `Error connecting to ESP: `, `Reading chip details failed: `, `Serial port closed: `) followed by the underlying error's text |
| PyText.RemoveAll | main.py:193 | `replace("'", "")` leaves no `'` |
| PyText.RemoveAllCounts | main.py:193 | every other character occurs as often as before |
| PyText.RemoveAllAppend | main.py:193 | the removal distributes over concatenation, so the characters kept stay in order |
| PyText.RemoveAllAbsent | main.py:193 | a path without `'` is stored unchanged |
| PyText.RemoveAllIdempotent | main.py:193 | cleaning twice is cleaning once |
| PyText.Basename | main.py:195 | the file name holds no '/' |
| PyText.BasenameIsSuffix | main.py:195 | the file name is the path's suffix after its last '/', or the whole path when there is none |
| PyText.BasenameOfJoin | main.py:195 | the basename of `dir + "/" + name` is `name` when `name` has no '/' |
| PyText.StrLe | main.py:210 | Python's `str` ordering, under which a prefix sorts first |
| SerialPorts.SortCorrect | main.py:210 | `sorted` returns the same entries, ordered by the tuple order the model adopts for `sorted` |
| SerialPorts.PortLeTotal | main.py:210 | any two `(port, desc, hwid)` entries are comparable under the tuple order the model adopts for `sorted` |
| SerialPorts.PortLeTransitive | main.py:210 | that tuple order is transitive |
| SerialPorts.PortLeDevice | main.py:210 | an entry that sorts first never has the greater port name |
| SerialPorts.Sort | main.py:210 | `sorted` keeps exactly the entries it was given, with their multiplicities |
| SerialPorts.GetSerialPorts | main.py:207-212 | one name per sorted entry, in that order, so the names ascend |
| Panels.UploadWithoutPort | main.py:179-181 | without a port, upload only reports `No Port Selected !`: it checks no file, reads no MAC, starts no worker |
| Panels.UploadWithEmptyPath | main.py:182-184 | with a port, a firmware path of exactly `""` is reported as `No file is selected !` and nothing runs |
| Panels.UploadReadsMacFirst | main.py:185-190 | when both checks pass, the MAC is read first; the worker starts after it if and only if the read succeeds |
| Panels.WorkerFollowsMacRead | main.py:178-190 | for every input, a worker only ever starts right after a MAC read, and at most once |
| Panels.UploadWithoutFileRaises | main.py:182-187 | as written, a `None` path passes the check and the print at line 187 raises `TypeError`, with no message and nothing run |
| Panels.CorrectedUploadNeedsFile | main.py:178-190 | the corrected handler reports a `None` or empty path, and starts a worker only for a non-empty path |
| Panels.CorrectedUploadReaction | main.py:178-190 | the corrected handler has at most two effects, starts a worker only for a non-empty `str` path, and starts none when an exception escapes |
| Panels.ReadMacReaction | main.py:165-174 | exactly one effect: the `No Port Selected !` box if and only if there is no port, else exactly one MAC read on that port (`[MacRead(port)]`); an exception escapes if and only if there is a port and the device gave no MAC |
| Panels.UploadReaction | main.py:178-190 | at most two effects, and when an exception escapes no worker was started |
| Panels.MyPanel.constructor | main.py:106-139 | the panel keeps the loaded config, lists the sorted port names, starts with `MAC address` shown |
| Panels.MyPanel.OnReadMac | main.py:165-174 | without a port only the message; otherwise the text is cleared and the device read; on success the text and `MyPanel.mac_address` become the MAC, on failure the `Espflasher` escapes |
| Panels.MyPanel.OnUpload | main.py:178-190 | the effects and exception are those of the upload checks above, and the MAC text changes only through the read |
| Panels.MyPanel.OnPickFile | main.py:192-196 | the firmware path becomes the chosen path with every `'` removed, the file name its basename; nothing else changes |
| Panels.MyPanel.OnSelectPort | main.py:198-201 | the port becomes the chosen list entry; the other settings are unchanged |
| Panels.MyPanel.OnReload | main.py:203-205 | the choices become the sorted port names again |
| Panels.IndexOf | main.py:236 | `list.index`: the first position holding the value, or `ValueError` if and only if the value is absent |
| Panels.Selections | main.py:232-262 | each found position holds the field's value in its label list; a `ValueError` means a value is not among the labels |
| Panels.SelectionsIffRadioValues | main.py:232-262 | the tab's three lookups succeed if and only if baud, mode and erase are radio labels, and they find those labels |
| Panels.FreshSettingsTabFails | main.py:232-238 | as written, a fresh config's int baud is not among the string labels, so building the tab raises `ValueError` |
| Panels.IntBaudFails | main.py:236 | any int baud makes the lookup raise |
| Panels.CorrectedSelectionsOfDefaults | main.py:232-262 | looking the baud up by `str(baud)` places a fresh config at 921600, dio, No |
| Panels.CorrectedSelectionsAgree | main.py:236 | on string bauds the corrected lookups equal the original ones |
| Panels.CorrectedSelections | main.py:236 | a found baud position holds the label `str(baud)`, and for an int baud that label reads back as the int |
| Panels.SettingsTab.Open | main.py:222-262 | the tab is built if and only if the lookups succeed, holding the config and the found positions |
| Panels.SettingsTab.OnBaudRate | main.py:277-281 | the baud becomes the chosen label string; nothing else changes |
| Panels.SettingsTab.OnMode | main.py:283-287 | the mode becomes the chosen label; nothing else changes |
| Panels.SettingsTab.OnErase | main.py:289-292 | erase becomes the label `No` or `Yes`; nothing else changes |
| Panels.SettingsTab.OnSave | main.py:294-297 | the config file becomes the four-member record, which loads back |
| Panels.RadioValuesPersist | main.py:277-297 | once all three radio boxes are used, the saved file loads, the tab opens on it, and the vector has 14 elements |
| ToExcel.OutputPathName | to_excel.py:17-24 | `set_output_path("")` gives `output.xlsx`, a non-empty p gives `p + "/output.xlsx"`, and the file is always named `output.xlsx` |
| ToExcel.OutputPath | to_excel.py:17-23 | an empty p gives exactly `output.xlsx`; the path always ends in `output.xlsx`, and for a non-empty p starts with `p/` |
| ToExcel.Excel.SetOutputPath | to_excel.py:17-24 | `Excel.path` becomes `output.xlsx` for an empty p and `p/output.xlsx` otherwise; `saved_data` is untouched |
| ToExcel.Excel.constructor | to_excel.py:11-15 | an empty database, the given date text and the row counter the config gave |
| ToExcel.ExcelStatics.constructor | to_excel.py:8-9 | before any call, `Excel.path` is `output.xlsx` and `Excel.saved_data` is empty |
| ToExcel.Excel.SaveData | to_excel.py:26-56 | the new sheet, counter, disk and `saved_data` are those of `Save` on the old state |
| ToExcel.Append | to_excel.py:31-56 | the path is kept; the counter goes to `row_id + 1`, or to 3 on a new file; the write succeeds if and only if the path is not refused; a refused write keeps the disk, the counter file and `saved_data`; a completed one puts the sheet at `Excel.path` |
| ToExcel.Save | to_excel.py:26-56 | the read fails if and only if `Excel.path` exists and `output.xlsx` does not, and then nothing changes; no workbook other than `Excel.path` is created |
| ToExcel.SaveTouchesOnlyPath | to_excel.py:53 | every workbook other than the one at `Excel.path` is kept as it was |
| ToExcel.WithRowFrame | to_excel.py:43-49 | a row write sets exactly the four cells of `row_id` to `(row_id-1, mac, date, file)` and keeps every other cell |
| ToExcel.AppendFresh | to_excel.py:31-50 | a blank sheet gets the header `Sl-No, MAC-ID, Date, File Name`, the event at row 2 with sequence number 1, nothing else, and the counter 3 |
| ToExcel.HeaderSheet | to_excel.py:33-37 | a blank `Sheet1` with `Sl-No`, `MAC-ID`, `Date`, `File Name` in row 1 and no other cell |
| ToExcel.AppendLoaded | to_excel.py:41-53 | a loaded sheet gets the event at `row_id`, keeps every other cell including its header, and the counter advances by one |
| ToExcel.SaveToNewFile | to_excel.py:28-56 | without a file at `Excel.path`: header row, then row 2 with sequence 1, counter 3, and the persisted counter 3; the sheet is written to `Excel.path` |
| ToExcel.SaveToExistingFile | to_excel.py:28-56 | with a file: the sheet of `output.xlsx` plus the row at `row_id`, other cells unchanged, counter +1, written to `Excel.path` |
| ToExcel.SaveKeepsHeader | to_excel.py:28-49 | appending at `row_id >= 2` to a sheet with a header keeps the header |
| ToExcel.SavedDataLeadsWithSeqNo | to_excel.py:50-54 | `saved_data` starts with `row_id - 2` after the increment, the sequence number just written |
| ToExcel.SavedTextSeqNo | to_excel.py:54 | two `saved_data` texts that are equal carry the same sequence number |
| ToExcel.SavedText | to_excel.py:54 | `saved_data` begins with the decimal text of the sequence number, immediately followed by a comma |
| ToExcel.SaveCounterAdvances | to_excel.py:28-50 | while the file exists the counter never resets: each save adds exactly one |
| ToExcel.SaveRefusedKeepsDisk | to_excel.py:50-53 | a refused write leaves the disk and `saved_data` alone, while the in-memory counter has advanced |
| ToExcel.SaveFailedReadChangesNothing | to_excel.py:28-29 | with `Excel.path` present but `output.xlsx` missing, the read raises and nothing changes |
| ToExcel.TwoSavesFromFresh | to_excel.py:26-56 | two saves into a fresh `output.xlsx` give the header in row 1, rows 2 and 3 with sequence numbers 1 and 2, and the counter 4 |
| ToExcel.SecondSaveElsewhereFails | to_excel.py:28-53 | as written, after a first save into a directory other than the working directory, the second save raises on reading `output.xlsx` |
| ToExcel.CorrectedSaveAgrees | to_excel.py:28-29 | reading from `Excel.path` changes nothing while the path is `output.xlsx` |
| ToExcel.CorrectedTwoSavesAnywhere | to_excel.py:28-29 | with that correction, two saves into a fresh file in any directory give rows 2 and 3 under the header |
| ToExcel.CorrectedSave | to_excel.py:28-29 | reading from `Excel.path` never fails the read: the save ends in an error if and only if the write is refused, and the counter goes to `row_id + 1`, or to 3 on a new file |
| ToExcel.CorrectedFirstSave | to_excel.py:28-53 | the first corrected save into a fresh file writes the header and row 2 to `Excel.path` |

## Left out

- The wx widgets, sizers, message-box rendering, notebook, menu and app loop (main.py:102-394): these are UI. Only what a handler decides is modelled.
- The chip: `detect_chip`, `connect` and `read_mac` (main.py:21-39) are esptool calls. What the device answers is the input `ChipReply`.
- MacAddress.ReadMac: only `FatalError` is taken to come out of `detect_chip`, `connect` and `read_mac`, plus `SerialException` out of `read_mac`. Any other exception would escape `esptool_read_mac` without the `Espflasher` wrapping, and `ChipReply` cannot express that.
- The flashing itself: `esptool.main` is commented out in main.py:86. `run` is modelled up to the join of line 84.
- FlashCommand.EspToolThread.Run: the two prints of main.py:83-84 are not modelled, only the `TypeError` the join raises. The thread runs to its end at `start()`: there is no concurrency in the model.
- `prevent_print` and `DEVNULL` (main.py:10, main.py:42-50) swap `sys.stdout`, which is global I/O. Only the `SerialException` message it produces is kept.
- `list_ports.comports()` is an OS query, and its entries are an input. pyserial's own `ListPortInfo` ordering is not modelled: the entries are ordered as Python orders `(port, desc, hwid)` tuples.
- JSON and xlsx I/O (`json.load`/`dump`, `pylightxl` `readxl`/`writexl`) are abstract:
  - a JSON file is a record, and malformed JSON or a non-object file is not modelled;
  - a workbook is its `Sheet1`, so a workbook without that sheet is not modelled;
  - `add_ws` is taken to replace the sheet with an empty one.
- `wx.StandardPaths` and `get_config_file_path`: the config file is a single `Option<Record>`.
- `date.today()` is a parameter of the `Excel` constructor.
- `ExcelConfig` is imported from config_file.py, but that file does not define it. In the model it stands for the `row_id` given to the constructor plus the persisted counter that `save_data` writes.
- A refused write (`writexl` on a locked file) is modelled by the set of paths the disk will not write. Other I/O failures are not modelled.
- ToExcel.SecondSaveElsewhereFails: the disk identifies files by their path text, without resolving them against the working directory. So `./output.xlsx`, or an absolute path into the working directory, counts as a file other than `output.xlsx`. In the program such a path names the file that `readxl` reads, and the second save succeeds. The lemma therefore shows the bug only for a directory other than the working one.
- `PyVal` holds only `None`, ints and strings. It cannot hold JSON `true`/`false`, floats, arrays or objects. For example, a hand-edited `"erase": false` would skip `--erase-all` at main.py:81, and the model cannot express that file.
- Basenames follow POSIX (`/` only). Windows' `\` separator is not modelled.
- `MyPanel.filename` and `MyPanel.mac_address` are class attributes in the source. They are fields of the one panel here.
- `on_auto_save`, `MyPanel.on_save`, `ExeclTab.on_save` and `ExeclTab.on_pick_dir` (main.py:214-218, main.py:324-330) are not modelled. `on_auto_save` and `MyPanel.on_save` only print, and `on_pick_dir` only stores and prints the chosen directory. `ExeclTab.on_save` holds a commented-out `Excel` call, but its `from to_excel import Excel` (main.py:325) executes. That import runs `from config_file import ExcelConfig` (to_excel.py:3), which raises `ImportError`, because config_file.py does not define `ExcelConfig`.

## Findings

| source | as written | input that shows it | evidently intended | confidence | as-written member | corrected member |
|---|---|---|---|---|---|---|
| main.py:81-82 | `if self._config.erase_flash:` tests the truthiness of the string label | erase `No` (the default): the vector still ends in `--erase-all` | append `--erase-all` only when erase is `Yes` | high; not executed | FlashCommand.EraseNoStillErases | FlashCommand.CorrectedEraseIffYes |
| main.py:236 | `baud_rate_list.index(self._config.baud)` looks up the int default among string labels | no config file: baud is the int 921600, so `ValueError` is raised while the tab is built | look up `str(baud)` | high; not executed | Panels.FreshSettingsTabFails | Panels.CorrectedSelectionsOfDefaults |
| main.py:182-187 | only a path equal to `""` is rejected; the default `None` passes, then `str + None` raises | port `COM3`, no file picked: `TypeError`, no message shown | report `No file is selected !` for `None` as well | high; not executed | Panels.UploadWithoutFileRaises | Panels.CorrectedUploadNeedsFile |
| to_excel.py:28-29 | existence is checked at `Excel.path`, but the sheet is read from `output.xlsx` | `set_output_path("/logs")` with `/logs` not the working directory, two saves: the second raises on `readxl` | read the sheet from `Excel.path` | medium (nothing in these files calls `set_output_path`); not executed | ToExcel.SecondSaveElsewhereFails | ToExcel.CorrectedTwoSavesAnywhere |

The classes model the code as written. For each finding, the corrected definition stands beside
the as-written one, and the intended property is proved for it.
