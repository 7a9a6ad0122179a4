# FileProcessor in Dafny

This project models the core of the FileProcessor flat-file ETL utility: the `FileProcessor`
class (`src/fileprocr/FileProcessor.py`) and the Funding Corp processor set it mixes in
(`src/fileprocr/_fundingcorp.py`).

The model covers:

- how a file is loaded by extension;
- which worksheet or embedded HTML table the loaders pick;
- how the configuration lookup picks a processor;
- which of the five run-log lists every step appends to;
- the exact text `create_log` and `write_log` put in the log file.

Pandas values are abstracted to their shape. A DataFrame is a `Table(rows, cols)`, and it is empty when either axis is zero. A workbook is its sequence of named sheets. An HTML document is its sequence of tables.

Modules:

- `DataFrames`: tables, file contents as pandas can read them, and the faults that escape a loader. A fault is an uncaught Python exception, modelled as a `Result` value.
- `Text`: string helpers on `seq<char>`: `startswith`, `split("/")[-1]`, one-character `replace`, and the text a write loop produces.
- `Loaders`: the worksheet filter and the HTML largest-table scan, as functions, with their selection properties.
- `FundingCorp`: `choose_processor` and its two identity transformations.
- `Pipeline`: the run log as a value. Holds what `load`, `process` and one pass of the driver loop do to it, and the accounting properties of a whole run.
- `LogText`: the log file name, the header and the sections `write_log` renders.
- `FileProcessor`: the class itself. Its fields are updated in place by its methods. Each method's `ensures` ties the new state to the functions of `Pipeline` and `LogText`. The module also holds the script at the end of `FileProcessor.py` (`RunScript` and its loop).

Inputs the Python code takes from its environment become parameters:

- the clock reading, as the formatted timestamp;
- the directory listing, as a sequence of `FileEntry`;
- the parsed processor YAML, as `map<string, map<string, string>>`;
- what pandas makes of each file, as `Contents`.

The log file is the string field `logText`. It is overwritten by `create_log` (mode "w") and only appended to by `write_log` (mode "a").

Behaviour of the code that a reader of the class docstring (`src/fileprocr/FileProcessor.py` lines 60-70) or of `load`'s docstring might not expect, and which the model keeps as written:

- **Worksheet filter.** A sheet is discarded when its name *starts with* "Sheet", not only when it matches a "SheetN" pattern. So "Sheets" and "Sheet_notes" are discarded too.
- **HTML table choice.** A largest-table rule would pick the largest table, the first one on a tie. The code only records an index when a later table is *strictly* larger than the running maximum, and that maximum starts at table 0. So the code faults with an unbound `max_index` in three cases:
  - table 0 is the largest;
  - table 0 ties for the largest;
  - table 0 is the only table.

  A document without tables also faults, because `pd.read_html` raises. Otherwise the earliest table of largest size is returned. `Loaders.HtmlSelection` states exactly this.
- **Processor dispatch.** Dispatch is a closed `if`/`elif` chain over the method names "avg_bal_tb" and "bal_sheet_tb", not an open registry. The "class" entry of the descriptor is never read. Python truthiness decides `if processor_info:`, so an empty descriptor takes the same branch as a missing one.
- **Empty sections.** An empty issues list renders "No warnings or errors.", not "None". Only the four load and process sections render "None".
- **End-to-end example.** A workbook whose only sheet has the default name "Sheet1" loads as an empty table. So a single-sheet "Report.xlsx" only counts as loaded when its sheet has some other name. `Pipeline.RunExample` uses the name "Balances".
- **Extensions without a sub-loader.** An extension listed in `self.extensions` but handled by neither sub-loader would read `df` unassigned. That cannot happen with the default list (`Pipeline.SubLoaderCoverage`). It is modelled as the fault `NoSubLoader`, so that `load` is total for any list of extensions.

## Model

| member | source | states |
|---|---|---|
| Text.StartsWith | src/fileprocr/FileProcessor.py:295 | `name.startswith(prefix)`: the prefix is no longer than the name and is its leading part |
| Text.BaseName | src/fileprocr/FileProcessor.py:404 | `fname.split("/")[-1]`, built from the end of the path back to the last '/'; characterised by `Text.BaseNameIsLastComponent` |
| Text.RemoveChar | src/fileprocr/FileProcessor.py:172 | `timestamp.replace(":", "")` for a one-character pattern; characterised by `Text.RemoveCharDropsOnly`, `Text.RemoveCharAppend` and `Text.RemoveCharAbsent` |
| Text.ReplaceChar | src/fileprocr/FileProcessor.py:173 | `timestamp.replace(" ", "_")` for one-character patterns; characterised by `Text.ReplaceCharPointwise`, `Text.ReplaceCharAppend` and `Text.ReplaceCharAbsent` |
| Text.RemoveCharAppend | src/fileprocr/FileProcessor.py:172 | removing ':' from a concatenation removes it from each part, so the kept characters stay in order |
| Text.RemoveCharAround | src/fileprocr/FileProcessor.py:172 | removing ':' around one ':' joins what is left on either side |
| Text.RemoveCharAbsent | src/fileprocr/FileProcessor.py:172 | a text without ':' is left as it is |
| Text.ReplaceCharAppend | src/fileprocr/FileProcessor.py:173 | replacing ' ' in a concatenation replaces it in each part, in order |
| Text.ReplaceCharAbsent | src/fileprocr/FileProcessor.py:173 | a text without ' ' is left as it is |
| LogText.LogName | src/fileprocr/FileProcessor.py:164-176 | the log name: "./logs/log_", the timestamp with its colons removed and its spaces turned into underscores, ".txt"; characterised by `LogText.LogNameShape` and `LogText.LogNameOfDateTime` |
| LogText.LogNameOfDateTime | src/fileprocr/FileProcessor.py:170-176 | for a timestamp "date time" with no ':' or ' ' in the date and no ' ' in the time, the log name is "./logs/log_" + date + "_" + the time without its colons + ".txt" |
| LogText.LogNameOfClock | src/fileprocr/FileProcessor.py:170-176 | for the clock reading "date hh:mm:ss", the log name is "./logs/log_date_hhmmss.txt" |
| LogText.ColonsOfDateTime | src/fileprocr/FileProcessor.py:172 | removing ':' from "date time" keeps the date and the space and removes the colons of the time only |
| LogText.SpacesOfStamp | src/fileprocr/FileProcessor.py:173 | replacing ' ' in "date kept" turns only the separating space into '_' |
| LogText.ColonsOfClock | src/fileprocr/FileProcessor.py:172 | removing ':' from "hh:mm:ss" gives "hhmmss" |
| LogText.LogHeader | src/fileprocr/FileProcessor.py:171-185 | the text `create_log` writes: the session line, each `loadable_formats` line followed by "\n", then "\n\n"; characterised by `LogText.HeaderListsExtension` |
| LogText.Section | src/fileprocr/FileProcessor.py:457-510 | one section of `write_log`: title, rule, then "\n" and the empty-list text, or every message with its prefix in order; characterised by `LogText.SectionEmptyIff` |
| LogText.Render | src/fileprocr/FileProcessor.py:457-510 | everything one `write_log(field)` call appends: the issues part, the load part and the process part, in that order |
| LogText.RenderIssues | src/fileprocr/FileProcessor.py:457-468 | the issues section when the field is "all" or "issue", nothing otherwise |
| LogText.RenderLoads | src/fileprocr/FileProcessor.py:470-489 | the load-success then load-failure sections when the field is "all" or "load", nothing otherwise |
| LogText.RenderProcesses | src/fileprocr/FileProcessor.py:491-510 | the process-success then process-failure sections when the field is "all" or "process", nothing otherwise |
| Loaders.ReadSheet | src/fileprocr/FileProcessor.py:302-304 | `pd.read_excel(xl, name)`: the table of the first sheet with that name; characterised by `Loaders.ReadSheetFinds` |
| Loaders.ExcelLoad | src/fileprocr/FileProcessor.py:292-308 | `__load_excel` on the parsed file: the table of the first surviving sheet with the warning when several survive, the empty table when none does, a fault when the file is no workbook; characterised by the `Loaders.Excel*` lemmas |
| Loaders.HtmlSelect | src/fileprocr/FileProcessor.py:330-340 | `__load_html` on the tables found: no table faults, table 0 holding the largest count faults, otherwise the first table of largest count; characterised by `Loaders.HtmlSelection` |
| Loaders.HtmlLoad | src/fileprocr/FileProcessor.py:330-340 | `__load_html` on the parsed file: the selection for a document, a fault for anything `pd.read_html` cannot read |
| Pipeline.SubLoad | src/fileprocr/FileProcessor.py:259-263 | the sub-loader `load` calls: the excel loader for "xls"/"xlsx", the HTML loader for "eml"/"html" (which adds no issue), the unassigned-`df` fault otherwise; characterised by `Pipeline.SubLoaderCoverage` |
| Pipeline.LoadOutcome | src/fileprocr/FileProcessor.py:249-270 | `load` on a run log: refusal of an unlisted extension, or the sub-loader's table with its issues and the file in the load successes or failures; characterised by `Pipeline.LoadUnsupported`, `Pipeline.LoadRecordsOnce` and `Pipeline.LoadFaults` |
| Pipeline.ReadYaml | src/fileprocr/FileProcessor.py:406 | `read_yaml([proc_yaml, file], abort=False)`: the descriptor under the key, or nothing |
| Pipeline.Truthy | src/fileprocr/FileProcessor.py:408 | `if processor_info:`: false for no descriptor and for an empty one |
| Pipeline.ProcessOutcome | src/fileprocr/FileProcessor.py:404-424 | `process` on a run log: the dispatched table recorded as a success when non-empty, otherwise the "no processor" or "no entry" issue and a process failure; characterised by `Pipeline.ProcessMissingEntry`, `Pipeline.ProcessRecordsOnce` and `Pipeline.ProcessResolving` |
| Pipeline.FileStep | src/fileprocr/FileProcessor.py:527-533 | one pass of the driver loop: load the file, and process it when its table is non-empty; a loader fault escapes; characterised by `Pipeline.FileStepAccounts` |
| Pipeline.RunFrom | src/fileprocr/FileProcessor.py:527-533 | the driver loop over the listing in order, stopping at the first fault; characterised by `Pipeline.RunAccounts` and `Pipeline.RunSeparatesOutcomes` |
| Text.BaseNameIsLastComponent | src/fileprocr/FileProcessor.py:404 | the lookup key is the longest suffix of the path without '/': a suffix of the path, free of '/', and either the whole path or preceded by '/' |
| Text.BaseNameOfJoin | src/fileprocr/FileProcessor.py:404 | for `dir + "/" + name` with no '/' in `name`, the lookup key is exactly `name` |
| Text.RemoveCharDropsOnly | src/fileprocr/FileProcessor.py:172 | removing ':' drops every ':' and nothing else: no ':' is left, every other character keeps its count, and the length shrinks by the number of ':' |
| Text.ReplaceCharPointwise | src/fileprocr/FileProcessor.py:173 | replacing ' ' by '_' keeps the length and changes exactly the positions that held ' ' |
| LogText.LogNameShape | src/fileprocr/FileProcessor.py:164-176 | the log name is "./logs/log_" + stamp + ".txt", the stamp holds no ':' and no ' ', and the length is the timestamp's minus its colons plus 15 |
| LogText.FormatLines | src/fileprocr/FileProcessor.py:362-367 | the format listing has one line per extension plus two: the title first, the hint last, and line i+1 is "\t- " followed by extension i |
| LogText.HeaderListsExtension | src/fileprocr/FileProcessor.py:171-185 | the header is the session line, then every listing line followed by "\n", with extension i on its own line after the lines before it, then "\n\n" |
| FileProcessor.FileProcessor.constructor | src/fileprocr/FileProcessor.py:131-143 | a new processor has the four default extensions, the given directory, the log name of the timestamp, a log file holding exactly the header, and five empty lists |
| FileProcessor.FileProcessor.CreateLog | src/fileprocr/FileProcessor.py:164-194 | the log name is derived from the timestamp, the log file is replaced by the header (session line, format lines, blank lines), and all five lists are empty |
| FileProcessor.FileProcessor.WriteFormats | src/fileprocr/FileProcessor.py:181-184 | the log file gains exactly the format lines of the current extensions, each followed by "\n" |
| FileProcessor.FileProcessor.WriteLines | src/fileprocr/FileProcessor.py:182-184 | the log file gains each line, in order, each followed by "\n" |
| FileProcessor.FileProcessor.LoadableFormats | src/fileprocr/FileProcessor.py:362-373 | the returned message is the format listing of the processor's extensions; nothing is changed |
| FileProcessor.FileProcessor.Load | src/fileprocr/FileProcessor.py:249-270 | the returned table and the new lists are those of the `load` outcome for the old lists; a sub-loader fault escapes with the lists unchanged |
| Pipeline.LoadUnsupported | src/fileprocr/FileProcessor.py:249-255 | an unlisted extension gives the empty table, one issue naming the extension and the file, one load failure (the full path), and no other change |
| Pipeline.LoadRecordsOnce | src/fileprocr/FileProcessor.py:249-270 | a completed load records the file exactly once: as a load success iff its table is non-empty, otherwise as a load failure; at most one issue is added and the process lists are untouched |
| Pipeline.LoadFaults | src/fileprocr/FileProcessor.py:259-263 | `load` faults iff the extension is listed and its sub-loader faults |
| Pipeline.SubLoaderCoverage | src/fileprocr/FileProcessor.py:259-263 | every extension of the default list has a sub-loader; any other extension has none |
| FileProcessor.FileProcessor.LoadExcel | src/fileprocr/FileProcessor.py:292-308 | the table read and the issues added are those of the workbook selection; an unreadable file faults and adds nothing |
| Loaders.SheetNames | src/fileprocr/FileProcessor.py:294 | the sheet names, one per sheet, in workbook order |
| Loaders.Candidates | src/fileprocr/FileProcessor.py:293-296 | the survivors are no more than the names, and a name survives iff it is a workbook name not starting with "Sheet" |
| Loaders.FirstCandidate | src/fileprocr/FileProcessor.py:293-296 | the first survivor is the first name, in workbook order, that does not start with "Sheet" |
| Loaders.NoCandidates | src/fileprocr/FileProcessor.py:293-296 | when every name starts with "Sheet", nothing survives |
| Loaders.SeveralCandidates | src/fileprocr/FileProcessor.py:293-298 | more than one name survives iff two sheets have names not starting with "Sheet" |
| Loaders.ReadSheetFinds | src/fileprocr/FileProcessor.py:302-304 | reading by name gives the table of sheet k when no earlier sheet has the same name |
| Loaders.ExcelReadsFirstUsableSheet | src/fileprocr/FileProcessor.py:292-304 | the excel loader returns the table of the first sheet, in workbook order, whose name does not start with "Sheet" |
| Loaders.ExcelWarnsIffSeveral | src/fileprocr/FileProcessor.py:298-301 | the excel loader adds exactly the multiple-worksheets warning when two or more sheets are usable, and no issue otherwise |
| Loaders.ExcelNoUsableSheet | src/fileprocr/FileProcessor.py:305-306 | with no usable sheet the excel loader returns the empty table and adds no issue |
| Loaders.ExcelExample | src/fileprocr/FileProcessor.py:292-308 | sheets "Sheet1", "Data", "Summary": the "Data" table is read with one warning |
| Loaders.LargestArea | src/fileprocr/FileProcessor.py:331-336 | the largest cell count bounds every table's count and is attained by some table |
| Loaders.FirstLargest | src/fileprocr/FileProcessor.py:333-336 | the first index of largest cell count: its table attains the maximum and every earlier table is strictly smaller |
| Loaders.LargestStep | src/fileprocr/FileProcessor.py:333-336 | one more table changes the maximum and its first index only when it is strictly larger |
| Loaders.HtmlScanStep | src/fileprocr/FileProcessor.py:333-336 | one pass of `__load_html`'s loop keeps the running maximum and the index that set it; the index stays unset while table 0 holds the maximum |
| Loaders.HtmlScanDone | src/fileprocr/FileProcessor.py:338 | after the loop an unset index is the unbound-`max_index` fault, and a set index selects the chosen table |
| FileProcessor.FileProcessor.LoadHtml | src/fileprocr/FileProcessor.py:330-340 | the result of the running-maximum loop is the HTML selection of the document, faults included |
| Loaders.HtmlSelection | src/fileprocr/FileProcessor.py:330-340 | the HTML selection succeeds iff some later table is strictly larger than table 0, then returns a table of largest cell count, the earliest one; a non-empty document otherwise gives the unbound-`max_index` fault |
| Loaders.HtmlExample | src/fileprocr/FileProcessor.py:330-340 | tables of 2x2, 10x5 and 3x8 cells: the 10x5 table is selected |
| Loaders.HtmlFirstLargestFaults | src/fileprocr/FileProcessor.py:331-338 | when table 0 is at least as large as every other table the selection faults |
| FileProcessor.FileProcessor.Process | src/fileprocr/FileProcessor.py:404-424 | the returned table and the new lists are those of the `process` outcome for the old lists |
| Pipeline.ProcessMissingEntry | src/fileprocr/FileProcessor.py:404-424 | with no configuration entry for the base name the table is returned unchanged, with one "no entry" issue and one process failure and no other change |
| Pipeline.ProcessRecordsOnce | src/fileprocr/FileProcessor.py:408-424 | the file is recorded exactly once: as a process success iff it has an entry and the dispatched table is non-empty, otherwise with one issue and one process failure; the result is the input or the empty table and the load lists are untouched |
| Pipeline.ProcessResolving | src/fileprocr/FileProcessor.py:408-412 | a non-empty table whose file is configured with a resolving method comes back unchanged and is recorded as a process success only |
| FundingCorp.ChooseProcessor | src/fileprocr/_fundingcorp.py:61-70 | a resolving method name returns the input table, anything else returns the empty table |
| FundingCorp.AvgBalTb | src/fileprocr/_fundingcorp.py:98-99 | the Average Balances TB transform leaves the table as it is |
| FundingCorp.BalSheetTb | src/fileprocr/_fundingcorp.py:121-122 | the Balance Sheet TB transform leaves the table as it is |
| FundingCorp.MissingMethodGivesEmpty | src/fileprocr/_fundingcorp.py:61-68 | a descriptor without a "method" key gives the empty table |
| FundingCorp.OnlyMethodKeyMatters | src/fileprocr/_fundingcorp.py:61 | changing or adding any key other than "method", such as "class", does not change the result |
| FundingCorp.InputOrEmpty | src/fileprocr/_fundingcorp.py:63-70 | the result is always the input table or the empty table |
| FundingCorp.ChooseIdempotent | src/fileprocr/_fundingcorp.py:63-66 | dispatching twice equals dispatching once, and for a resolving name both equal the input |
| FileProcessor.FileProcessor.WriteLog | src/fileprocr/FileProcessor.py:450-512 | the log file gains exactly the rendering of the selected sections of the current lists; an unrecognised field adds nothing; the lists are outside the method's frame |
| FileProcessor.FileProcessor.WriteIssues | src/fileprocr/FileProcessor.py:457-468 | the log file gains the issues section exactly when the field is "all" or "issue" |
| FileProcessor.FileProcessor.WriteLoads | src/fileprocr/FileProcessor.py:470-489 | the log file gains the load-success and load-failure sections exactly when the field is "all" or "load" |
| FileProcessor.FileProcessor.WriteProcesses | src/fileprocr/FileProcessor.py:491-510 | the log file gains the process-success and process-failure sections exactly when the field is "all" or "process" |
| FileProcessor.FileProcessor.WriteSection | src/fileprocr/FileProcessor.py:470-479 | the log file gains the section's title, its rule and either the empty-list text or every message with its prefix, in order |
| LogText.RenderEmptyIffUnrecognized | src/fileprocr/FileProcessor.py:450-453 | `write_log` writes nothing iff the field is not one of "issue", "load", "process", "all" |
| LogText.RenderAll | src/fileprocr/FileProcessor.py:457-510 | "all" writes what "issue", "load" and "process" write, in that order |
| LogText.RenderIssueOnly | src/fileprocr/FileProcessor.py:457-468 | "issue" writes only the issues section |
| LogText.RenderLoadOnly | src/fileprocr/FileProcessor.py:470-489 | "load" writes only the two load sections |
| LogText.RenderProcessOnly | src/fileprocr/FileProcessor.py:491-510 | "process" writes only the two process sections |
| LogText.RenderReadsOwnLists | src/fileprocr/FileProcessor.py:457-510 | each single-section field depends only on its own lists |
| LogText.SectionEmptyIff | src/fileprocr/FileProcessor.py:458-468 | a section shows its empty-list text iff the list is empty, when that text cannot be confused with a written message |
| LogText.NoneIffEmpty | src/fileprocr/FileProcessor.py:471-479 | a load or process section is "None" iff its list is empty |
| LogText.EmptyTextsIffEmptyLists | src/fileprocr/FileProcessor.py:457-510 | the issues section says "No warnings or errors." iff there are no issues; each of the four other sections says "None" iff its list is empty |
| Pipeline.FileStepAccounts | src/fileprocr/FileProcessor.py:527-533 | one pass of the driver loop adds the path to exactly one load list and, if the file loaded, to exactly one process list |
| Pipeline.RunAccounts | src/fileprocr/FileProcessor.py:527-533 | over a completed run the load lists gain exactly the listed paths and the process lists gain exactly the newly loaded files |
| Pipeline.RunSeparatesOutcomes | src/fileprocr/FileProcessor.py:524-533 | from a fresh processor with distinct paths, every path is in exactly one load list, every loaded path in exactly one process list, and no file is both a success and a failure of one stage |
| Pipeline.RunExample | src/fileprocr/FileProcessor.py:524-536 | "Report.xlsx" with a named sheet of data and an entry using "avg_bal_tb", plus "Notes.txt": Report is loaded and processed, Notes is a load failure with one unsupported-format issue |
| FileProcessor.RunScript | src/fileprocr/FileProcessor.py:524-536 | the script leaves a processor whose lists are those of the whole run, and whose log file is the header followed by the "all" rendering; a loader fault leaves only the header |
| FileProcessor.RunFiles | src/fileprocr/FileProcessor.py:527-533 | the loop over the listing leaves the lists of the whole run, or reports the first loader fault |
| FileProcessor.RunFile | src/fileprocr/FileProcessor.py:528-531 | one pass loads the file and processes it when it gave data, leaving the lists of one driver step; a loader fault leaves them unchanged |

## Left out

- Pandas parsing (`pd.ExcelFile`, `pd.read_excel`, `pd.read_html`) is replaced by the `Contents` input. Cell values, column names and row order are not modelled, only each table's shape. A file pandas cannot read in the requested format is the fault `ParseFault`.
- The directory listing (`files`, `get_fnames`) is an input sequence of `FileEntry`. The driver passes the first extension of each entry, and that is the entry's `ext`. `checkdir` is not modelled: it only creates the "./logs" directory.
- `read_yaml` is a lookup in a map of string-valued descriptors. Non-string YAML values and a missing or malformed YAML file are not modelled.
- `datetime.now().strftime(...)` supplies the timestamp, which is a parameter.
- All `print` output is left out, including `loadable_formats(verbose=True)` and the `df.head()` call in the script. It is console I/O only.
- Opening, writing and closing the log file become updates to the string field `logText`. A failure to write is not modelled.
- The `sys.path` set-up and the imports at the top of `FileProcessor.py` are environment plumbing.
- The mixin relation between `FileProcessor` and `ProcessFC` is left out. `Process` calls `FundingCorp.ChooseProcessor` directly.
- The model does not catch exceptions, and neither does the code. A modelled fault (`pd.ExcelFile` or `pd.read_html` unable to read the file, no table in a document, the unbound `max_index`, an extension without a sub-loader) happens before `load` has appended anything. It ends the whole run with the lists as they were, and the script then never writes the log sections.
- Loaders.ExcelLoad: a fault of `pd.read_excel` on the chosen sheet (`src/fileprocr/FileProcessor.py` line 302 or 304) is not modelled. Reading a sheet always gives its table. In the source such a fault after line 299 would leave the multiple-worksheets warning in `log_issues`.
