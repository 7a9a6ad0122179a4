/** The run log's bookkeeping as values: what `load`, `process` and the driver loop record,
    and the accounting properties of a whole run. */
module Pipeline {
  import opened DataFrames
  import opened Text
  import opened Loaders
  import FundingCorp

  /** The five message lists of a `FileProcessor`. */
  datatype RunLog = RunLog(
    issues: seq<string>,     // log_issues: warnings and errors
    loads: seq<string>,      // log_loads: files loaded into a non-empty table
    loadFails: seq<string>,  // log_loadfails: files that gave no data
    procs: seq<string>,      // log_procs: files processed into a non-empty table
    procFails: seq<string>)  // log_procfails: files whose processing failed

  const EmptyLog: RunLog := RunLog([], [], [], [], [])

  /** The processor YAML, parsed: file name to its descriptor ({"class": ..., "method": ...}). */
  type Config = map<string, map<string, string>>

  /** A file as the directory lister reports it: full path, extension, and what pandas can read. */
  datatype FileEntry = FileEntry(path: string, ext: string, contents: Contents)

  function UnsupportedFormatIssue(fext: string, fname: string): string {
    "\n- ERROR: '" + fext + "' is not a loadable format for " + fname + ". \n\tNo data loaded."
  }

  function NoProcessorIssue(file: string): string {
    "\n- ERROR: no processor found for '" + file + "'. \n\tAdd processor to data source's mixin class."
  }

  function NoEntryIssue(file: string, procYaml: string): string {
    "\n- ERROR: no entry found for '" + file + "' in yaml. \n\tVerify entry in " + procYaml + "."
  }

  // ---------------------------------------------------------------- load

  /** The sub-loader the extension selects: its table and the issues it records. An extension
      with no sub-loader leaves `df` unassigned, and reading it faults. */
  function SubLoad(fext: string, contents: Contents): Result<(Table, seq<string>)> {
    if fext == "xls" || fext == "xlsx" then ExcelLoad(contents)
    else if fext == "eml" || fext == "html" then
      match HtmlLoad(contents)
      case Ok(t) => Ok((t, []))
      case Err(f) => Err(f)
    else Err(NoSubLoader)
  }

  /** `load` with `self.extensions` equal to `exts`: the table returned and the run log
      afterwards; a sub-loader fault escapes. */
  function LoadOutcome(log: RunLog, exts: seq<string>, fname: string, fext: string, contents: Contents)
    : Result<(Table, RunLog)>
  {
    if fext !in exts then
      Ok((EmptyTable, log.(issues := log.issues + [UnsupportedFormatIssue(fext, fname)],
                           loadFails := log.loadFails + [fname])))
    else
      match SubLoad(fext, contents)
      case Err(f) => Err(f)
      case Ok((df, warnings)) =>
        var log' := log.(issues := log.issues + warnings);
        if !df.Empty() then Ok((df, log'.(loads := log.loads + [fname])))
        else Ok((df, log'.(loadFails := log.loadFails + [fname])))
  }

  /** An unlisted extension gives the empty table, one issue and one load failure (the full
      path), and leaves the other lists alone. */
  lemma LoadUnsupported(log: RunLog, exts: seq<string>, fname: string, fext: string, contents: Contents)
    requires fext !in exts
    ensures LoadOutcome(log, exts, fname, fext, contents)
         == Ok((EmptyTable, RunLog(log.issues + [UnsupportedFormatIssue(fext, fname)], log.loads,
                                   log.loadFails + [fname], log.procs, log.procFails)))
  {
  }

  /** Every completed `load` records the file exactly once: in the load successes when the table
      is non-empty, in the load failures otherwise. It records at most one issue and leaves the
      process lists alone. */
  lemma LoadRecordsOnce(log: RunLog, exts: seq<string>, fname: string, fext: string, contents: Contents)
    requires LoadOutcome(log, exts, fname, fext, contents).Ok?
    ensures var (df, log') := LoadOutcome(log, exts, fname, fext, contents).value;
      && (if df.Empty() then log'.loads == log.loads && log'.loadFails == log.loadFails + [fname]
          else log'.loads == log.loads + [fname] && log'.loadFails == log.loadFails)
      && log'.procs == log.procs && log'.procFails == log.procFails
      && log.issues <= log'.issues && |log'.issues| <= |log.issues| + 1
  {
    if fext in exts && (fext == "xls" || fext == "xlsx") {
      match contents
      case Workbook(wb) => ExcelWarnsIffSeveral(wb);
      case _ =>
    }
  }

  /** Only a listed extension can fault, and only when its sub-loader does. */
  lemma LoadFaults(log: RunLog, exts: seq<string>, fname: string, fext: string, contents: Contents)
    ensures LoadOutcome(log, exts, fname, fext, contents).Err? <==> fext in exts && SubLoad(fext, contents).Err?
  {
  }

  /** Every extension of the default list has a sub-loader, so with that list `load` faults only
      when pandas does; a listed extension without one always faults. */
  lemma SubLoaderCoverage(fext: string, contents: Contents)
    ensures fext in DefaultExtensions ==> SubLoad(fext, contents) != Err(NoSubLoader)
    ensures fext !in DefaultExtensions ==> SubLoad(fext, contents) == Err(NoSubLoader)
  {
  }

  // ---------------------------------------------------------------- process

  /** `read_yaml([proc_yaml, key], abort=False)`: the entry for the key, or nothing. */
  function ReadYaml(config: Config, key: string): Option<map<string, string>> {
    if key in config then Some(config[key]) else None
  }

  /** Python truthiness of `processor_info`: None and the empty dict are both false. */
  predicate Truthy(info: Option<map<string, string>>) {
    info.Some? && info.value != map[]
  }

  /** `process`: the table returned and the run log afterwards. */
  function ProcessOutcome(log: RunLog, fname: string, df: Table, procYaml: string, config: Config): (Table, RunLog) {
    var file := BaseName(fname);
    var processorInfo := ReadYaml(config, file);
    if Truthy(processorInfo) then
      var df' := FundingCorp.ChooseProcessor(df, processorInfo.value);
      if !df'.Empty() then (df', log.(procs := log.procs + [fname]))
      else (df', log.(issues := log.issues + [NoProcessorIssue(file)], procFails := log.procFails + [fname]))
    else
      (df, log.(issues := log.issues + [NoEntryIssue(file, procYaml)], procFails := log.procFails + [fname]))
  }

  /** Without a configuration entry for the base name, the table comes back unchanged with one
      issue and one process failure. */
  lemma ProcessMissingEntry(log: RunLog, fname: string, df: Table, procYaml: string, config: Config)
    requires BaseName(fname) !in config
    ensures ProcessOutcome(log, fname, df, procYaml, config)
         == (df, RunLog(log.issues + [NoEntryIssue(BaseName(fname), procYaml)], log.loads, log.loadFails,
                        log.procs, log.procFails + [fname]))
  {
  }

  /** Every `process` records the file exactly once: in the process successes exactly when the
      base name has an entry and the dispatched table is non-empty; otherwise one issue and one
      process failure. The result is the input or the empty table; the load lists are untouched. */
  lemma ProcessRecordsOnce(log: RunLog, fname: string, df: Table, procYaml: string, config: Config)
    ensures var (df', log') := ProcessOutcome(log, fname, df, procYaml, config);
      var entry := ReadYaml(config, BaseName(fname));
      && (df' == df || df' == EmptyTable)
      && (if Truthy(entry) && !df'.Empty()
          then log'.procs == log.procs + [fname] && log'.procFails == log.procFails && log'.issues == log.issues
          else log'.procs == log.procs && log'.procFails == log.procFails + [fname] && |log'.issues| == |log.issues| + 1
               && log.issues <= log'.issues)
      && log'.loads == log.loads && log'.loadFails == log.loadFails
  {
    var file := BaseName(fname);
    var entry := ReadYaml(config, file);
    var (df', log') := ProcessOutcome(log, fname, df, procYaml, config);
    if Truthy(entry) {
      var chosen := FundingCorp.ChooseProcessor(df, entry.value);
      FundingCorp.InputOrEmpty(df, entry.value);
      assert df' == chosen;
      if chosen.Empty() {
        assert log' == log.(issues := log.issues + [NoProcessorIssue(file)], procFails := log.procFails + [fname]);
      } else {
        assert log' == log.(procs := log.procs + [fname]);
      }
    } else {
      assert log' == log.(issues := log.issues + [NoEntryIssue(file, procYaml)], procFails := log.procFails + [fname]);
    }
  }

  /** A non-empty table whose file is configured with a resolving method is processed
      successfully and comes back unchanged. */
  lemma ProcessResolving(log: RunLog, fname: string, df: Table, procYaml: string, config: Config)
    requires !df.Empty()
    requires BaseName(fname) in config && FundingCorp.Resolves(config[BaseName(fname)])
    ensures ProcessOutcome(log, fname, df, procYaml, config) == (df, log.(procs := log.procs + [fname]))
  {
  }

  // ---------------------------------------------------------------- the driver loop

  function Paths(es: seq<FileEntry>): (ps: seq<string>)
    ensures |ps| == |es|
    ensures forall i :: 0 <= i < |es| ==> ps[i] == es[i].path
  {
    seq(|es|, i requires 0 <= i < |es| => es[i].path)
  }

  /** The log after one file of the driver loop: load it, and process it if it gave data. */
  function FileStep(log: RunLog, exts: seq<string>, e: FileEntry, procYaml: string, config: Config): Result<RunLog> {
    match LoadOutcome(log, exts, e.path, e.ext, e.contents)
    case Err(f) => Err(f)
    case Ok((df, log')) =>
      if df.Empty() then Ok(log') else Ok(ProcessOutcome(log', e.path, df, procYaml, config).1)
  }

  /** The driver loop over the listed files, in listing order; the first fault ends the run. */
  function RunFrom(log: RunLog, exts: seq<string>, es: seq<FileEntry>, procYaml: string, config: Config): Result<RunLog>
    decreases |es|
  {
    if es == [] then Ok(log)
    else
      match FileStep(log, exts, es[0], procYaml, config)
      case Err(f) => Err(f)
      case Ok(log') => RunFrom(log', exts, es[1..], procYaml, config)
  }

  /** From `before` to `after` the listed `paths` were each recorded once in the load lists,
      and exactly the newly loaded files were each recorded once in the process lists. */
  ghost predicate Accounted(before: RunLog, after: RunLog, paths: seq<string>) {
    && before.loads <= after.loads && before.issues <= after.issues
    && multiset(after.loads + after.loadFails) == multiset(before.loads + before.loadFails) + multiset(paths)
    && multiset(after.procs + after.procFails) + multiset(before.loads)
       == multiset(before.procs + before.procFails) + multiset(after.loads)
  }

  lemma AccountedTrans(a: RunLog, b: RunLog, c: RunLog, p: seq<string>, q: seq<string>)
    requires Accounted(a, b, p) && Accounted(b, c, q)
    ensures Accounted(a, c, p + q)
  {
    var lhs := multiset(c.procs + c.procFails) + multiset(a.loads);
    var rhs := multiset(a.procs + a.procFails) + multiset(c.loads);
    forall x ensures lhs[x] == rhs[x] {
      assert (multiset(c.procs + c.procFails) + multiset(b.loads))[x] == (multiset(b.procs + b.procFails) + multiset(c.loads))[x];
      assert (multiset(b.procs + b.procFails) + multiset(a.loads))[x] == (multiset(a.procs + a.procFails) + multiset(b.loads))[x];
    }
    assert lhs == rhs;
  }

  /** Each file adds its path to exactly one of the load lists, and, when it loaded, to exactly
      one of the process lists. */
  lemma FileStepAccounts(log: RunLog, exts: seq<string>, e: FileEntry, procYaml: string, config: Config)
    requires FileStep(log, exts, e, procYaml, config).Ok?
    ensures Accounted(log, FileStep(log, exts, e, procYaml, config).value, [e.path])
  {
    LoadRecordsOnce(log, exts, e.path, e.ext, e.contents);
    var (df, log1) := LoadOutcome(log, exts, e.path, e.ext, e.contents).value;
    if !df.Empty() {
      ProcessRecordsOnce(log1, e.path, df, procYaml, config);
    }
  }

  /** A completed run accounts for every listed file: the load lists gain exactly the listed
      paths, and the process lists gain exactly the files that loaded. */
  lemma {:induction false} RunAccounts(log: RunLog, exts: seq<string>, es: seq<FileEntry>, procYaml: string, config: Config)
    requires RunFrom(log, exts, es, procYaml, config).Ok?
    decreases |es|
    ensures Accounted(log, RunFrom(log, exts, es, procYaml, config).value, Paths(es))
  {
    if es == [] {
      assert Paths(es) == [];
    } else {
      var step := FileStep(log, exts, es[0], procYaml, config);
      assert step.Ok?;
      FileStepAccounts(log, exts, es[0], procYaml, config);
      assert RunFrom(log, exts, es, procYaml, config) == RunFrom(step.value, exts, es[1..], procYaml, config);
      RunAccounts(step.value, exts, es[1..], procYaml, config);
      assert Paths(es) == [es[0].path] + Paths(es[1..]);
      AccountedTrans(log, step.value, RunFrom(log, exts, es, procYaml, config).value, [es[0].path], Paths(es[1..]));
    }
  }

  /** A sequence without repeats holds each value at most once. */
  lemma {:induction false} DistinctCount(s: seq<string>, x: string)
    requires forall i, j :: 0 <= i < j < |s| ==> s[i] != s[j]
    ensures multiset(s)[x] <= 1
  {
    if s != [] {
      var init := s[..|s| - 1];
      assert s == init + [s[|s| - 1]];
      DistinctCount(init, x);
      if x == s[|s| - 1] {
        assert x !in init;
      }
    }
  }

  /** Accounting from the empty log: the load lists hold exactly the paths, the process lists
      exactly the loaded files. */
  lemma AccountedFromEmpty(log: RunLog, paths: seq<string>)
    requires Accounted(EmptyLog, log, paths)
    ensures multiset(log.loads + log.loadFails) == multiset(paths)
    ensures multiset(log.procs + log.procFails) == multiset(log.loads)
  {
    assert multiset(EmptyLog.loads) == multiset{} && EmptyLog.loads + EmptyLog.loadFails == [];
    assert EmptyLog.procs + EmptyLog.procFails == [];
    assert multiset(EmptyLog.procs + EmptyLog.procFails) == multiset{};
    assert multiset(log.procs + log.procFails) + multiset(EmptyLog.loads)
        == multiset(EmptyLog.procs + EmptyLog.procFails) + multiset(log.loads);
    var processed, loaded := multiset(log.procs + log.procFails), multiset(log.loads);
    assert processed + multiset{} == multiset{} + loaded;
    assert processed + multiset{} == processed && multiset{} + loaded == loaded;
  }

  /** With paths that do not repeat, no path is both a success and a failure of one stage. */
  lemma Separated(log: RunLog, paths: seq<string>)
    requires forall i, j :: 0 <= i < j < |paths| ==> paths[i] != paths[j]
    requires multiset(log.loads + log.loadFails) == multiset(paths)
    requires multiset(log.procs + log.procFails) == multiset(log.loads)
    ensures forall x :: !(x in log.loads && x in log.loadFails)
    ensures forall x :: !(x in log.procs && x in log.procFails)
  {
    forall x ensures !(x in log.loads && x in log.loadFails) && !(x in log.procs && x in log.procFails) {
      DistinctCount(paths, x);
      assert multiset(log.loads + log.loadFails)[x] == multiset(log.loads)[x] + multiset(log.loadFails)[x];
      assert multiset(log.procs + log.procFails)[x] == multiset(log.procs)[x] + multiset(log.procFails)[x];
    }
  }

  /** Starting from an empty log with distinct paths (the lister returns a dictionary keyed by
      path), a completed run records every path in exactly one of the load lists, every loaded
      path in exactly one of the process lists, and no file in both lists of a stage. */
  lemma RunSeparatesOutcomes(exts: seq<string>, es: seq<FileEntry>, procYaml: string, config: Config)
    requires forall i, j :: 0 <= i < j < |es| ==> es[i].path != es[j].path
    requires RunFrom(EmptyLog, exts, es, procYaml, config).Ok?
    ensures var log := RunFrom(EmptyLog, exts, es, procYaml, config).value;
      && multiset(log.loads + log.loadFails) == multiset(Paths(es))
      && multiset(log.procs + log.procFails) == multiset(log.loads)
      && (forall x :: !(x in log.loads && x in log.loadFails))
      && (forall x :: !(x in log.procs && x in log.procFails))
  {
    RunAccounts(EmptyLog, exts, es, procYaml, config);
    var log := RunFrom(EmptyLog, exts, es, procYaml, config).value;
    AccountedFromEmpty(log, Paths(es));
    Separated(log, Paths(es));
  }

  /** A directory with "Report.xlsx" (one named sheet with data) and "Notes.txt", where only
      "Report.xlsx" is configured, with method "avg_bal_tb". */
  lemma RunExample(data: Table, notes: Contents)
    requires !data.Empty()
    ensures var report := FileEntry("dir/Report.xlsx", "xlsx", Workbook([Sheet("Balances", data)]));
      var other := FileEntry("dir/Notes.txt", "txt", notes);
      var config := map["Report.xlsx" := map["class" := "_fundingcorp", "method" := "avg_bal_tb"]];
      RunFrom(EmptyLog, DefaultExtensions, [report, other], "processors.yml", config)
        == Ok(RunLog([UnsupportedFormatIssue("txt", "dir/Notes.txt")], ["dir/Report.xlsx"],
                     ["dir/Notes.txt"], ["dir/Report.xlsx"], []))
  {
    var wb := [Sheet("Balances", data)];
    assert "Balances"[..5][1] != "Sheet"[1];
    ExcelReadsFirstUsableSheet(wb, 0);
    ExcelWarnsIffSeveral(wb);
    BaseNameOfJoin("dir", "Report.xlsx");
    assert "dir" + "/" + "Report.xlsx" == "dir/Report.xlsx";
    var report := FileEntry("dir/Report.xlsx", "xlsx", Workbook(wb));
    var other := FileEntry("dir/Notes.txt", "txt", notes);
    var config := map["Report.xlsx" := map["class" := "_fundingcorp", "method" := "avg_bal_tb"]];
    var loaded := RunLog([], ["dir/Report.xlsx"], [], [], []);
    assert ExcelLoad(Workbook(wb)) == Ok((data, []));
    assert SubLoad("xlsx", Workbook(wb)) == Ok((data, []));
    assert "xlsx" in DefaultExtensions;
    assert LoadOutcome(EmptyLog, DefaultExtensions, report.path, report.ext, report.contents)
        == Ok((data, EmptyLog.(issues := EmptyLog.issues + []).(loads := EmptyLog.loads + [report.path])));
    assert EmptyLog.(issues := EmptyLog.issues + []).(loads := EmptyLog.loads + [report.path]) == loaded;
    ProcessResolving(loaded, report.path, data, "processors.yml", config);
    var processed := RunLog([], ["dir/Report.xlsx"], [], ["dir/Report.xlsx"], []);
    assert FileStep(EmptyLog, DefaultExtensions, report, "processors.yml", config) == Ok(processed);
    var final := RunLog([UnsupportedFormatIssue("txt", "dir/Notes.txt")], ["dir/Report.xlsx"],
                        ["dir/Notes.txt"], ["dir/Report.xlsx"], []);
    LoadUnsupported(processed, DefaultExtensions, other.path, other.ext, other.contents);
    var issue := UnsupportedFormatIssue("txt", "dir/Notes.txt");
    assert processed.issues + [issue] == [issue];
    assert processed.loadFails + [other.path] == ["dir/Notes.txt"];
    assert RunLog(processed.issues + [issue], processed.loads, processed.loadFails + [other.path],
                  processed.procs, processed.procFails) == final;
    assert LoadOutcome(processed, DefaultExtensions, other.path, other.ext, other.contents) == Ok((EmptyTable, final));
    assert FileStep(processed, DefaultExtensions, other, "processors.yml", config) == Ok(final);
    var es := [report, other];
    assert es[1..] == [other] && es[1..][1..] == [];
    assert RunFrom(processed, DefaultExtensions, [other], "processors.yml", config) == Ok(final);
  }
}
