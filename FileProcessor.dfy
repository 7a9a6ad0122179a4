/** The `FileProcessor` object: five message lists and a log file that its methods update in
    place, and the script that drives it over a directory. Each method is specified by the
    value-level functions of `Pipeline` and `LogText`. */
module FileProcessor {
  import opened DataFrames
  import opened Text
  import opened Loaders
  import opened Pipeline
  import opened LogText
  import FundingCorp

  class FileProcessor {
    var extensions: seq<string>  // the loadable formats; `load` refuses any other extension
    var dpath: string
    var logName: string
    var logText: string  // the contents of the file named logName
    var logIssues: seq<string>
    var logLoads: seq<string>
    var logLoadfails: seq<string>
    var logProcs: seq<string>
    var logProcfails: seq<string>

    /** The five message lists as one value. */
    function Snapshot(): RunLog
      reads this
    {
      RunLog(logIssues, logLoads, logLoadfails, logProcs, logProcfails)
    }

    /** `__init__`: sets the default formats, remembers the directory and creates the log; the
        clock's reading is a parameter. */
    constructor (dpath: string, timestamp: string)
      ensures extensions == DefaultExtensions && this.dpath == dpath
      ensures logName == LogName(timestamp) && logText == LogHeader(timestamp, extensions)
      ensures Snapshot() == EmptyLog
    {
      extensions := DefaultExtensions;
      this.dpath := dpath;
      logName, logText := "", "";
      logIssues, logLoads, logLoadfails, logProcs, logProcfails := [], [], [], [], [];
      new;
      CreateLog(timestamp);
    }

    /** `create_log`: a new log file named after the timestamp, holding the session line and the
        loadable formats; all five lists start empty. */
    method CreateLog(timestamp: string)
      modifies this`logName, this`logText, this`logIssues, this`logLoads, this`logLoadfails,
               this`logProcs, this`logProcfails
      ensures logName == LogName(timestamp) && logText == LogHeader(timestamp, extensions)
      ensures Snapshot() == EmptyLog
    {
      var logPath := "./logs";
      var logDate := "-- Session Activity on " + timestamp + " --\n";
      var stamp := RemoveChar(timestamp, ':');
      stamp := ReplaceChar(stamp, ' ', '_');
      assert logPath + "/log_" == "./logs/log_";
      logName := logPath + "/log_" + stamp + ".txt";
      assert logName == LogName(timestamp);

      // the file is opened with "w": whatever it held is replaced
      logText := logDate;
      WriteFormats();
      logText := logText + "\n\n";

      logIssues := [];
      logLoads := [];
      logLoadfails := [];
      logProcs := [];
      logProcfails := [];
    }

    /** The body of `create_log`'s loop over `loadable_formats()`. */
    method WriteFormats()
      modifies this`logText
      ensures logText == old(logText) + Concat(FormatLines(extensions), "", "\n")
    {
      var message := LoadableFormats();
      WriteLines(message);
    }

    /** The loop of `create_log`: each line, then a line break. */
    method WriteLines(lines: seq<string>)
      modifies this`logText
      ensures logText == old(logText) + Concat(lines, "", "\n")
    {
      for i := 0 to |lines|
        invariant logText == old(logText) + Concat(lines[..i], "", "\n")
      {
        assert lines[..i + 1][..i] == lines[..i];
        logText := logText + lines[i];
        logText := logText + "\n";
      }
      assert lines[..|lines|] == lines;
    }

    /** `loadable_formats`: the lines listing the loadable extensions. */
    method LoadableFormats() returns (message: seq<string>)
      ensures message == FormatLines(extensions)
    {
      message := [FormatsTitle];
      for i := 0 to |extensions|
        invariant |message| == i + 1
        invariant message[0] == FormatsTitle
        invariant forall j :: 0 <= j < i ==> message[j + 1] == "\t- " + extensions[j]
      {
        message := message + ["\t- " + extensions[i]];
      }
      message := message + [FormatsHint];
      var lines := FormatLines(extensions);
      assert forall j :: 0 <= j < |message| ==> message[j] == lines[j] by {
        forall j | 0 <= j < |message| ensures message[j] == lines[j] {
          if 0 < j < |message| - 1 {
            assert message[j] == "\t- " + extensions[j - 1];
          }
        }
      }
    }

    /** `load`: an unsupported extension is refused with an issue and a load failure; otherwise the
        sub-loader's table is recorded as a load success when non-empty and as a failure when
        empty. A sub-loader fault escapes with the lists as they were. */
    method Load(fname: string, fext: string, contents: Contents) returns (r: Result<Table>)
      modifies this`logIssues, this`logLoads, this`logLoadfails
      ensures var out := LoadOutcome(old(Snapshot()), extensions, fname, fext, contents);
        && (out.Ok? ==> r == Ok(out.value.0) && Snapshot() == out.value.1)
        && (out.Err? ==> r == Err(out.fault) && Snapshot() == old(Snapshot()))
    {
      if fext !in extensions {
        logIssues := logIssues + [UnsupportedFormatIssue(fext, fname)];
        logLoadfails := logLoadfails + [fname];
        return Ok(EmptyTable);
      }
      var df: Result<Table>;
      if fext == "xls" || fext == "xlsx" {
        df := LoadExcel(contents);
      } else if fext == "eml" || fext == "html" {
        df := LoadHtml(contents);
      } else {
        // a listed extension without a sub-loader: `df` is read unassigned
        return Err(NoSubLoader);
      }
      if df.Err? {
        return df;
      }
      if !df.value.Empty() {
        logLoads := logLoads + [fname];
      } else {
        logLoadfails := logLoadfails + [fname];
      }
      r := df;
    }

    /** `__load_excel`: collects the sheet names that do not start with "Sheet" and reads the
        first of them, recording a warning when there are several. */
    method LoadExcel(contents: Contents) returns (r: Result<Table>)
      modifies this`logIssues
      ensures var out := ExcelLoad(contents);
        && (out.Ok? ==> r == Ok(out.value.0) && logIssues == old(logIssues) + out.value.1)
        && (out.Err? ==> r == Err(out.fault) && logIssues == old(logIssues))
    {
      if !contents.Workbook? {
        // pd.ExcelFile cannot open the file
        return Err(ParseFault);
      }
      var xl := contents.sheets;
      var names := SheetNames(xl);
      var sheets: seq<string> := [];
      for i := 0 to |names|
        invariant sheets == Candidates(names[..i])
      {
        assert names[..i + 1][..i] == names[..i];
        var name := names[i];
        if !StartsWith(name, "Sheet") {
          sheets := sheets + [name];
        }
      }
      assert names[..|names|] == names;
      if |sheets| > 1 {
        logIssues := logIssues + [MultipleSheetsWarning];
        r := Ok(ReadSheet(xl, sheets[0]));
      } else if |sheets| == 1 {
        r := Ok(ReadSheet(xl, sheets[0]));
      } else {
        r := Ok(EmptyTable);
      }
    }

    /** `__load_html`: keeps the running largest cell count and the index of the table that set it;
        the index is only ever set by a later table that is strictly larger. */
    method LoadHtml(contents: Contents) returns (r: Result<Table>)
      ensures r == HtmlLoad(contents)
    {
      if !contents.Document? {
        return Err(ParseFault);
      }
      var frames := contents.tables;
      if |frames| == 0 {
        // pd.read_html raises when it finds no table
        return Err(NoTables);
      }
      var maxFrame := frames[0].Area();
      var maxIndex: Option<nat> := None;
      for index := 0 to |frames|
        invariant HtmlScanned(frames, index, maxFrame, maxIndex)
      {
        HtmlScanStep(frames, index, maxFrame, maxIndex);
        if frames[index].Area() > maxFrame {
          maxFrame := frames[index].Area();
          maxIndex := Some(index);
        }
      }
      HtmlScanDone(frames, maxFrame, maxIndex);
      match maxIndex
      case None =>
        // frames[max_index] with max_index never assigned
        r := Err(MaxIndexUnbound);
      case Some(k) =>
        r := Ok(frames[k]);
    }

    /** `process`: looks up the base name of the file in the configuration and dispatches to the
        Funding Corp processors, recording the outcome. */
    method Process(fname: string, df: Table, procYaml: string, config: Config) returns (r: Table)
      modifies this`logIssues, this`logProcs, this`logProcfails
      ensures (r, Snapshot()) == ProcessOutcome(old(Snapshot()), fname, df, procYaml, config)
    {
      ghost var before := Snapshot();
      var file := BaseName(fname);
      var processorInfo := ReadYaml(config, file);
      r := df;
      if Truthy(processorInfo) {
        r := FundingCorp.ChooseProcessor(r, processorInfo.value);
        if !r.Empty() {
          logProcs := logProcs + [fname];
          assert Snapshot() == before.(procs := logProcs);
          assert ProcessOutcome(before, fname, df, procYaml, config) == (r, before.(procs := logProcs));
        } else {
          logIssues := logIssues + [NoProcessorIssue(file)];
          logProcfails := logProcfails + [fname];
          assert Snapshot() == before.(issues := logIssues, procFails := logProcfails);
          assert ProcessOutcome(before, fname, df, procYaml, config)
              == (r, before.(issues := logIssues, procFails := logProcfails));
        }
      } else {
        logIssues := logIssues + [NoEntryIssue(file, procYaml)];
        logProcfails := logProcfails + [fname];
        assert Snapshot() == before.(issues := logIssues, procFails := logProcfails);
        assert ProcessOutcome(before, fname, df, procYaml, config)
            == (r, before.(issues := logIssues, procFails := logProcfails));
      }
    }

    /** `write_log`: appends the sections `field` selects; an unrecognised field writes nothing. The
        message lists are never changed. */
    method WriteLog(field: string := "all")
      modifies this`logText
      ensures logText == old(logText) + Render(field, Snapshot())
      ensures field !in FieldOptions ==> logText == old(logText)
    {
      if field !in FieldOptions {
        return;
      }
      // the file is opened with "a": everything below is appended
      WriteIssues(field);
      WriteLoads(field);
      WriteProcesses(field);
      Regroup(old(logText), RenderIssues(field, Snapshot()), RenderLoads(field, Snapshot()),
              RenderProcesses(field, Snapshot()));
    }

    /** The issues part of `write_log`. */
    method WriteIssues(field: string)
      modifies this`logText
      ensures logText == old(logText) + RenderIssues(field, Snapshot())
    {
      if field == "all" || field == "issue" {
        WriteSection(IssuesTitle, IssuesRule, NoIssuesText, IssuePrefix, logIssues);
      }
    }

    /** The load part of `write_log`: successes, then failures. */
    method WriteLoads(field: string)
      modifies this`logText
      ensures logText == old(logText) + RenderLoads(field, Snapshot())
    {
      if field == "all" || field == "load" {
        ghost var start := logText;
        WriteSection(LoadsTitle, LoadsRule, NoneText, FilePrefix, logLoads);
        WriteSection(LoadFailsTitle, LoadFailsRule, NoneText, FilePrefix, logLoadfails);
        Regroup3(start, LoadsSection(logLoads), LoadFailsSection(logLoadfails));
      }
    }

    /** The process part of `write_log`: successes, then failures. */
    method WriteProcesses(field: string)
      modifies this`logText
      ensures logText == old(logText) + RenderProcesses(field, Snapshot())
    {
      if field == "all" || field == "process" {
        ghost var start := logText;
        WriteSection(ProcsTitle, ProcsRule, NoneText, FilePrefix, logProcs);
        WriteSection(ProcFailsTitle, ProcFailsRule, NoneText, FilePrefix, logProcfails);
        Regroup3(start, ProcsSection(logProcs), ProcFailsSection(logProcfails));
      }
    }

    /** One section of `write_log`: the title and rule, then "None" (or the issues' empty text) or
        each message with its prefix. */
    method WriteSection(title: string, rule: string, emptyText: string, prefix: string, msgs: seq<string>)
      modifies this`logText
      ensures logText == old(logText) + Section(title, rule, emptyText, prefix, msgs)
    {
      if |msgs| == 0 {
        logText := logText + title;
        logText := logText + rule + "\n";
        logText := logText + emptyText;
      } else {
        logText := logText + title;
        logText := logText + rule;
        for i := 0 to |msgs|
          invariant logText == old(logText) + title + rule + Concat(msgs[..i], prefix, "")
        {
          assert msgs[..i + 1][..i] == msgs[..i];
          logText := logText + (prefix + msgs[i]);
        }
        assert msgs[..|msgs|] == msgs;
      }
    }
  }

  /** The script at the end of the module: create a processor, load every listed file, process the
      ones that gave data, and write the whole log. A loader fault ends the run before the log is
      written. The directory listing and the parsed YAML are inputs. */
  method RunScript(dpath: string, timestamp: string, entries: seq<FileEntry>, procYaml: string, config: Config)
    returns (processor: FileProcessor, fault: Option<Fault>)
    ensures processor.extensions == DefaultExtensions
    ensures processor.dpath == dpath && processor.logName == LogName(timestamp)
    ensures var run := RunFrom(EmptyLog, processor.extensions, entries, procYaml, config);
      var header := LogHeader(timestamp, processor.extensions);
      && (run.Ok? ==> fault == None && processor.Snapshot() == run.value
                      && processor.logText == header + Render("all", run.value))
      && (run.Err? ==> fault == Some(run.fault) && processor.logText == header)
  {
    processor := new FileProcessor(dpath, timestamp);
    fault := RunFiles(processor, entries, procYaml, config);
    if fault.None? {
      processor.WriteLog();
    }
  }

  /** The script's loop over the listed files; the first loader fault ends it. */
  method RunFiles(processor: FileProcessor, entries: seq<FileEntry>, procYaml: string, config: Config)
    returns (fault: Option<Fault>)
    modifies processor`logIssues, processor`logLoads, processor`logLoadfails,
             processor`logProcs, processor`logProcfails
    ensures var run := RunFrom(old(processor.Snapshot()), processor.extensions, entries, procYaml, config);
      && (run.Ok? ==> fault == None && processor.Snapshot() == run.value)
      && (run.Err? ==> fault == Some(run.fault))
  {
    ghost var run := RunFrom(processor.Snapshot(), processor.extensions, entries, procYaml, config);
    for i := 0 to |entries|
      invariant run == RunFrom(processor.Snapshot(), processor.extensions, entries[i..], procYaml, config)
    {
      assert entries[i..][0] == entries[i] && entries[i..][1..] == entries[i + 1..];
      fault := RunFile(processor, entries[i], procYaml, config);
      if fault.Some? {
        return;
      }
    }
    fault := None;
  }

  /** One pass of the script's loop: load the file, and process it when it gave data. */
  method RunFile(processor: FileProcessor, file: FileEntry, procYaml: string, config: Config)
    returns (fault: Option<Fault>)
    modifies processor`logIssues, processor`logLoads, processor`logLoadfails,
             processor`logProcs, processor`logProcfails
    ensures var step := FileStep(old(processor.Snapshot()), processor.extensions, file, procYaml, config);
      && (step.Ok? ==> fault == None && processor.Snapshot() == step.value)
      && (step.Err? ==> fault == Some(step.fault) && processor.Snapshot() == old(processor.Snapshot()))
  {
    var df := processor.Load(file.path, file.ext, file.contents);
    if df.Err? {
      return Some(df.fault);
    }
    if !df.value.Empty() {
      var processed := processor.Process(file.path, df.value, procYaml, config);
    }
    fault := None;
  }
}
