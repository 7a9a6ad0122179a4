/** The text of the persisted log: its file name, the header `create_log` writes and the
    sections `write_log` appends. */
module LogText {
  import opened Text
  import opened Loaders
  import opened Pipeline

  // ---------------------------------------------------------------- create_log

  /** The log file name for a timestamp formatted as "%Y-%m-%d %H:%M:%S": colons removed,
      the space replaced by an underscore, under "./logs". */
  function LogName(timestamp: string): string {
    "./logs/log_" + ReplaceChar(RemoveChar(timestamp, ':'), ' ', '_') + ".txt"
  }

  /** The file name is "./logs/log_" + stamp + ".txt", where the stamp is the timestamp
      without colons and without spaces, and only the colons were dropped. */
  lemma LogNameShape(timestamp: string)
    ensures var name := LogName(timestamp);
      && |name| == |timestamp| - multiset(timestamp)[':'] + 15
      && name[..11] == "./logs/log_" && name[|name| - 4..] == ".txt"
      && ':' !in name[11..|name| - 4] && ' ' !in name[11..|name| - 4]
  {
    var stamp := ReplaceChar(RemoveChar(timestamp, ':'), ' ', '_');
    RemoveCharDropsOnly(timestamp, ':');
    ReplaceCharPointwise(RemoveChar(timestamp, ':'), ' ', '_');
    var name := LogName(timestamp);
    assert name == "./logs/log_" + stamp + ".txt";
    assert name[11..|name| - 4] == stamp;
  }

  /** For a timestamp "date time" whose date has no ':' and no ' ' and whose time has no ' ',
      as "%Y-%m-%d %H:%M:%S" produces, the stamp is the date, an underscore, and the time
      without its colons, in the timestamp's own order. */
  lemma LogNameOfDateTime(date: string, time: string)
    requires ':' !in date && ' ' !in date && ' ' !in time
    ensures LogName(date + " " + time) == "./logs/log_" + date + "_" + RemoveChar(time, ':') + ".txt"
  {
    var kept := RemoveChar(time, ':');
    ColonsOfDateTime(date, time);
    KeptHasNoSpace(time);
    SpacesOfStamp(date, kept);
    Regroup("./logs/log_", date, "_", kept);
  }

  lemma KeptHasNoSpace(time: string)
    requires ' ' !in time
    ensures ' ' !in RemoveChar(time, ':')
  {
    RemoveCharDropsOnly(time, ':');
    assert multiset(RemoveChar(time, ':'))[' '] == multiset(time)[' '];
  }

  /** With the clock's reading written as "date hh:mm:ss", the stamp is "date_hhmmss". */
  lemma LogNameOfClock(date: string, hh: string, mm: string, ss: string)
    requires forall part :: part in [date, hh, mm, ss] ==> ':' !in part && ' ' !in part
    ensures LogName(date + " " + (hh + ":" + mm + ":" + ss)) == "./logs/log_" + date + "_" + (hh + mm + ss) + ".txt"
  {
    assert date in [date, hh, mm, ss] && hh in [date, hh, mm, ss];
    assert mm in [date, hh, mm, ss] && ss in [date, hh, mm, ss];
    var time := hh + ":" + mm + ":" + ss;
    assert ' ' !in time;
    LogNameOfDateTime(date, time);
    ColonsOfClock(hh, mm, ss);
  }

  lemma ColonsOfClock(hh: string, mm: string, ss: string)
    requires ':' !in hh && ':' !in mm && ':' !in ss
    ensures RemoveChar(hh + ":" + mm + ":" + ss, ':') == hh + mm + ss
  {
    RemoveCharAround(hh + ":" + mm, ss, ':');
    RemoveCharAround(hh, mm, ':');
    RemoveCharAbsent(hh, ':');
    RemoveCharAbsent(mm, ':');
    RemoveCharAbsent(ss, ':');
  }

  lemma ColonsOfDateTime(date: string, time: string)
    requires ':' !in date
    ensures RemoveChar(date + " " + time, ':') == date + " " + RemoveChar(time, ':')
  {
    RemoveCharAppend(date + " ", time, ':');
    RemoveCharAppend(date, " ", ':');
    RemoveCharAbsent(date, ':');
    RemoveCharAbsent(" ", ':');
  }

  lemma SpacesOfStamp(date: string, kept: string)
    requires ' ' !in date && ' ' !in kept
    ensures ReplaceChar(date + " " + kept, ' ', '_') == date + "_" + kept
  {
    ReplaceCharAppend(date + " ", kept, ' ', '_');
    ReplaceCharAppend(date, " ", ' ', '_');
    ReplaceCharAbsent(date, ' ', '_');
    ReplaceCharAbsent(kept, ' ', '_');
    assert ReplaceChar(" ", ' ', '_') == "_" by {
      assert " "[..0] == [];
    }
  }

  const FormatsTitle: string := "\nFile formats that can be loaded:"
  const FormatsHint: string := "\n\tIf you need to load another format, add a sub-method under load()"

  /** `loadable_formats()` with `self.extensions` equal to `exts`: a title line, one line per
      extension in list order, and a closing hint. */
  function FormatLines(exts: seq<string>): (lines: seq<string>)
    ensures |lines| == |exts| + 2
    ensures lines[0] == FormatsTitle
    ensures forall i :: 0 <= i < |exts| ==> lines[i + 1] == "\t- " + exts[i]
    ensures lines[|lines| - 1] == FormatsHint
  {
    [FormatsTitle]
    + seq(|exts|, i requires 0 <= i < |exts| => "\t- " + exts[i])
    + [FormatsHint]
  }

  /** What `create_log` writes to a fresh log file. */
  function LogHeader(timestamp: string, exts: seq<string>): string {
    "-- Session Activity on " + timestamp + " --\n" + Concat(FormatLines(exts), "", "\n") + "\n\n"
  }

  /** The header lists extension `i` on a line of its own, after the lines before it. */
  lemma HeaderListsExtension(timestamp: string, exts: seq<string>, i: nat)
    requires i < |exts|
    ensures var lines := FormatLines(exts);
      LogHeader(timestamp, exts) == "-- Session Activity on " + timestamp + " --\n"
        + (Concat(lines[..i + 1], "", "\n") + ("\t- " + exts[i] + "\n") + Concat(lines[i + 2..], "", "\n"))
        + "\n\n"
  {
    var lines := FormatLines(exts);
    var before := Concat(lines[..i + 1], "", "\n");
    ConcatAt(lines, i + 1, "", "\n");
    assert lines[i + 1] == "\t- " + exts[i];
    assert before + "" == before;
    assert before + "" + lines[i + 1] + "\n" == before + (lines[i + 1] + "\n");
  }

  // ---------------------------------------------------------------- write_log

  /** The `field` values `write_log` accepts. */
  const FieldOptions: seq<string> := ["issue", "load", "process", "all"]

  /** One section: its title, its rule, then either the text for an empty list on a line of its
      own or every message with its prefix, in order. */
  function Section(title: string, rule: string, emptyText: string, prefix: string, msgs: seq<string>): string {
    title + rule + (if msgs == [] then "\n" + emptyText else Concat(msgs, prefix, ""))
  }

  const IssuesTitle: string := "Warnings or Errors"
  const IssuesRule: string := "\n------------------"
  const NoIssuesText: string := "No warnings or errors."
  const IssuePrefix: string := "\t"
  const LoadsTitle: string := "\n\n\nFiles Successfully Loaded"
  const LoadsRule: string := "\n-------------------------"
  const LoadFailsTitle: string := "\n\n\nFiles Failing Load"
  const LoadFailsRule: string := "\n------------------"
  const ProcsTitle: string := "\n\n\nFiles Successfully Processed"
  const ProcsRule: string := "\n----------------------------"
  const ProcFailsTitle: string := "\n\n\nFiles Failing Processing"
  const ProcFailsRule: string := "\n------------------------"
  const NoneText: string := "None"
  const FilePrefix: string := "\n- "

  function IssuesSection(msgs: seq<string>): string {
    Section(IssuesTitle, IssuesRule, NoIssuesText, IssuePrefix, msgs)
  }

  function LoadsSection(msgs: seq<string>): string {
    Section(LoadsTitle, LoadsRule, NoneText, FilePrefix, msgs)
  }

  function LoadFailsSection(msgs: seq<string>): string {
    Section(LoadFailsTitle, LoadFailsRule, NoneText, FilePrefix, msgs)
  }

  function ProcsSection(msgs: seq<string>): string {
    Section(ProcsTitle, ProcsRule, NoneText, FilePrefix, msgs)
  }

  function ProcFailsSection(msgs: seq<string>): string {
    Section(ProcFailsTitle, ProcFailsRule, NoneText, FilePrefix, msgs)
  }

  /** Everything one `write_log(field)` call appends to the log file. */
  function Render(field: string, log: RunLog): string {
    RenderIssues(field, log) + RenderLoads(field, log) + RenderProcesses(field, log)
  }

  function RenderIssues(field: string, log: RunLog): string {
    if field == "all" || field == "issue" then IssuesSection(log.issues) else ""
  }

  function RenderLoads(field: string, log: RunLog): string {
    if field == "all" || field == "load" then LoadsSection(log.loads) + LoadFailsSection(log.loadFails) else ""
  }

  function RenderProcesses(field: string, log: RunLog): string {
    if field == "all" || field == "process" then ProcsSection(log.procs) + ProcFailsSection(log.procFails) else ""
  }

  /** `write_log` writes something exactly when the field is one it recognises. */
  lemma RenderEmptyIffUnrecognized(field: string, log: RunLog)
    ensures Render(field, log) == "" <==> field !in FieldOptions
  {
    var i, l, p := RenderIssues(field, log), RenderLoads(field, log), RenderProcesses(field, log);
    assert |Render(field, log)| == |i| + |l| + |p|;
    if field == "all" || field == "issue" {
      assert |i| >= |IssuesTitle|;
    } else if field == "load" {
      assert |l| >= |LoadsTitle|;
    } else if field == "process" {
      assert |p| >= |ProcsTitle|;
    } else {
      assert i == l == p == "";
    }
  }

  /** "all" writes the issues section, then the load sections, then the process sections. */
  lemma RenderAll(log: RunLog)
    ensures Render("all", log) == Render("issue", log) + Render("load", log) + Render("process", log)
  {
    RenderIssueOnly(log);
    RenderLoadOnly(log);
    RenderProcessOnly(log);
  }

  lemma RenderIssueOnly(log: RunLog)
    ensures Render("issue", log) == RenderIssues("all", log)
  {
    var i := RenderIssues("all", log);
    assert RenderIssues("issue", log) == i;
    assert RenderLoads("issue", log) == "" && RenderProcesses("issue", log) == "";
    assert i + "" + "" == i;
  }

  lemma RenderLoadOnly(log: RunLog)
    ensures Render("load", log) == RenderLoads("all", log)
  {
    var l := RenderLoads("all", log);
    assert RenderLoads("load", log) == l;
    assert RenderIssues("load", log) == "" && RenderProcesses("load", log) == "";
    assert "" + l + "" == l;
  }

  lemma RenderProcessOnly(log: RunLog)
    ensures Render("process", log) == RenderProcesses("all", log)
  {
    var p := RenderProcesses("all", log);
    assert RenderProcesses("process", log) == p;
    assert RenderIssues("process", log) == "" && RenderLoads("process", log) == "";
    assert "" + "" + p == p;
  }

  /** Each field writes only from its own lists: "issue" from the issues, "load" from the two
      load lists, "process" from the two process lists. */
  lemma RenderReadsOwnLists(field: string, log: RunLog, other: RunLog)
    requires field in {"issue", "load", "process"}
    requires field == "issue" ==> log.issues == other.issues
    requires field == "load" ==> log.loads == other.loads && log.loadFails == other.loadFails
    requires field == "process" ==> log.procs == other.procs && log.procFails == other.procFails
    ensures Render(field, log) == Render(field, other)
  {
  }

  /** A section shows the empty-list text exactly when its list is empty, provided that text
      cannot be mistaken for a written message. */
  lemma {:induction false} SectionEmptyIff(title: string, rule: string, emptyText: string, prefix: string, msgs: seq<string>)
    requires !StartsWith("\n" + emptyText, prefix)
    ensures Section(title, rule, emptyText, prefix, msgs) == title + rule + "\n" + emptyText <==> msgs == []
  {
    if msgs != [] {
      var head, written := title + rule, Concat(msgs, prefix, "");
      ConcatStartsWith(msgs, prefix, "");
      assert head + "\n" + emptyText == head + ("\n" + emptyText);
      AppendCancel(head, written, "\n" + emptyText);
    }
  }

  lemma AppendCancel(head: string, x: string, y: string)
    requires x != y
    ensures head + x != head + y
  {
    assert (head + x)[|head|..] == x && (head + y)[|head|..] == y;
  }

  /** A load or process section says "None" exactly when its list is empty. */
  lemma NoneIffEmpty(title: string, rule: string, msgs: seq<string>)
    ensures Section(title, rule, NoneText, FilePrefix, msgs) == title + rule + "\n" + NoneText <==> msgs == []
  {
    assert ("\n" + NoneText)[..3][1] != FilePrefix[1];
    SectionEmptyIff(title, rule, NoneText, FilePrefix, msgs);
  }

  /** The issues section says "No warnings or errors." exactly when there are no issues, and
      each load or process section says "None" exactly when its list is empty. */
  lemma EmptyTextsIffEmptyLists(log: RunLog)
    ensures IssuesSection(log.issues) == IssuesTitle + IssuesRule + "\n" + NoIssuesText <==> log.issues == []
    ensures LoadsSection(log.loads) == LoadsTitle + LoadsRule + "\n" + NoneText <==> log.loads == []
    ensures LoadFailsSection(log.loadFails) == LoadFailsTitle + LoadFailsRule + "\n" + NoneText <==> log.loadFails == []
    ensures ProcsSection(log.procs) == ProcsTitle + ProcsRule + "\n" + NoneText <==> log.procs == []
    ensures ProcFailsSection(log.procFails) == ProcFailsTitle + ProcFailsRule + "\n" + NoneText <==> log.procFails == []
  {
    assert ("\n" + NoIssuesText)[..1][0] != IssuePrefix[0];
    SectionEmptyIff(IssuesTitle, IssuesRule, NoIssuesText, IssuePrefix, log.issues);
    NoneIffEmpty(LoadsTitle, LoadsRule, log.loads);
    NoneIffEmpty(LoadFailsTitle, LoadFailsRule, log.loadFails);
    NoneIffEmpty(ProcsTitle, ProcsRule, log.procs);
    NoneIffEmpty(ProcFailsTitle, ProcFailsRule, log.procFails);
  }
}
