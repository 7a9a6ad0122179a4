/** The selection rules of the two sub-loaders: which worksheet `__load_excel` reads and
    which embedded table `__load_html` returns. */
module Loaders {
  import opened DataFrames
  import opened Text

  /** The value `__init__` gives `self.extensions`: the loadable formats, in the order they are
      listed in the log. */
  const DefaultExtensions: seq<string> := ["xls", "xlsx", "html", "eml"]

  /** The issue recorded when a workbook has more than one usable sheet. */
  const MultipleSheetsWarning: string :=
    "\n- Warning: multiple worksheets detected. \n\tOnly first worksheet was loaded."

  // ---------------------------------------------------------------- workbooks

  /** Sheets whose name starts with "Sheet" are treated as blank scaffolding. This is a plain
      prefix test, so "Sheets" and "Sheet_notes" are discarded too. */
  predicate IsDefaultSheetName(name: string) {
    StartsWith(name, "Sheet")
  }

  /** `xl.sheet_names`. */
  function SheetNames(wb: seq<Sheet>): (names: seq<string>)
    ensures |names| == |wb|
    ensures forall i :: 0 <= i < |wb| ==> names[i] == wb[i].name
  {
    seq(|wb|, i requires 0 <= i < |wb| => wb[i].name)
  }

  /** The sheet names that survive the filter, in workbook order. */
  function Candidates(names: seq<string>): (r: seq<string>)
    ensures |r| <= |names|
    ensures forall x :: x in r <==> x in names && !IsDefaultSheetName(x)
  {
    if names == [] then []
    else
      var init, last := names[..|names| - 1], names[|names| - 1];
      assert names == init + [last];
      Candidates(init) + (if IsDefaultSheetName(last) then [] else [last])
  }

  /** `pd.read_excel(xl, name)`: the table of the first sheet that has this name. */
  function ReadSheet(wb: seq<Sheet>, name: string): Table
    requires name in SheetNames(wb)
  {
    assert SheetNames(wb) == [wb[0].name] + SheetNames(wb[1..]);
    if wb[0].name == name then wb[0].table else ReadSheet(wb[1..], name)
  }

  /** `__load_excel` on the parsed file: the table read and the issues it records. */
  function ExcelLoad(contents: Contents): Result<(Table, seq<string>)> {
    match contents
    case Workbook(wb) =>
      var sheets := Candidates(SheetNames(wb));
      if |sheets| > 1 then Ok((ReadSheet(wb, sheets[0]), [MultipleSheetsWarning]))
      else if |sheets| == 1 then Ok((ReadSheet(wb, sheets[0]), []))
      else Ok((EmptyTable, []))
    case _ => Err(ParseFault)
  }

  /** Sheet `k` is the first one, in workbook order, whose name is not a default name. */
  ghost predicate FirstUsableSheet(wb: seq<Sheet>, k: int) {
    0 <= k < |wb| && !IsDefaultSheetName(wb[k].name)
    && forall j :: 0 <= j < k ==> IsDefaultSheetName(wb[j].name)
  }

  /** The first candidate is the first non-default name in workbook order. */
  lemma {:induction false} FirstCandidate(names: seq<string>, k: nat)
    requires k < |names| && !IsDefaultSheetName(names[k])
    requires forall j :: 0 <= j < k ==> IsDefaultSheetName(names[j])
    ensures Candidates(names) != [] && Candidates(names)[0] == names[k]
  {
    var init := names[..|names| - 1];
    if k < |names| - 1 {
      FirstCandidate(init, k);
    } else {
      NoCandidates(init);
    }
  }

  /** No candidate at all when every name is a default name. */
  lemma {:induction false} NoCandidates(names: seq<string>)
    requires forall j :: 0 <= j < |names| ==> IsDefaultSheetName(names[j])
    ensures Candidates(names) == []
  {
    if names != [] {
      NoCandidates(names[..|names| - 1]);
    }
  }

  /** More than one candidate exactly when two sheets have non-default names. */
  lemma {:induction false} SeveralCandidates(names: seq<string>)
    ensures |Candidates(names)| > 1 <==>
      exists i, j :: 0 <= i < j < |names| && !IsDefaultSheetName(names[i]) && !IsDefaultSheetName(names[j])
  {
    if names != [] {
      var init, last := names[..|names| - 1], names[|names| - 1];
      SeveralCandidates(init);
      if |Candidates(names)| > 1 && |Candidates(init)| <= 1 {
        assert !IsDefaultSheetName(last) && |Candidates(init)| == 1;
        var x := Candidates(init)[0];
        assert x in Candidates(init);
        var i :| 0 <= i < |init| && init[i] == x;
        assert !IsDefaultSheetName(names[i]) && !IsDefaultSheetName(names[|names| - 1]);
      }
      if exists i, j :: 0 <= i < j < |names| && !IsDefaultSheetName(names[i]) && !IsDefaultSheetName(names[j]) {
        var i, j :| 0 <= i < j < |names| && !IsDefaultSheetName(names[i]) && !IsDefaultSheetName(names[j]);
        if j < |names| - 1 {
          assert !IsDefaultSheetName(init[i]) && !IsDefaultSheetName(init[j]);
        } else {
          assert init[i] in Candidates(init);
        }
      }
    }
  }

  /** Reading a sheet by name finds sheet `k` when no earlier sheet has the same name. */
  lemma {:induction false} ReadSheetFinds(wb: seq<Sheet>, k: nat)
    requires k < |wb|
    requires forall j :: 0 <= j < k ==> wb[j].name != wb[k].name
    ensures wb[k].name in SheetNames(wb) && ReadSheet(wb, wb[k].name) == wb[k].table
  {
    assert SheetNames(wb)[k] == wb[k].name;
    if k > 0 {
      assert SheetNames(wb) == [wb[0].name] + SheetNames(wb[1..]);
      ReadSheetFinds(wb[1..], k - 1);
    }
  }

  /** The excel loader reads the first usable sheet in workbook order. */
  lemma ExcelReadsFirstUsableSheet(wb: seq<Sheet>, k: int)
    requires FirstUsableSheet(wb, k)
    ensures ExcelLoad(Workbook(wb)).Ok? && ExcelLoad(Workbook(wb)).value.0 == wb[k].table
  {
    FirstCandidate(SheetNames(wb), k);
    ReadSheetFinds(wb, k);
  }

  /** The excel loader records exactly one warning when several sheets are usable and none
      otherwise. */
  lemma ExcelWarnsIffSeveral(wb: seq<Sheet>)
    ensures ExcelLoad(Workbook(wb)).Ok?
    ensures ExcelLoad(Workbook(wb)).value.1 ==
      if exists i, j :: 0 <= i < j < |wb| && !IsDefaultSheetName(wb[i].name) && !IsDefaultSheetName(wb[j].name)
      then [MultipleSheetsWarning] else []
  {
    var names := SheetNames(wb);
    SeveralCandidates(names);
    if exists i, j :: 0 <= i < j < |wb| && !IsDefaultSheetName(wb[i].name) && !IsDefaultSheetName(wb[j].name) {
      var i, j :| 0 <= i < j < |wb| && !IsDefaultSheetName(wb[i].name) && !IsDefaultSheetName(wb[j].name);
      assert !IsDefaultSheetName(names[i]) && !IsDefaultSheetName(names[j]);
    }
  }

  /** With no usable sheet the excel loader returns the empty table and records nothing. */
  lemma ExcelNoUsableSheet(wb: seq<Sheet>)
    requires forall j :: 0 <= j < |wb| ==> IsDefaultSheetName(wb[j].name)
    ensures ExcelLoad(Workbook(wb)) == Ok((EmptyTable, []))
  {
    NoCandidates(SheetNames(wb));
  }

  /** Sheets "Sheet1", "Data", "Summary": "Data" is read and one warning is recorded. */
  lemma ExcelExample(t1: Table, t2: Table, t3: Table)
    ensures ExcelLoad(Workbook([Sheet("Sheet1", t1), Sheet("Data", t2), Sheet("Summary", t3)]))
         == Ok((t2, [MultipleSheetsWarning]))
  {
    var wb := [Sheet("Sheet1", t1), Sheet("Data", t2), Sheet("Summary", t3)];
    assert "Data"[..4][1] != "Sheet"[1] && "Summary"[..5][1] != "Sheet"[1];
    ExcelReadsFirstUsableSheet(wb, 1);
    ExcelWarnsIffSeveral(wb);
    assert !IsDefaultSheetName(wb[1].name) && !IsDefaultSheetName(wb[2].name);
  }

  // ---------------------------------------------------------------- HTML documents

  /** The largest cell count among the tables. */
  function LargestArea(ts: seq<Table>): (m: nat)
    requires ts != []
    ensures forall i :: 0 <= i < |ts| ==> ts[i].Area() <= m
    ensures exists i :: 0 <= i < |ts| && ts[i].Area() == m
  {
    if |ts| == 1 then ts[0].Area()
    else
      var init := ts[..|ts| - 1];
      assert forall i :: 0 <= i < |init| ==> init[i] == ts[i];
      var m' := LargestArea(init);
      if ts[|ts| - 1].Area() > m' then ts[|ts| - 1].Area() else m'
  }

  /** The index of the first table that has the largest cell count. */
  function FirstLargest(ts: seq<Table>): (k: nat)
    requires ts != []
    ensures k < |ts| && ts[k].Area() == LargestArea(ts)
    ensures forall j :: 0 <= j < k ==> ts[j].Area() < ts[k].Area()
  {
    if |ts| == 1 then 0
    else
      var init := ts[..|ts| - 1];
      assert forall i :: 0 <= i < |init| ==> init[i] == ts[i];
      if ts[|ts| - 1].Area() > LargestArea(init) then |ts| - 1 else FirstLargest(init)
  }

  /** Extending a non-empty prefix by one table: the largest cell count and its first index are
      those of the prefix unless the new table is strictly larger. */
  lemma LargestStep(ts: seq<Table>, i: nat)
    requires 0 < i < |ts|
    ensures var m := LargestArea(ts[..i]);
      && LargestArea(ts[..i + 1]) == (if ts[i].Area() > m then ts[i].Area() else m)
      && FirstLargest(ts[..i + 1]) == (if ts[i].Area() > m then i else FirstLargest(ts[..i]))
  {
    assert ts[..i + 1][..i] == ts[..i];
  }

  /** The state of `__load_html`'s loop after the first `n` tables: the largest cell count so
      far, and the index of the table that set it, unset while table 0 still holds the maximum. */
  ghost predicate HtmlScanned(ts: seq<Table>, n: nat, maxArea: nat, maxIndex: Option<nat>) {
    && ts != [] && n <= |ts|
    && (n == 0 ==> maxIndex == None && maxArea == ts[0].Area())
    && (0 < n ==> && maxArea == LargestArea(ts[..n])
                  && (maxIndex == None <==> maxArea == ts[0].Area())
                  && (maxIndex.Some? ==> maxIndex.value == FirstLargest(ts[..n])))
  }

  /** One pass of the loop keeps the scan state: a strictly larger table takes over. */
  lemma HtmlScanStep(ts: seq<Table>, n: nat, maxArea: nat, maxIndex: Option<nat>)
    requires HtmlScanned(ts, n, maxArea, maxIndex) && n < |ts|
    ensures var a := ts[n].Area();
      HtmlScanned(ts, n + 1, if a > maxArea then a else maxArea, if a > maxArea then Some(n) else maxIndex)
  {
    if n == 0 {
      assert LargestArea(ts[..1]) == ts[0].Area();
    } else {
      LargestStep(ts, n);
      assert ts[..n][0] == ts[0];
    }
  }

  /** After the whole list, an unset index is the fault and a set one is the selection. */
  lemma HtmlScanDone(ts: seq<Table>, maxArea: nat, maxIndex: Option<nat>)
    requires HtmlScanned(ts, |ts|, maxArea, maxIndex)
    ensures maxIndex == None ==> HtmlSelect(ts) == Err(MaxIndexUnbound)
    ensures maxIndex.Some? ==> maxIndex.value < |ts| && HtmlSelect(ts) == Ok(ts[maxIndex.value])
  {
    assert ts[..|ts|] == ts;
  }

  /** `__load_html` on the tables `pd.read_html` found. `max_index` is only assigned when a
      table is strictly larger than every table before it, table 0 included, so when table 0
      has (or shares) the largest cell count the selection faults. */
  function HtmlSelect(ts: seq<Table>): Result<Table> {
    if ts == [] then Err(NoTables)
    else if LargestArea(ts) == ts[0].Area() then Err(MaxIndexUnbound)
    else Ok(ts[FirstLargest(ts)])
  }

  /** `__load_html` on the parsed file. */
  function HtmlLoad(contents: Contents): Result<Table> {
    match contents
    case Document(ts) => HtmlSelect(ts)
    case _ => Err(ParseFault)
  }

  /** The HTML selection succeeds exactly when some later table is strictly larger than table 0,
      and then returns a table of largest cell count, the earliest such one. */
  lemma HtmlSelection(ts: seq<Table>)
    ensures HtmlSelect(ts).Ok? <==> exists i :: 0 < i < |ts| && ts[i].Area() > ts[0].Area()
    ensures ts != [] && HtmlSelect(ts).Err? ==> HtmlSelect(ts) == Err(MaxIndexUnbound)
    ensures HtmlSelect(ts).Ok? ==>
      exists k :: 0 < k < |ts| && HtmlSelect(ts).value == ts[k]
        && (forall j :: 0 <= j < |ts| ==> ts[j].Area() <= ts[k].Area())
        && (forall j :: 0 <= j < k ==> ts[j].Area() < ts[k].Area())
  {
    if ts != [] {
      var k := FirstLargest(ts);
      if HtmlSelect(ts).Ok? {
        assert k != 0;
      }
    }
  }

  /** Tables of 2x2, 10x5 and 3x8 cells: the 10x5 table is selected. */
  lemma HtmlExample()
    ensures HtmlSelect([Table(2, 2), Table(10, 5), Table(3, 8)]) == Ok(Table(10, 5))
  {
    var ts := [Table(2, 2), Table(10, 5), Table(3, 8)];
    assert ts[1].Area() == 50;
    var k := FirstLargest(ts);
    assert k == 1;
  }

  /** When the first table is also the largest, the selection faults. */
  lemma HtmlFirstLargestFaults(ts: seq<Table>)
    requires ts != [] && forall j :: 0 <= j < |ts| ==> ts[j].Area() <= ts[0].Area()
    ensures HtmlSelect(ts) == Err(MaxIndexUnbound)
  {
  }
}
