/** The Funding Corp processor set (`ProcessFC`): a dispatch on the configured method name
    and the per-file transformations it can reach. */
module FundingCorp {
  import opened DataFrames

  /** The method names `ChooseProcessor` resolves. */
  const ProcessorNames: set<string> := {"avg_bal_tb", "bal_sheet_tb"}

  /** True when the descriptor's "method" entry names a processor in this set. */
  predicate Resolves(procInfo: map<string, string>) {
    "method" in procInfo && procInfo["method"] in ProcessorNames
  }

  /** `choose_processor`: a resolving method name gets its transformation, anything else
      (an unknown name, or no "method" key at all) gets the empty table. */
  function ChooseProcessor(df: Table, procInfo: map<string, string>): (r: Table)
    ensures Resolves(procInfo) ==> r == df
    ensures !Resolves(procInfo) ==> r == EmptyTable
  {
    // `proc_info.get("method")` is None when the key is missing
    var procName := if "method" in procInfo then Some(procInfo["method"]) else None;
    if procName == Some("avg_bal_tb") then AvgBalTb(df)
    else if procName == Some("bal_sheet_tb") then BalSheetTb(df)
    else EmptyTable
  }

  /** `__avg_bal_tb`: placeholder for the Average Balances TB rules; leaves the table as it is. */
  function AvgBalTb(df: Table): (r: Table)
    ensures r == df
  {
    df
  }

  /** `__bal_sheet_tb`: placeholder for the Balance Sheet TB rules; leaves the table as it is. */
  function BalSheetTb(df: Table): (r: Table)
    ensures r == df
  {
    df
  }

  /** A descriptor without a "method" key never resolves. */
  lemma MissingMethodGivesEmpty(df: Table, procInfo: map<string, string>)
    requires "method" !in procInfo
    ensures ChooseProcessor(df, procInfo) == EmptyTable
  {
  }

  /** Only the "method" key is consulted: changing or adding any other key, "class" included,
      does not change the result. */
  lemma OnlyMethodKeyMatters(df: Table, procInfo: map<string, string>, key: string, value: string)
    requires key != "method"
    ensures ChooseProcessor(df, procInfo[key := value]) == ChooseProcessor(df, procInfo)
  {
    assert Resolves(procInfo[key := value]) == Resolves(procInfo);
  }

  /** The result is the input table or the empty table, never anything else. */
  lemma InputOrEmpty(df: Table, procInfo: map<string, string>)
    ensures ChooseProcessor(df, procInfo) in {df, EmptyTable}
  {
  }

  /** Dispatching twice with the same descriptor is the same as dispatching once; for a
      resolving name both equal the input. */
  lemma ChooseIdempotent(df: Table, procInfo: map<string, string>)
    ensures ChooseProcessor(ChooseProcessor(df, procInfo), procInfo) == ChooseProcessor(df, procInfo)
    ensures Resolves(procInfo) ==> ChooseProcessor(ChooseProcessor(df, procInfo), procInfo) == df
  {
  }
}
