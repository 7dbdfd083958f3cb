/**
 * How the two builds of the helper meet in the store: they share the two symbol keys,
 * so a browser that ran one build keeps its sets when the other build takes over.
 */
module CrossBuild {
  import opened Storage
  import opened GroupingHelper
  import HighlightHelper

  /**
   * The store the release build writes loads in the first build with the same sets and
   * nothing is written back: the first build reads only the symbol keys and ignores the
   * flag keys.
   */
  lemma LoadsReleaseConfig(entries: map<string, Stored>, c: Config)
    requires ValidConfig(c)
    ensures HighlightHelper.LoadSets(SaveConfig(entries, c)) == HighlightHelper.Loaded(HighlightHelper.Sets(c.growth, c.income), false)
  {
    ReadWrittenSymbols(c.growth, HighlightHelper.GrowthDefaults);
    ReadWrittenSymbols(c.income, HighlightHelper.IncomeDefaults);
  }
}
