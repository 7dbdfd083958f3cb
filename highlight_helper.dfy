/**
 * The first, highlighting-only build of the helper: growth and income groups, always
 * coloured, with no sorting and no flags in the store. The object keeps the two sets and
 * the last scan's symbol map; every change to a set is written to the store at once.
 */
module HighlightHelper {
  import opened Wrappers
  import opened Text
  import opened OrderedSets
  import opened SymbolList
  import opened Classifier
  import opened Table
  import opened Storage

  /** The sets used both when a key is falsy and when loading fails. */
  const GrowthDefaults := ["AAPL", "TSLA", "NVDA"]
  const IncomeDefaults := ["T", "VZ", "KO"]

  /** What this build persists: the two sets. */
  datatype Sets = Sets(growth: seq<string>, income: seq<string>)

  predicate ValidSets(s: Sets) {
    SymbolSet(s.growth) && SymbolSet(s.income)
  }

  /** The result of `loadConfiguration`: the new sets and whether they are written back. */
  datatype Loaded = Loaded(sets: Sets, save: bool)

  lemma DefaultSetsValid()
    ensures SymbolSet(GrowthDefaults) && SymbolSet(IncomeDefaults)
  {
    assert GrowthDefaults[0][0] != GrowthDefaults[1][0] && GrowthDefaults[0][0] != GrowthDefaults[2][0];
    assert GrowthDefaults[1][0] != GrowthDefaults[2][0];
    assert |IncomeDefaults[0]| != |IncomeDefaults[1]| && |IncomeDefaults[0]| != |IncomeDefaults[2]|;
    assert IncomeDefaults[1][0] != IncomeDefaults[2][0];
  }

  /**
   * `loadConfiguration`: each symbol key read in turn, a falsy value giving the default
   * set; if either read throws, the `catch` block puts both sets to the defaults and
   * nothing is written. Otherwise the sets are written back when either key was falsy.
   */
  function LoadSets(entries: map<string, Stored>): (r: Loaded)
    ensures ValidSets(r.sets)
    ensures var g, i := Lookup(entries, GrowthKey), Lookup(entries, IncomeKey);
      r.save <==> ReadSymbols(g, GrowthDefaults).Some? && ReadSymbols(i, IncomeDefaults).Some?
                  && (!Present(g) || !Present(i))
    ensures var g, i := Lookup(entries, GrowthKey), Lookup(entries, IncomeKey);
      ReadSymbols(g, GrowthDefaults).None? || ReadSymbols(i, IncomeDefaults).None? ==>
        r == Loaded(Sets(GrowthDefaults, IncomeDefaults), false)
    ensures var g, i := Lookup(entries, GrowthKey), Lookup(entries, IncomeKey);
      ReadSymbols(g, GrowthDefaults).Some? && ReadSymbols(i, IncomeDefaults).Some? ==>
        r.sets == Sets(ReadSymbols(g, GrowthDefaults).value, ReadSymbols(i, IncomeDefaults).value)
  {
    DefaultSetsValid();
    var savedGrowth := Lookup(entries, GrowthKey);
    var savedIncome := Lookup(entries, IncomeKey);
    match ReadSymbols(savedGrowth, GrowthDefaults)
    case None => Loaded(Sets(GrowthDefaults, IncomeDefaults), false)
    case Some(growth) =>
      match ReadSymbols(savedIncome, IncomeDefaults)
      case None => Loaded(Sets(GrowthDefaults, IncomeDefaults), false)
      case Some(income) => Loaded(Sets(growth, income), !Present(savedGrowth) || !Present(savedIncome))
  }

  /** `saveConfiguration`: both symbol keys rewritten, every other key left alone. */
  function SaveSets(entries: map<string, Stored>, s: Sets): (e: map<string, Stored>)
    ensures Lookup(e, GrowthKey) == Some(StringList(s.growth))
    ensures Lookup(e, IncomeKey) == Some(StringList(s.income))
    ensures forall k :: k != GrowthKey && k != IncomeKey ==> Lookup(e, k) == Lookup(entries, k)
  {
    KeysDistinct();
    entries[GrowthKey := StringList(s.growth)][IncomeKey := StringList(s.income)]
  }

  /** Sets that were saved load back unchanged, and loading them writes nothing. */
  lemma LoadAfterSave(entries: map<string, Stored>, s: Sets)
    requires ValidSets(s)
    ensures LoadSets(SaveSets(entries, s)) == Loaded(s, false)
  {
    ReadWrittenSymbols(s.growth, GrowthDefaults);
    ReadWrittenSymbols(s.income, IncomeDefaults);
  }

  /** A first start (nothing stored) gives the defaults and saves them. */
  lemma LoadFirstStart()
    ensures LoadSets(map[]) == Loaded(Sets(GrowthDefaults, IncomeDefaults), true)
  {
  }

  /** The helper object: the two sets and the last scan's symbol map. */
  class Helper {
    var positions: map<string, Position>
    var growth: seq<string>
    var income: seq<string>
    const store: Store

    /** Both sets hold distinct, upper-case symbols. */
    ghost predicate Valid()
      reads this
    {
      ValidSets(Symbols())
    }

    function Symbols(): Sets
      reads this
    {
      Sets(growth, income)
    }

    /**
     * The sets were written to the store and the table was scanned again: the last
     * step of every operation that changes a set.
     */
    twostate predicate SavedAndRescanned(rows: array<Row>)
      reads this, store, rows, Objects(rows)
    {
      && store.entries == SaveSets(old(store.entries), Symbols())
      && positions == old(positions) + Recorded(rows[..], growth, income)
      && States(rows) == ScanStates(old(States(rows)), growth, income, true)
    }

    /**
     * The constructor: empty sets and symbol map; `init` scans the table at once unless
     * the document is still loading (the scan then waits for an event this model leaves
     * out), and only after that are the stored sets loaded.
     */
    constructor(store: Store, rows: array<Row>, loading: bool)
      requires DistinctRows(rows)
      modifies store, Objects(rows)
      ensures this.store == store && Valid()
      ensures var loaded := LoadSets(old(store.entries));
        && Symbols() == loaded.sets
        && store.entries == if loaded.save then SaveSets(old(store.entries), loaded.sets) else old(store.entries)
      ensures positions == if loading then map[] else Recorded(rows[..], [], [])
      ensures States(rows) == if loading then old(States(rows)) else ScanStates(old(States(rows)), [], [], true)
    {
      positions := map[];
      growth, income := [], [];
      this.store := store;
      new;
      Init(rows, loading);
      LoadConfiguration();
    }

    /** `init`: the table is scanned at once unless the document is still loading. */
    method Init(rows: array<Row>, loading: bool)
      requires DistinctRows(rows)
      modifies this`positions, Objects(rows)
      ensures positions == if loading then old(positions) else old(positions) + Recorded(rows[..], growth, income)
      ensures States(rows) == if loading then old(States(rows)) else ScanStates(old(States(rows)), growth, income, true)
    {
      if !loading {
        ScanAndHighlight(rows);
      }
    }

    /** `loadConfiguration`, as `LoadSets` describes it. */
    method LoadConfiguration()
      modifies this`growth, this`income, store
      ensures var loaded := LoadSets(old(store.entries));
        && Symbols() == loaded.sets
        && store.entries == if loaded.save then SaveSets(old(store.entries), loaded.sets) else old(store.entries)
      ensures Valid()
    {
      DefaultSetsValid();
      var savedGrowth := store.GetItem(GrowthKey);
      var savedIncome := store.GetItem(IncomeKey);
      var readGrowth := ReadSymbols(savedGrowth, GrowthDefaults);
      if readGrowth.None? {
        growth, income := GrowthDefaults, IncomeDefaults;
        return;
      }
      growth := readGrowth.value;
      var readIncome := ReadSymbols(savedIncome, IncomeDefaults);
      if readIncome.None? {
        growth, income := GrowthDefaults, IncomeDefaults;
        return;
      }
      income := readIncome.value;
      if !Present(savedGrowth) || !Present(savedIncome) {
        SaveConfiguration();
      }
    }

    /** `saveConfiguration`: both sets written under their keys. */
    method SaveConfiguration()
      modifies store
      ensures store.entries == SaveSets(old(store.entries), Symbols())
    {
      store.SetItem(GrowthKey, StringList(growth));
      store.SetItem(IncomeKey, StringList(income));
    }

    /** `saveConfiguration()` then `scanAndHighlight()`: how every change to a set ends. */
    method SaveAndRescan(rows: array<Row>)
      requires DistinctRows(rows)
      modifies this`positions, store, Objects(rows)
      ensures SavedAndRescanned(rows)
    {
      SaveConfiguration();
      ScanAndHighlight(rows);
    }

    /**
     * `scanAndHighlight`: every row with a symbol loses its highlight and gets its
     * group's colour, and each shown symbol is recorded with its group.
     */
    method ScanAndHighlight(rows: array<Row>)
      requires DistinctRows(rows)
      modifies this`positions, Objects(rows)
      ensures positions == old(positions) + Recorded(rows[..], growth, income)
      ensures States(rows) == ScanStates(old(States(rows)), growth, income, true)
    {
      var recorded, growthCount, incomeCount := ScanRows(rows, growth, income, true);
      positions := positions + recorded;
    }

    /**
     * `saveSymbolsFromPanel`: both fields' text parsed into sets, saved, and the table
     * scanned again.
     */
    method SaveSymbolsFromPanel(growthText: string, incomeText: string, rows: array<Row>)
      requires DistinctRows(rows)
      modifies this`growth, this`income, this`positions, store, Objects(rows)
      ensures growth == ParseSymbolList(growthText) && income == ParseSymbolList(incomeText)
      ensures Valid()
      ensures SavedAndRescanned(rows)
    {
      var parsedGrowth := ParseSymbolList(growthText);
      var parsedIncome := ParseSymbolList(incomeText);
      assert forall s :: s in parsedGrowth ==> IsUpper(s);
      assert forall s :: s in parsedIncome ==> IsUpper(s);
      ApplySymbols(parsedGrowth, parsedIncome, rows);
    }

    /** The part of `saveSymbolsFromPanel` after the parse: store, save, rescan. */
    method ApplySymbols(newGrowth: seq<string>, newIncome: seq<string>, rows: array<Row>)
      requires SymbolSet(newGrowth) && SymbolSet(newIncome) && DistinctRows(rows)
      modifies this`growth, this`income, this`positions, store, Objects(rows)
      ensures growth == newGrowth && income == newIncome
      ensures Valid()
      ensures SavedAndRescanned(rows)
    {
      growth, income := newGrowth, newIncome;
      SaveAndRescan(rows);
    }

    /**
     * `clearSymbolsFromPanel`: both sets emptied and saved, and every highlight cleared.
     */
    method ClearSymbolsFromPanel(rows: array<Row>)
      requires DistinctRows(rows)
      modifies this`growth, this`income, store, Objects(rows)
      ensures growth == [] && income == [] && positions == old(positions)
      ensures Valid()
      ensures store.entries == SaveSets(old(store.entries), Symbols())
      ensures States(rows) == ClearedAll(old(States(rows)))
    {
      growth, income := [], [];
      SaveConfiguration();
      Table.ClearAllHighlights(rows);
    }

    /** `addGrowthSymbol`: the upper-cased symbol joins the growth set. */
    method AddGrowthSymbol(symbol: string, rows: array<Row>)
      requires Valid() && DistinctRows(rows)
      modifies this`growth, this`positions, store, Objects(rows)
      ensures Upper(symbol) in growth
      ensures forall s :: s in growth <==> s in old(growth) || s == Upper(symbol)
      ensures growth == Insert(old(growth), Upper(symbol)) && income == old(income)
      ensures Valid()
      ensures SavedAndRescanned(rows)
    {
      UpperIsUpper(symbol);
      growth := Insert(growth, Upper(symbol));
      SaveAndRescan(rows);
    }

    /** `addIncomeSymbol`: the upper-cased symbol joins the income set. */
    method AddIncomeSymbol(symbol: string, rows: array<Row>)
      requires Valid() && DistinctRows(rows)
      modifies this`income, this`positions, store, Objects(rows)
      ensures Upper(symbol) in income
      ensures forall s :: s in income <==> s in old(income) || s == Upper(symbol)
      ensures income == Insert(old(income), Upper(symbol)) && growth == old(growth)
      ensures Valid()
      ensures SavedAndRescanned(rows)
    {
      UpperIsUpper(symbol);
      income := Insert(income, Upper(symbol));
      SaveAndRescan(rows);
    }

    /** `removeGrowthSymbol`: the upper-cased symbol leaves the growth set. */
    method RemoveGrowthSymbol(symbol: string, rows: array<Row>)
      requires Valid() && DistinctRows(rows)
      modifies this`growth, this`positions, store, Objects(rows)
      ensures Upper(symbol) !in growth
      ensures forall s :: s in growth <==> s in old(growth) && s != Upper(symbol)
      ensures growth == Delete(old(growth), Upper(symbol)) && income == old(income)
      ensures Valid()
      ensures SavedAndRescanned(rows)
    {
      growth := Delete(growth, Upper(symbol));
      SaveAndRescan(rows);
    }

    /** `removeIncomeSymbol`: the upper-cased symbol leaves the income set. */
    method RemoveIncomeSymbol(symbol: string, rows: array<Row>)
      requires Valid() && DistinctRows(rows)
      modifies this`income, this`positions, store, Objects(rows)
      ensures Upper(symbol) !in income
      ensures forall s :: s in income <==> s in old(income) && s != Upper(symbol)
      ensures income == Delete(old(income), Upper(symbol)) && growth == old(growth)
      ensures Valid()
      ensures SavedAndRescanned(rows)
    {
      income := Delete(income, Upper(symbol));
      SaveAndRescan(rows);
    }

    /** `setGrowthSymbols`: the growth set becomes the upper-cased symbols given. */
    method SetGrowthSymbols(symbols: seq<string>, rows: array<Row>)
      requires Valid() && DistinctRows(rows)
      modifies this`growth, this`positions, store, Objects(rows)
      ensures forall s :: s in growth <==> exists k :: 0 <= k < |symbols| && s == Upper(symbols[k])
      ensures growth == ReadSymbols(Some(StringList(symbols)), []).value && income == old(income)
      ensures Valid()
      ensures SavedAndRescanned(rows)
    {
      var read := ReadSymbols(Some(StringList(symbols)), []);
      assert read == Some(FromList(UpperAll(symbols)));
      growth := read.value;
      SaveAndRescan(rows);
    }

    /** `setIncomeSymbols`: the income set becomes the upper-cased symbols given. */
    method SetIncomeSymbols(symbols: seq<string>, rows: array<Row>)
      requires Valid() && DistinctRows(rows)
      modifies this`income, this`positions, store, Objects(rows)
      ensures forall s :: s in income <==> exists k :: 0 <= k < |symbols| && s == Upper(symbols[k])
      ensures income == ReadSymbols(Some(StringList(symbols)), []).value && growth == old(growth)
      ensures Valid()
      ensures SavedAndRescanned(rows)
    {
      var read := ReadSymbols(Some(StringList(symbols)), []);
      assert read == Some(FromList(UpperAll(symbols)));
      income := read.value;
      SaveAndRescan(rows);
    }

    /** `getGrowthSymbols`: the growth set's elements in insertion order. */
    method GetGrowthSymbols() returns (r: seq<string>)
      ensures r == growth
    {
      r := growth;
    }

    /** `getIncomeSymbols`: the income set's elements in insertion order. */
    method GetIncomeSymbols() returns (r: seq<string>)
      ensures r == income
    {
      r := income;
    }

    /** `getAllSymbols`: both sets. */
    method GetAllSymbols() returns (r: AllSymbols)
      ensures r.growth == growth && r.income == income
    {
      r := AllSymbols(growth, income);
    }
  }
}
