/**
 * The release build's helper (version 1.0.0): growth and income groups, colour coding
 * that can be switched off, and the visual sort with its snapshot of the original
 * row offsets. Everything the helper keeps lives in one object, and every change is
 * written to the store at once.
 */
module GroupingHelper {
  import opened Wrappers
  import opened Text
  import opened OrderedSets
  import opened SymbolList
  import opened Classifier
  import opened Table
  import opened Layout
  import opened Storage

  /** The sets a first start writes to the store. */
  const GrowthDefaults := ["SPYG", "AMZN", "BRKW"]
  const IncomeDefaults := ["SPYI", "MCD", "CBF"]
  /** The sets a failed load falls back to (and does not write). */
  const GrowthFallback := ["AAPL", "TSLA", "NVDA"]
  const IncomeFallback := ["T", "VZ", "KO"]

  /** What the helper persists. */
  datatype Config = Config(growth: seq<string>, income: seq<string>, sorting: bool, coloring: bool)

  predicate ValidConfig(c: Config) {
    SymbolSet(c.growth) && SymbolSet(c.income)
  }

  /** The result of `loadConfiguration`: the new settings and whether they are written back. */
  datatype Loaded = Loaded(config: Config, save: bool)

  lemma ConstantSetsValid()
    ensures SymbolSet(GrowthDefaults) && SymbolSet(IncomeDefaults)
    ensures SymbolSet(GrowthFallback) && SymbolSet(IncomeFallback)
  {
    assert GrowthDefaults[0][3] != GrowthDefaults[1][3] && GrowthDefaults[0][0] != GrowthDefaults[2][0];
    assert GrowthDefaults[1][0] != GrowthDefaults[2][0];
    assert IncomeDefaults[0][0] != IncomeDefaults[1][0] && IncomeDefaults[0][0] != IncomeDefaults[2][0];
    assert |IncomeDefaults[0]| != |IncomeDefaults[1]| && IncomeDefaults[1][0] != IncomeDefaults[2][0];
    assert GrowthFallback[0][0] != GrowthFallback[1][0] && GrowthFallback[0][0] != GrowthFallback[2][0];
    assert GrowthFallback[1][0] != GrowthFallback[2][0];
    assert |IncomeFallback[0]| != |IncomeFallback[1]| && |IncomeFallback[0]| != |IncomeFallback[2]|;
    assert IncomeFallback[1][0] != IncomeFallback[2][0];
  }

  /**
   * The `try` block of `loadConfiguration`, given what the four keys hold: read the two
   * symbol keys (a falsy value gives the first-start defaults), then each flag key that
   * is present. Returns the settings as far as they were assigned and whether a read
   * threw; the first read that throws ends the block.
   */
  function TryLoad(savedGrowth: Option<Stored>, savedIncome: Option<Stored>,
                   savedSorting: Option<Stored>, savedColoring: Option<Stored>, current: Config): (r: (Config, bool))
    ensures !r.1 ==> ValidConfig(r.0)
    ensures r.1 ==> r.0.coloring == current.coloring
  {
    ConstantSetsValid();
    match ReadSymbols(savedGrowth, GrowthDefaults)
    case None => (current, true)
    case Some(growth) =>
      match ReadSymbols(savedIncome, IncomeDefaults)
      case None => (current.(growth := growth), true)
      case Some(income) =>
        var c1 := current.(growth := growth, income := income);
        match ReadFlag(savedSorting, c1.sorting)
        case None => (c1, true)
        case Some(sorting) =>
          var c2 := c1.(sorting := sorting);
          match ReadFlag(savedColoring, c2.coloring)
          case None => (c2, true)
          case Some(coloring) => (c2.(coloring := coloring), false)
  }

  /**
   * `loadConfiguration`: the `try` block, then on a throw the `catch` block, which puts
   * both sets to the fallback sets and keeps whatever flags were already assigned;
   * nothing is written. A load that does not throw is written back when either symbol
   * key was falsy.
   */
  function LoadConfig(entries: map<string, Stored>, current: Config): (r: Loaded)
    ensures ValidConfig(r.config)
    ensures r.save ==> !Present(Lookup(entries, GrowthKey)) || !Present(Lookup(entries, IncomeKey))
  {
    ConstantSetsValid();
    var savedGrowth := Lookup(entries, GrowthKey);
    var savedIncome := Lookup(entries, IncomeKey);
    var (reached, threw) :=
      TryLoad(savedGrowth, savedIncome, Lookup(entries, SortingKey), Lookup(entries, ColoringKey), current);
    if threw then Loaded(reached.(growth := GrowthFallback, income := IncomeFallback), false)
    else Loaded(reached, !Present(savedGrowth) || !Present(savedIncome))
  }

  /**
   * The `try` block throws exactly when one of the four reads does, and when it does
   * not throw it has assigned every setting the value its read gave.
   */
  lemma TryLoadReads(savedGrowth: Option<Stored>, savedIncome: Option<Stored>,
                     savedSorting: Option<Stored>, savedColoring: Option<Stored>, current: Config)
    ensures var r := TryLoad(savedGrowth, savedIncome, savedSorting, savedColoring, current);
      && (r.1 <==> ReadSymbols(savedGrowth, GrowthDefaults).None? || ReadSymbols(savedIncome, IncomeDefaults).None?
                   || ReadFlag(savedSorting, current.sorting).None? || ReadFlag(savedColoring, current.coloring).None?)
      && (!r.1 ==> r.0 == Config(ReadSymbols(savedGrowth, GrowthDefaults).value, ReadSymbols(savedIncome, IncomeDefaults).value,
                                 ReadFlag(savedSorting, current.sorting).value, ReadFlag(savedColoring, current.coloring).value))
  {
  }

  /**
   * The defaulting rule of `loadConfiguration`: a load that throws gives both fallback
   * sets and saves nothing; one that does not gives each key's read, a falsy key
   * reading as that key's defaults, and saves exactly when a symbol key was falsy.
   */
  lemma LoadConfigRule(entries: map<string, Stored>, current: Config)
    ensures var g, i := Lookup(entries, GrowthKey), Lookup(entries, IncomeKey);
      var t := TryLoad(g, i, Lookup(entries, SortingKey), Lookup(entries, ColoringKey), current);
      var r := LoadConfig(entries, current);
      && (r.save <==> !t.1 && (!Present(g) || !Present(i)))
      && (t.1 ==> r.config.growth == GrowthFallback && r.config.income == IncomeFallback && !r.save)
      && (!t.1 ==> r.config.growth == ReadSymbols(g, GrowthDefaults).value
                   && r.config.income == ReadSymbols(i, IncomeDefaults).value)
  {
    TryLoadReads(Lookup(entries, GrowthKey), Lookup(entries, IncomeKey),
                 Lookup(entries, SortingKey), Lookup(entries, ColoringKey), current);
  }

  /** `saveConfiguration`: all four keys rewritten from the settings. */
  function SaveConfig(entries: map<string, Stored>, c: Config): (e: map<string, Stored>)
    ensures Lookup(e, GrowthKey) == Some(StringList(c.growth))
    ensures Lookup(e, IncomeKey) == Some(StringList(c.income))
    ensures Lookup(e, SortingKey) == Some(Boolean(c.sorting))
    ensures Lookup(e, ColoringKey) == Some(Boolean(c.coloring))
    ensures forall k :: k !in {GrowthKey, IncomeKey, SortingKey, ColoringKey} ==> Lookup(e, k) == Lookup(entries, k)
  {
    KeysDistinct();
    entries[GrowthKey := StringList(c.growth)][IncomeKey := StringList(c.income)]
      [SortingKey := Boolean(c.sorting)][ColoringKey := Boolean(c.coloring)]
  }

  /** Settings that were saved load back unchanged, and loading them writes nothing. */
  lemma LoadAfterSave(entries: map<string, Stored>, c: Config, current: Config)
    requires ValidConfig(c)
    ensures LoadConfig(SaveConfig(entries, c), current) == Loaded(c, false)
  {
    var e := SaveConfig(entries, c);
    ReadWrittenSymbols(c.growth, GrowthDefaults);
    ReadWrittenSymbols(c.income, IncomeDefaults);
  }

  /** A first start (nothing stored) gives the defaults, keeps both flags, and saves. */
  lemma LoadFirstStart(current: Config)
    ensures LoadConfig(map[], current) ==
      Loaded(Config(GrowthDefaults, IncomeDefaults, current.sorting, current.coloring), true)
  {
  }

  /**
   * Malformed text under either symbol key resets both sets to the fallback sets,
   * whatever the other key holds, and keeps both flags; nothing is saved.
   */
  lemma LoadMalformedSymbols(entries: map<string, Stored>, current: Config)
    requires Lookup(entries, GrowthKey) == Some(Unparsable) || Lookup(entries, IncomeKey) == Some(Unparsable)
    ensures LoadConfig(entries, current) ==
      Loaded(Config(GrowthFallback, IncomeFallback, current.sorting, current.coloring), false)
  {
  }

  /**
   * A sorting flag parsed before the coloring key fails survives the failure, while both
   * sets still fall back.
   */
  lemma LoadColoringFailure(entries: map<string, Stored>, current: Config, b: bool)
    requires ReadSymbols(Lookup(entries, GrowthKey), GrowthDefaults).Some?
    requires ReadSymbols(Lookup(entries, IncomeKey), IncomeDefaults).Some?
    requires Lookup(entries, SortingKey) == Some(Boolean(b))
    requires Lookup(entries, ColoringKey) == Some(Unparsable)
    ensures LoadConfig(entries, current) ==
      Loaded(Config(GrowthFallback, IncomeFallback, b, current.coloring), false)
  {
  }

  /**
   * The rows and the snapshot after `scanAndHighlight`: every row scanned, then the
   * sort of the scanned rows when sorting is on.
   */
  function AfterScan(st: seq<RowState>, snapshot: map<string, Saved>, c: Config): (r: (seq<RowState>, map<string, Saved>))
    ensures |r.0| == |st|
    ensures !c.sorting ==> r.1 == snapshot
  {
    var scanned := ScanStates(st, c.growth, c.income, c.coloring);
    if c.sorting then (SortStates(scanned, c.growth, c.income), NextSnapshot(snapshot, scanned))
    else (scanned, snapshot)
  }

  lemma ScannedTwice(r: RowState, growth: seq<string>, income: seq<string>, coloring: bool)
    ensures Scanned(Scanned(r, growth, income, coloring), growth, income, coloring) == Scanned(r, growth, income, coloring)
  {
  }

  lemma ScanStatesTwice(st: seq<RowState>, growth: seq<string>, income: seq<string>, coloring: bool)
    ensures var scanned := ScanStates(st, growth, income, coloring);
      ScanStates(scanned, growth, income, coloring) == scanned
  {
    var scanned := ScanStates(st, growth, income, coloring);
    forall k | 0 <= k < |st| ensures Scanned(scanned[k], growth, income, coloring) == scanned[k] {
      ScannedTwice(st[k], growth, income, coloring);
    }
  }

  /** Scanning sorted rows only resets the white of ungrouped rows, which sorting then repaints. */
  lemma SortAfterRescan(scanned: seq<RowState>, growth: seq<string>, income: seq<string>, coloring: bool)
    requires ScanStates(scanned, growth, income, coloring) == scanned
    ensures var sorted := SortStates(scanned, growth, income);
      SortStates(ScanStates(sorted, growth, income, coloring), growth, income) == sorted
  {
    var sorted := SortStates(scanned, growth, income);
    var rescanned := ScanStates(sorted, growth, income, coloring);
    assert Lanes(rescanned, growth, income) == Lanes(scanned, growth, income);
    forall k | 0 <= k < |scanned| ensures SortStates(rescanned, growth, income)[k] == sorted[k] {
      assert Scanned(scanned[k], growth, income, coloring) == scanned[k];
    }
  }

  /**
   * Scanning again changes nothing, with or without sorting: the re-scans the page
   * observer triggers leave the table, and the snapshot, as the first scan left them.
   */
  lemma RescanIdempotent(st: seq<RowState>, snapshot: map<string, Saved>, c: Config)
    ensures var once := AfterScan(st, snapshot, c);
      AfterScan(once.0, once.1, c) == once
  {
    var scanned := ScanStates(st, c.growth, c.income, c.coloring);
    ScanStatesTwice(st, c.growth, c.income, c.coloring);
    if c.sorting {
      SortAfterRescan(scanned, c.growth, c.income, c.coloring);
      var rescanned := ScanStates(SortStates(scanned, c.growth, c.income), c.growth, c.income, c.coloring);
      CaptureEmpty(scanned);
      CaptureEmpty(rescanned);
    }
  }

  /** The helper object: the settings, the last scan's symbol map and the offset snapshot. */
  class Helper {
    var positions: map<string, Position>
    var growth: seq<string>
    var income: seq<string>
    var sortingEnabled: bool
    var coloringEnabled: bool
    var snapshot: map<string, Saved>
    const store: Store

    /** Both sets hold distinct, upper-case symbols. */
    ghost predicate Valid()
      reads this
    {
      ValidConfig(Settings())
    }

    function Settings(): Config
      reads this
    {
      Config(growth, income, sortingEnabled, coloringEnabled)
    }

    /**
     * The settings were written to the store and the table was scanned again: the
     * last step of every operation that changes a set.
     */
    twostate predicate SavedAndRescanned(rows: array<Row>)
      reads this, store, rows, Objects(rows)
    {
      && store.entries == SaveConfig(old(store.entries), Settings())
      && positions == old(positions) + Recorded(rows[..], growth, income)
      && (States(rows), snapshot) == AfterScan(old(States(rows)), old(snapshot), Settings())
    }

    /**
     * The constructor: no symbol map, no snapshot, sorting off and colouring on; the
     * stored settings are loaded, then `init` scans the table at once unless the document
     * is still loading (the scan then waits for an event this model leaves out).
     */
    constructor(store: Store, rows: array<Row>, loading: bool)
      requires DistinctRows(rows)
      modifies store, Objects(rows)
      ensures this.store == store && Valid()
      ensures var loaded := LoadConfig(old(store.entries), Config([], [], false, true));
        && Settings() == loaded.config
        && store.entries == if loaded.save then SaveConfig(old(store.entries), loaded.config) else old(store.entries)
      ensures positions == if loading then map[] else Recorded(rows[..], growth, income)
      ensures (States(rows), snapshot) ==
        if loading then (old(States(rows)), map[]) else AfterScan(old(States(rows)), map[], Settings())
    {
      positions := map[];
      growth, income := [], [];
      sortingEnabled, coloringEnabled := false, true;
      snapshot := map[];
      this.store := store;
      new;
      ghost var before := States(rows);
      ghost var start, e0 := Settings(), store.entries;
      assert start == Config([], [], false, true);
      LoadConfiguration();
      assert States(rows) == before;
      ghost var settings, saved := Settings(), store.entries;
      ghost var scan := if loading then (before, map[]) else AfterScan(before, map[], settings);
      ghost var recorded := if loading then map[] else Recorded(rows[..], growth, income);
      assert positions + recorded == recorded;
      Init(rows, loading);
      assert Settings() == settings && store.entries == saved;
      assert positions == recorded && (States(rows), snapshot) == scan;
    }

    /** `init`: the table is scanned at once unless the document is still loading. */
    method Init(rows: array<Row>, loading: bool)
      requires DistinctRows(rows)
      modifies this`positions, this`snapshot, Objects(rows)
      ensures positions == if loading then old(positions) else old(positions) + Recorded(rows[..], growth, income)
      ensures (States(rows), snapshot) ==
        if loading then (old(States(rows)), old(snapshot)) else AfterScan(old(States(rows)), old(snapshot), Settings())
    {
      if !loading {
        ScanAndHighlight(rows);
      }
    }

    /** `loadConfiguration`, as `LoadConfig` describes it. */
    method LoadConfiguration()
      modifies this`growth, this`income, this`sortingEnabled, this`coloringEnabled, store
      ensures var loaded := LoadConfig(old(store.entries), old(Settings()));
        && Settings() == loaded.config
        && store.entries == if loaded.save then SaveConfig(old(store.entries), loaded.config) else old(store.entries)
      ensures Valid()
      ensures positions == old(positions) && snapshot == old(snapshot)
    {
      var savedGrowth := store.GetItem(GrowthKey);
      var savedIncome := store.GetItem(IncomeKey);
      var savedSorting := store.GetItem(SortingKey);
      var savedColoring := store.GetItem(ColoringKey);
      var threw := TryLoadStored(savedGrowth, savedIncome, savedSorting, savedColoring);
      if threw {
        growth, income := GrowthFallback, IncomeFallback;
      } else if !Present(savedGrowth) || !Present(savedIncome) {
        SaveConfiguration();
      }
    }

    /** The `try` block of `loadConfiguration`, as `TryLoad` describes it. */
    method TryLoadStored(savedGrowth: Option<Stored>, savedIncome: Option<Stored>,
                         savedSorting: Option<Stored>, savedColoring: Option<Stored>)
        returns (threw: bool)
      modifies this`growth, this`income, this`sortingEnabled, this`coloringEnabled
      ensures (Settings(), threw) == TryLoad(savedGrowth, savedIncome, savedSorting, savedColoring, old(Settings()))
    {
      var readGrowth := ReadSymbols(savedGrowth, GrowthDefaults);
      if readGrowth.None? {
        return true;
      }
      growth := readGrowth.value;
      var readIncome := ReadSymbols(savedIncome, IncomeDefaults);
      if readIncome.None? {
        return true;
      }
      income := readIncome.value;
      if savedSorting.Some? {
        var sorting := ReadFlag(savedSorting, sortingEnabled);
        if sorting.None? {
          return true;
        }
        sortingEnabled := sorting.value;
      }
      if savedColoring.Some? {
        var coloring := ReadFlag(savedColoring, coloringEnabled);
        if coloring.None? {
          return true;
        }
        coloringEnabled := coloring.value;
      }
      return false;
    }

    /** `saveConfiguration`: every setting written under its key. */
    method SaveConfiguration()
      modifies store
      ensures store.entries == SaveConfig(old(store.entries), Settings())
    {
      store.SetItem(GrowthKey, StringList(growth));
      store.SetItem(IncomeKey, StringList(income));
      store.SetItem(SortingKey, Boolean(sortingEnabled));
      store.SetItem(ColoringKey, Boolean(coloringEnabled));
    }

    /** `saveConfiguration()` then `scanAndHighlight()`: how every change to a set ends. */
    method SaveAndRescan(rows: array<Row>)
      requires DistinctRows(rows)
      modifies this`positions, this`snapshot, store, Objects(rows)
      ensures Settings() == old(Settings())
      ensures SavedAndRescanned(rows)
    {
      SaveConfiguration();
      ScanAndHighlight(rows);
    }

    /**
     * `scanAndHighlight`: every row scanned with the current sets (coloured only when
     * colouring is on), each shown symbol recorded, then the table sorted if sorting is on.
     */
    method ScanAndHighlight(rows: array<Row>)
      requires DistinctRows(rows)
      modifies this`positions, this`snapshot, Objects(rows)
      ensures positions == old(positions) + Recorded(rows[..], growth, income)
      ensures (States(rows), snapshot) == AfterScan(old(States(rows)), old(snapshot), Settings())
    {
      RecordScan(rows);
      if sortingEnabled {
        SortRowsByGroup(rows);
      }
    }

    /**
     * The `forEach` pass of `scanAndHighlight`: every row scanned with the current sets
     * and each shown symbol recorded in the symbol map.
     */
    method RecordScan(rows: array<Row>)
      requires DistinctRows(rows)
      modifies this`positions, Objects(rows)
      ensures positions == old(positions) + Recorded(rows[..], growth, income)
      ensures States(rows) == ScanStates(old(States(rows)), growth, income, coloringEnabled)
    {
      var recorded, growthCount, incomeCount := ScanRows(rows, growth, income, coloringEnabled);
      positions := positions + recorded;
    }

    /**
     * `sortRowsByGroup`: nothing happens to an empty table; otherwise the offsets are
     * captured if no snapshot is held, the rows are split into the three groups in
     * table order, and each group is stacked after the previous one.
     */
    method SortRowsByGroup(rows: array<Row>)
      requires DistinctRows(rows)
      modifies this`snapshot, Objects(rows)
      ensures States(rows) == SortStates(old(States(rows)), growth, income)
      ensures snapshot == NextSnapshot(old(snapshot), old(States(rows)))
    {
      if rows.Length == 0 {
        return;
      }
      if |snapshot| == 0 {
        snapshot := CaptureRows(rows);
      }
      StackGroups(rows, growth, income);
    }

    /**
     * `revertSorting`: every row whose symbol is in the snapshot gets its captured
     * offsets back, and every row loses its background.
     */
    method RevertSorting(rows: array<Row>)
      requires DistinctRows(rows)
      modifies Objects(rows)
      ensures States(rows) == RevertStates(old(States(rows)), snapshot)
    {
      RevertRows(rows, snapshot);
    }

    /**
     * `toggleSorting`: the flag is negated and saved, then the table is sorted if the
     * flag is now on and reverted if it is now off.
     */
    method ToggleSorting(rows: array<Row>)
      requires DistinctRows(rows)
      modifies this`sortingEnabled, this`snapshot, store, Objects(rows)
      ensures sortingEnabled == !old(sortingEnabled)
      ensures growth == old(growth) && income == old(income) && coloringEnabled == old(coloringEnabled)
      ensures positions == old(positions)
      ensures store.entries == SaveConfig(old(store.entries), Settings())
      ensures sortingEnabled ==>
        States(rows) == SortStates(old(States(rows)), growth, income)
        && snapshot == NextSnapshot(old(snapshot), old(States(rows)))
      ensures !sortingEnabled ==>
        States(rows) == RevertStates(old(States(rows)), snapshot) && snapshot == old(snapshot)
    {
      sortingEnabled := !sortingEnabled;
      SaveConfiguration();
      if sortingEnabled {
        SortRowsByGroup(rows);
      } else {
        RevertSorting(rows);
      }
    }

    /**
     * `saveSymbolsFromPanel`: both fields' text parsed into sets, the sorting checkbox
     * taken over, everything saved and the table scanned again.
     */
    method SaveSymbolsFromPanel(growthText: string, incomeText: string, sortingChecked: bool, rows: array<Row>)
      requires DistinctRows(rows)
      modifies this`growth, this`income, this`sortingEnabled, this`positions, this`snapshot, store, Objects(rows)
      ensures growth == ParseSymbolList(growthText) && income == ParseSymbolList(incomeText)
      ensures sortingEnabled == sortingChecked && coloringEnabled == old(coloringEnabled)
      ensures Valid()
      ensures SavedAndRescanned(rows)
    {
      var parsedGrowth := ParseSymbolList(growthText);
      var parsedIncome := ParseSymbolList(incomeText);
      assert forall s :: s in parsedGrowth ==> IsUpper(s);
      assert forall s :: s in parsedIncome ==> IsUpper(s);
      ApplySymbols(parsedGrowth, parsedIncome, sortingChecked, rows);
    }

    /** The part of `saveSymbolsFromPanel` after the parse: store, save, rescan. */
    method ApplySymbols(newGrowth: seq<string>, newIncome: seq<string>, sorting: bool, rows: array<Row>)
      requires SymbolSet(newGrowth) && SymbolSet(newIncome) && DistinctRows(rows)
      modifies this`growth, this`income, this`sortingEnabled, this`positions, this`snapshot, store, Objects(rows)
      ensures growth == newGrowth && income == newIncome
      ensures sortingEnabled == sorting && coloringEnabled == old(coloringEnabled)
      ensures Valid()
      ensures SavedAndRescanned(rows)
    {
      growth, income, sortingEnabled := newGrowth, newIncome, sorting;
      assert Valid();
      SaveAndRescan(rows);
    }

    /**
     * `clearSymbolsFromPanel`: both sets emptied, sorting off, the snapshot dropped, the
     * settings saved and every highlight cleared. The rows keep their offsets.
     */
    method ClearSymbolsFromPanel(rows: array<Row>)
      requires DistinctRows(rows)
      modifies this`growth, this`income, this`sortingEnabled, this`snapshot, store, Objects(rows)
      ensures growth == [] && income == [] && !sortingEnabled && snapshot == map[]
      ensures coloringEnabled == old(coloringEnabled) && positions == old(positions)
      ensures Valid()
      ensures store.entries == SaveConfig(old(store.entries), Settings())
      ensures States(rows) == ClearedAll(old(States(rows)))
    {
      growth, income := [], [];
      sortingEnabled := false;
      snapshot := map[];
      SaveConfiguration();
      ClearAllHighlights(rows);
    }

    /** `addGrowthSymbol`: the upper-cased symbol joins the growth set. */
    method AddGrowthSymbol(symbol: string, rows: array<Row>)
      requires Valid() && DistinctRows(rows)
      modifies this`growth, this`positions, this`snapshot, store, Objects(rows)
      ensures Upper(symbol) in growth
      ensures forall s :: s in growth <==> s in old(growth) || s == Upper(symbol)
      ensures growth == Insert(old(growth), Upper(symbol))
      ensures income == old(income) && sortingEnabled == old(sortingEnabled) && coloringEnabled == old(coloringEnabled)
      ensures Valid()
      ensures SavedAndRescanned(rows)
    {
      UpperIsUpper(symbol);
      growth := Insert(growth, Upper(symbol));
      SaveAndRescan(rows);
    }

    /** `addIncomeSymbol`: the upper-cased symbol joins the income set. */
    method AddIncomeSymbol(symbol: string, rows: array<Row>)
      requires Valid() && DistinctRows(rows)
      modifies this`income, this`positions, this`snapshot, store, Objects(rows)
      ensures Upper(symbol) in income
      ensures forall s :: s in income <==> s in old(income) || s == Upper(symbol)
      ensures income == Insert(old(income), Upper(symbol))
      ensures growth == old(growth) && sortingEnabled == old(sortingEnabled) && coloringEnabled == old(coloringEnabled)
      ensures Valid()
      ensures SavedAndRescanned(rows)
    {
      UpperIsUpper(symbol);
      income := Insert(income, Upper(symbol));
      SaveAndRescan(rows);
    }

    /** `removeGrowthSymbol`: the upper-cased symbol leaves the growth set. */
    method RemoveGrowthSymbol(symbol: string, rows: array<Row>)
      requires Valid() && DistinctRows(rows)
      modifies this`growth, this`positions, this`snapshot, store, Objects(rows)
      ensures Upper(symbol) !in growth
      ensures forall s :: s in growth <==> s in old(growth) && s != Upper(symbol)
      ensures growth == Delete(old(growth), Upper(symbol))
      ensures income == old(income) && sortingEnabled == old(sortingEnabled) && coloringEnabled == old(coloringEnabled)
      ensures Valid()
      ensures SavedAndRescanned(rows)
    {
      growth := Delete(growth, Upper(symbol));
      SaveAndRescan(rows);
    }

    /** `removeIncomeSymbol`: the upper-cased symbol leaves the income set. */
    method RemoveIncomeSymbol(symbol: string, rows: array<Row>)
      requires Valid() && DistinctRows(rows)
      modifies this`income, this`positions, this`snapshot, store, Objects(rows)
      ensures Upper(symbol) !in income
      ensures forall s :: s in income <==> s in old(income) && s != Upper(symbol)
      ensures income == Delete(old(income), Upper(symbol))
      ensures growth == old(growth) && sortingEnabled == old(sortingEnabled) && coloringEnabled == old(coloringEnabled)
      ensures Valid()
      ensures SavedAndRescanned(rows)
    {
      income := Delete(income, Upper(symbol));
      SaveAndRescan(rows);
    }

    /** `setGrowthSymbols`: the growth set becomes the upper-cased symbols given. */
    method SetGrowthSymbols(symbols: seq<string>, rows: array<Row>)
      requires Valid() && DistinctRows(rows)
      modifies this`growth, this`positions, this`snapshot, store, Objects(rows)
      ensures forall s :: s in growth <==> exists k :: 0 <= k < |symbols| && s == Upper(symbols[k])
      ensures growth == ReadSymbols(Some(StringList(symbols)), []).value
      ensures income == old(income) && sortingEnabled == old(sortingEnabled) && coloringEnabled == old(coloringEnabled)
      ensures Valid()
      ensures SavedAndRescanned(rows)
    {
      var read := ReadSymbols(Some(StringList(symbols)), []);
      assert read == Some(FromList(UpperAll(symbols)));
      growth := read.value;
      SaveAndRescan(rows);
    }

    /** `setIncomeSymbols`: the income set becomes the upper-cased symbols given. */
    method SetIncomeSymbols(symbols: seq<string>, rows: array<Row>)
      requires Valid() && DistinctRows(rows)
      modifies this`income, this`positions, this`snapshot, store, Objects(rows)
      ensures forall s :: s in income <==> exists k :: 0 <= k < |symbols| && s == Upper(symbols[k])
      ensures income == ReadSymbols(Some(StringList(symbols)), []).value
      ensures growth == old(growth) && sortingEnabled == old(sortingEnabled) && coloringEnabled == old(coloringEnabled)
      ensures Valid()
      ensures SavedAndRescanned(rows)
    {
      var read := ReadSymbols(Some(StringList(symbols)), []);
      assert read == Some(FromList(UpperAll(symbols)));
      income := read.value;
      SaveAndRescan(rows);
    }

    /** `getGrowthSymbols`: the growth set's elements in insertion order. */
    method GetGrowthSymbols() returns (r: seq<string>)
      ensures r == growth
    {
      r := growth;
    }

    /** `getIncomeSymbols`: the income set's elements in insertion order. */
    method GetIncomeSymbols() returns (r: seq<string>)
      ensures r == income
    {
      r := income;
    }

    /** `getAllSymbols`: both sets. */
    method GetAllSymbols() returns (r: AllSymbols)
      ensures r.growth == growth && r.income == income
    {
      r := AllSymbols(growth, income);
    }

    /** `calculateRowHeight`, as `EstimatedRowHeight` describes it. */
    method CalculateRowHeight(rows: array<Row>) returns (height: int)
      ensures height > 0
      ensures height == EstimatedRowHeight(Tops(States(rows)))
    {
      if rows.Length < 2 {
        return DefaultRowHeight;
      }
      var tops := SampledPositiveTops(rows);
      assert EstimatedRowHeight(Tops(States(rows))) == SmallestGap(tops);
      if |tops| < 2 {
        return DefaultRowHeight;
      }
      var sorted := SortAscending(tops);
      height := sorted[1] - sorted[0];
      if height <= 0 {
        height := DefaultRowHeight;
      }
    }

    /** The positive offsets among the first five rows, in table order. */
    method SampledPositiveTops(rows: array<Row>) returns (tops: seq<int>)
      ensures tops == PositiveTops(Sample(Tops(States(rows))))
    {
      ghost var ts := Tops(States(rows));
      var sampled := if rows.Length < SampledRows then rows.Length else SampledRows;
      tops := [];
      for i := 0 to sampled
        invariant tops == PositiveTops(ts[..i])
      {
        PositiveTopsSnoc(ts, i);
        var top := rows[i].top.GetOr(0);
        assert top == ts[i];
        if top > 0 {
          tops := tops + [top];
        }
      }
      assert ts == Tops(States(rows));
      assert ts[..sampled] == Sample(ts);
    }

    /**
     * `getStartingPosition`: 0 for no rows, otherwise the smallest offset, an unset
     * offset counting as 0.
     */
    method GetStartingPosition(rows: array<Row>) returns (start: int)
      ensures rows.Length == 0 ==> start == 0
      ensures rows.Length > 0 ==>
        (exists k :: 0 <= k < rows.Length && start == TopOf(rows[k].State()))
        && forall k :: 0 <= k < rows.Length ==> start <= TopOf(rows[k].State())
    {
      if rows.Length == 0 {
        return 0;
      }
      var minTop: Option<int> := None;
      for i := 0 to rows.Length
        invariant minTop.None? <==> i == 0
        invariant minTop.Some? ==>
          (exists k :: 0 <= k < i && minTop.value == TopOf(rows[k].State()))
          && forall k :: 0 <= k < i ==> minTop.value <= TopOf(rows[k].State())
      {
        var top := rows[i].top.GetOr(0);
        if minTop.None? || top < minTop.value {
          minTop := Some(top);
        }
      }
      start := minTop.GetOr(0);
    }
  }
}
