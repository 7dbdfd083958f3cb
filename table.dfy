/**
 * The portfolio table: the position rows the page shows, what the helper reads from
 * them (the symbol cell's text) and what it writes to them (inline `top`,
 * `transform` and `backgroundColor` styles, and the `data-etrade-helper` attribute).
 * The scan and clear passes that both helper versions share live here.
 */
module Table {
  import opened Wrappers
  import opened Classifier

  /** Background written for growth rows (muted blue). */
  const GrowthColor := "#e8f2ff"
  /** Background written for income rows (muted green). */
  const IncomeColor := "#e8f5e8"

  /**
   * The helper-visible state of one row: the symbol cell's text (none when the row has
   * no symbol cell), the inline `top` offset in pixels (none when unset), the inline
   * `transform` and `backgroundColor` ("" when unset) and the group named by the
   * `data-etrade-helper` attribute (none when the attribute is absent).
   */
  datatype RowState = RowState(
    cell: Option<string>,
    top: Option<int>,
    transform: string,
    background: string,
    marker: Option<Group>)

  /** One position row of the page. The helper never rewrites the symbol cell. */
  class Row {
    const cell: Option<string>
    var top: Option<int>
    var transform: string
    var background: string
    var marker: Option<Group>

    constructor (cell: Option<string>, top: Option<int>, transform: string, background: string, marker: Option<Group>)
      ensures State() == RowState(cell, top, transform, background, marker)
    {
      this.cell := cell;
      this.top := top;
      this.transform := transform;
      this.background := background;
      this.marker := marker;
    }

    function State(): RowState
      reads this
    {
      RowState(cell, top, transform, background, marker)
    }

    /** `highlightRow(row, symbol, group)`: paints the group's colour and tags the row. */
    method Highlight(group: Group)
      modifies this
      ensures State() == Highlighted(old(State()), group)
    {
      background := ColorOf(group);
      marker := Some(group);
    }

    /** `clearRowHighlight(row)`: removes the background and the helper attribute. */
    method ClearHighlight()
      modifies this
      ensures State() == Cleared(old(State()))
    {
      background := "";
      marker := None;
    }
  }

  /** The colour a group's rows are painted: a different one per group. */
  function ColorOf(group: Group): (c: string)
    ensures c == GrowthColor || c == IncomeColor
    ensures c == GrowthColor <==> group == Growth
  {
    assert GrowthColor[4] != IncomeColor[4];
    match group
    case Growth => GrowthColor
    case Income => IncomeColor
  }

  /** The background a row tagged `marker` carries: its group's colour, or none. */
  function BackgroundFor(marker: Option<Group>): (c: string)
    ensures c == "" <==> marker.None?
    ensures c == GrowthColor <==> marker == Some(Growth)
    ensures c == IncomeColor <==> marker == Some(Income)
  {
    match marker
    case Some(g) => ColorOf(g)
    case None => ""
  }

  function Highlighted(r: RowState, group: Group): RowState {
    r.(background := ColorOf(group), marker := Some(group))
  }

  function Cleared(r: RowState): RowState {
    r.(background := "", marker := None)
  }

  /** The page never returns the same element twice from one query. */
  predicate DistinctRows(rows: array<Row>)
    reads rows
  {
    forall i, j :: 0 <= i < j < rows.Length ==> rows[i] != rows[j]
  }

  ghost function Objects(rows: array<Row>): set<Row>
    reads rows
  {
    set i | 0 <= i < rows.Length :: rows[i]
  }

  ghost function States(rows: array<Row>): (st: seq<RowState>)
    reads rows, Objects(rows)
    ensures |st| == rows.Length
    ensures forall i :: 0 <= i < rows.Length ==> st[i] == rows[i].State()
  {
    seq(rows.Length, i requires 0 <= i < rows.Length reads rows, Objects(rows) => rows[i].State())
  }

  /** The symbol of every row, in table order. */
  function Symbols(rows: seq<Row>): (syms: seq<Option<string>>)
    ensures |syms| == |rows|
    ensures forall i :: 0 <= i < |rows| ==> syms[i] == SymbolOf(rows[i].cell)
  {
    seq(|rows|, i requires 0 <= i < |rows| => SymbolOf(rows[i].cell))
  }

  lemma SymbolsSnoc(rows: seq<Row>)
    requires rows != []
    ensures Symbols(rows) == Symbols(rows[..|rows| - 1]) + [SymbolOf(rows[|rows| - 1].cell)]
  {
    var init := rows[..|rows| - 1];
    assert forall k :: 0 <= k < |init| ==> init[k] == rows[k];
  }

  // ---------------------------------------------------------------------------
  // The scan pass

  /**
   * What one scan does to a row: a row without a symbol is left alone; any other row
   * loses its highlight and, when colouring is on and its symbol has a group, gets
   * that group's colour and attribute.
   */
  function Scanned(r: RowState, growth: seq<string>, income: seq<string>, coloring: bool): (s: RowState)
    ensures s.cell == r.cell && s.top == r.top && s.transform == r.transform
    ensures SymbolOf(r.cell).None? ==> s == r
    ensures SymbolOf(r.cell).Some? ==>
      && s.marker == (if coloring then Classify(SymbolOf(r.cell).value, growth, income) else None)
      && s.background == BackgroundFor(s.marker)
  {
    match SymbolOf(r.cell)
    case None => r
    case Some(symbol) =>
      match Classify(symbol, growth, income)
      case Some(g) => if coloring then Highlighted(Cleared(r), g) else Cleared(r)
      case None => Cleared(r)
  }

  function ScanStates(st: seq<RowState>, growth: seq<string>, income: seq<string>, coloring: bool): (r: seq<RowState>)
    ensures |r| == |st|
  {
    seq(|st|, k requires 0 <= k < |st| => Scanned(st[k], growth, income, coloring))
  }

  /** The `positions` entry a scan records for a row. */
  datatype Position = Position(symbol: string, row: Row, group: Option<Group>)

  /**
   * The entries a scan records, keyed by symbol; a later row with the same symbol
   * overwrites the entry of an earlier one.
   */
  function Recorded(rows: seq<Row>, growth: seq<string>, income: seq<string>): (m: map<string, Position>)
  {
    if rows == [] then map[]
    else
      var before := Recorded(rows[..|rows| - 1], growth, income);
      var row := rows[|rows| - 1];
      match SymbolOf(row.cell)
      case None => before
      case Some(s) => before[s := Position(s, row, Classify(s, growth, income))]
  }

  /** The recorded symbols are exactly the symbols shown. */
  lemma {:induction false} RecordedKeys(rows: seq<Row>, growth: seq<string>, income: seq<string>, s: string)
    ensures s in Recorded(rows, growth, income) <==> Some(s) in Symbols(rows)
  {
    if rows != [] {
      var init := rows[..|rows| - 1];
      RecordedKeys(init, growth, income, s);
      SymbolsSnoc(rows);
    }
  }

  /** The entry for a symbol describes the last row that shows it, with that symbol's group. */
  lemma {:induction false} RecordedAt(rows: seq<Row>, growth: seq<string>, income: seq<string>, s: string, k: nat)
    requires k < |rows| && SymbolOf(rows[k].cell) == Some(s)
    requires forall j :: k < j < |rows| ==> SymbolOf(rows[j].cell) != Some(s)
    ensures s in Recorded(rows, growth, income)
    ensures Recorded(rows, growth, income)[s] == Position(s, rows[k], Classify(s, growth, income))
  {
    var n := |rows| - 1;
    var init := rows[..n];
    if k < n {
      assert SymbolOf(rows[n].cell) != Some(s);
      forall j | k < j < |init|
        ensures SymbolOf(init[j].cell) != Some(s)
      {
        assert init[j] == rows[j];
      }
      RecordedAt(init, growth, income, s, k);
      RecordedLast(rows, growth, income, s);
    } else {
      RecordedLastRow(rows, growth, income, s);
    }
  }

  /** A last row showing another symbol leaves the entry for `s` as it was. */
  lemma RecordedLast(rows: seq<Row>, growth: seq<string>, income: seq<string>, s: string)
    requires rows != [] && SymbolOf(rows[|rows| - 1].cell) != Some(s)
    requires s in Recorded(rows[..|rows| - 1], growth, income)
    ensures s in Recorded(rows, growth, income)
    ensures Recorded(rows, growth, income)[s] == Recorded(rows[..|rows| - 1], growth, income)[s]
  {
  }

  /** A last row showing `s` makes the entry for `s`. */
  lemma RecordedLastRow(rows: seq<Row>, growth: seq<string>, income: seq<string>, s: string)
    requires rows != [] && SymbolOf(rows[|rows| - 1].cell) == Some(s)
    ensures s in Recorded(rows, growth, income)
    ensures Recorded(rows, growth, income)[s] == Position(s, rows[|rows| - 1], Classify(s, growth, income))
  {
  }

  /** The number of shown symbols that fall in `group`: the scan's growth and income counts. */
  function GroupCount(rows: seq<Row>, growth: seq<string>, income: seq<string>, group: Group): nat {
    if rows == [] then 0
    else
      var last := SymbolOf(rows[|rows| - 1].cell);
      GroupCount(rows[..|rows| - 1], growth, income, group) + GroupStep(last, growth, income, group)
  }

  /** A shown symbol that falls in one of the groups (or no symbol at all). */
  predicate Grouped(symbol: Option<string>, growth: seq<string>, income: seq<string>) {
    symbol.Some? ==> Classify(symbol.value, growth, income).Some?
  }

  /** The number of rows that show a symbol. */
  function ShownCount(rows: seq<Row>): nat {
    if rows == [] then 0
    else ShownCount(rows[..|rows| - 1]) + (if SymbolOf(rows[|rows| - 1].cell).Some? then 1 else 0)
  }

  /**
   * No row is counted in both groups: together the two counts never exceed the number
   * of rows showing a symbol, and they reach it exactly when every shown symbol has a group.
   */
  lemma {:induction false} GroupCountsPartition(rows: seq<Row>, growth: seq<string>, income: seq<string>)
    ensures GroupCount(rows, growth, income, Growth) + GroupCount(rows, growth, income, Income) <= ShownCount(rows)
    ensures GroupCount(rows, growth, income, Growth) + GroupCount(rows, growth, income, Income) == ShownCount(rows)
      <==> forall k :: 0 <= k < |rows| ==> Grouped(Symbols(rows)[k], growth, income)
  {
    if rows != [] {
      var init := rows[..|rows| - 1];
      GroupCountsPartition(init, growth, income);
      var syms, initSyms := Symbols(rows), Symbols(init);
      var last := SymbolOf(rows[|rows| - 1].cell);
      SymbolsSnoc(rows);
      assert GroupCount(rows, growth, income, Growth) == GroupCount(init, growth, income, Growth) + GroupStep(last, growth, income, Growth);
      assert GroupCount(rows, growth, income, Income) == GroupCount(init, growth, income, Income) + GroupStep(last, growth, income, Income);
      assert ShownCount(rows) == ShownCount(init) + (if last.Some? then 1 else 0);
      GroupStepBound(last, growth, income);
      GroupedSnoc(initSyms, last, growth, income);
    }
  }

  /** What one row adds to a group's count. */
  function GroupStep(symbol: Option<string>, growth: seq<string>, income: seq<string>, group: Group): nat {
    if symbol.Some? && Classify(symbol.value, growth, income) == Some(group) then 1 else 0
  }

  lemma GroupStepBound(symbol: Option<string>, growth: seq<string>, income: seq<string>)
    ensures var n := GroupStep(symbol, growth, income, Growth) + GroupStep(symbol, growth, income, Income);
      n <= (if symbol.Some? then 1 else 0) && (n == (if symbol.Some? then 1 else 0) <==> Grouped(symbol, growth, income))
  {
  }

  lemma GroupedSnoc(syms: seq<Option<string>>, last: Option<string>, growth: seq<string>, income: seq<string>)
    ensures (forall k :: 0 <= k < |syms + [last]| ==> Grouped((syms + [last])[k], growth, income)) <==>
      (forall k :: 0 <= k < |syms| ==> Grouped(syms[k], growth, income)) && Grouped(last, growth, income)
  {
    assert (syms + [last])[|syms|] == last;
    assert forall k :: 0 <= k < |syms| ==> (syms + [last])[k] == syms[k];
  }

  /**
   * The body of `scanAndHighlight`'s loop for one row: a row with a symbol loses its
   * old highlight and is highlighted by group when `coloring` is set; the group found
   * is returned (none for a row without a symbol, or a symbol without a group).
   */
  method ScanRow(row: Row, growth: seq<string>, income: seq<string>, coloring: bool)
      returns (group: Option<Group>)
    modifies row
    ensures row.State() == Scanned(old(row.State()), growth, income, coloring)
    ensures group == if SymbolOf(row.cell).Some? then Classify(SymbolOf(row.cell).value, growth, income) else None
  {
    group := None;
    var symbol := SymbolOf(row.cell);
    if symbol.Some? {
      row.ClearHighlight();
      if symbol.value in growth {
        if coloring {
          row.Highlight(Growth);
        }
        group := Some(Growth);
      } else if symbol.value in income {
        if coloring {
          row.Highlight(Income);
        }
        group := Some(Income);
      }
    }
  }

  /** The bookkeeping for one scanned row: its `positions` entry and its group's count. */
  method Tally(row: Row, group: Option<Group>, recorded: map<string, Position>, growthCount: nat, incomeCount: nat)
      returns (recorded': map<string, Position>, growthCount': nat, incomeCount': nat)
    requires SymbolOf(row.cell).None? ==> group.None?
    ensures var s := SymbolOf(row.cell);
      && recorded' == (if s.Some? then recorded[s.value := Position(s.value, row, group)] else recorded)
      && growthCount' == growthCount + (if group == Some(Growth) then 1 else 0)
      && incomeCount' == incomeCount + (if group == Some(Income) then 1 else 0)
  {
    recorded', growthCount', incomeCount' := recorded, growthCount, incomeCount;
    var symbol := SymbolOf(row.cell);
    if symbol.Some? {
      if group == Some(Growth) {
        growthCount' := growthCount + 1;
      } else if group == Some(Income) {
        incomeCount' := incomeCount + 1;
      }
      recorded' := recorded[symbol.value := Position(symbol.value, row, group)];
    }
  }

  /** What the scan's bookkeeping adds for the next row: its entry and its count. */
  lemma ScanTallySnoc(rows: seq<Row>, i: nat, growth: seq<string>, income: seq<string>)
    requires i < |rows|
    ensures var s := SymbolOf(rows[i].cell);
      var g := if s.Some? then Classify(s.value, growth, income) else None;
      && Recorded(rows[..i + 1], growth, income)
         == (if s.Some? then Recorded(rows[..i], growth, income)[s.value := Position(s.value, rows[i], g)]
             else Recorded(rows[..i], growth, income))
      && GroupCount(rows[..i + 1], growth, income, Growth)
         == GroupCount(rows[..i], growth, income, Growth) + (if g == Some(Growth) then 1 else 0)
      && GroupCount(rows[..i + 1], growth, income, Income)
         == GroupCount(rows[..i], growth, income, Income) + (if g == Some(Income) then 1 else 0)
  {
    assert rows[..i + 1][..i] == rows[..i];
  }

  /**
   * `scanAndHighlight`'s pass over the rows: each row with a symbol loses its old
   * highlight, is highlighted by group when `coloring` is set, and is recorded; rows
   * without a symbol are skipped. Returns the recorded entries and the growth and
   * income counts.
   */
  method ScanRows(rows: array<Row>, growth: seq<string>, income: seq<string>, coloring: bool)
      returns (recorded: map<string, Position>, growthCount: nat, incomeCount: nat)
    requires DistinctRows(rows)
    modifies Objects(rows)
    ensures States(rows) == ScanStates(old(States(rows)), growth, income, coloring)
    ensures recorded == Recorded(rows[..], growth, income)
    ensures growthCount == GroupCount(rows[..], growth, income, Growth)
    ensures incomeCount == GroupCount(rows[..], growth, income, Income)
  {
    recorded, growthCount, incomeCount := map[], 0, 0;
    ghost var before, rs := States(rows), rows[..];
    for i := 0 to rows.Length
      invariant forall k :: 0 <= k < rows.Length ==>
        rows[k].State() == if k < i then Scanned(before[k], growth, income, coloring) else before[k]
      invariant recorded == Recorded(rs[..i], growth, income)
      invariant growthCount == GroupCount(rs[..i], growth, income, Growth)
      invariant incomeCount == GroupCount(rs[..i], growth, income, Income)
    {
      var row := rows[i];
      ScanTallySnoc(rs, i, growth, income);
      label Before:
      var group := ScanRow(row, growth, income, coloring);
      forall k | 0 <= k < rows.Length && k != i ensures rows[k].State() == old@Before(rows[k].State()) {
        assert rows[k] != row;
      }
      recorded, growthCount, incomeCount := Tally(row, group, recorded, growthCount, incomeCount);
    }
    assert rs[..rows.Length] == rs;
  }

  // ---------------------------------------------------------------------------
  // Clearing every highlight

  /** `clearAllHighlights`: every row carrying the helper attribute is cleared. */
  function ClearedAll(st: seq<RowState>): (r: seq<RowState>)
    ensures |r| == |st|
  {
    seq(|st|, k requires 0 <= k < |st| => if st[k].marker.Some? then Cleared(st[k]) else st[k])
  }

  /** A row painted in a group colour also carries the helper attribute. */
  predicate Tagged(r: RowState) {
    (r.background == GrowthColor || r.background == IncomeColor) ==> r.marker.Some?
  }

  /**
   * After clearing, no row carries the helper attribute, and no row that was painted
   * by the helper keeps a group colour; rows the helper never tagged keep their style.
   */
  lemma ClearedAllRemovesHighlights(st: seq<RowState>)
    ensures forall k :: 0 <= k < |st| ==> ClearedAll(st)[k].marker.None?
    ensures forall k :: 0 <= k < |st| && Tagged(st[k]) ==>
              ClearedAll(st)[k].background != GrowthColor && ClearedAll(st)[k].background != IncomeColor
    ensures forall k :: 0 <= k < |st| && st[k].marker.None? ==> ClearedAll(st)[k] == st[k]
  {
  }

  /** Every row a scan leaves behind is tagged whenever it is painted in a group colour. */
  lemma ScannedIsTagged(r: RowState, growth: seq<string>, income: seq<string>, coloring: bool)
    requires Tagged(r)
    ensures Tagged(Scanned(r, growth, income, coloring))
  {
  }

  method ClearAllHighlights(rows: array<Row>)
    requires DistinctRows(rows)
    modifies Objects(rows)
    ensures States(rows) == ClearedAll(old(States(rows)))
  {
    ghost var before := States(rows);
    for i := 0 to rows.Length
      invariant forall k :: 0 <= k < rows.Length ==>
        rows[k].State() == if k < i then ClearedAll(before)[k] else before[k]
    {
      if rows[i].marker.Some? {
        rows[i].ClearHighlight();
      }
    }
  }
}
