/**
 * The visual re-layout of the release build: rows are stacked growth first, then
 * income, then ungrouped, at a fixed row height, after their original offsets have been
 * captured once so that a revert can put them back. Also the two row-height
 * heuristics that build carries.
 */
module Layout {
  import opened Wrappers
  import opened Text
  import opened Classifier
  import opened Table

  /** The fixed row height the sort stacks rows by, in pixels. */
  const RowHeight := 37
  /** The transform every positioned row gets, and the one a capture records when unset. */
  const NeutralTransform := "translateY(0px)"
  /** The background that marks an ungrouped row after sorting. */
  const UngroupedColor := "white"

  /** Which of the sort's three lists a row goes into; rows without a symbol go into none. */
  datatype Lane = GrowthLane | IncomeLane | UngroupedLane | Unplaced

  function LaneOf(cell: Option<string>, growth: seq<string>, income: seq<string>): Lane {
    match SymbolOf(cell)
    case None => Unplaced
    case Some(s) =>
      if s in growth then GrowthLane else if s in income then IncomeLane else UngroupedLane
  }

  function Lanes(st: seq<RowState>, growth: seq<string>, income: seq<string>): (ls: seq<Lane>)
    ensures |ls| == |st|
    ensures forall k :: 0 <= k < |st| ==> ls[k] == LaneOf(st[k].cell, growth, income)
  {
    seq(|st|, k requires 0 <= k < |st| => LaneOf(st[k].cell, growth, income))
  }

  /** The positions of the rows in lane `l`, in table order: one of the sort's three lists. */
  function Indices(ls: seq<Lane>, l: Lane): (r: seq<nat>)
    ensures forall c :: 0 <= c < |r| ==> r[c] < |ls| && ls[r[c]] == l
    ensures forall a, b :: 0 <= a < b < |r| ==> r[a] < r[b]
  {
    if ls == [] then []
    else Indices(ls[..|ls| - 1], l) + (if ls[|ls| - 1] == l then [|ls| - 1] else [])
  }

  /** The order rows are stacked in: growth rows, then income rows, then ungrouped rows. */
  function Order(ls: seq<Lane>): seq<nat> {
    Indices(ls, GrowthLane) + Indices(ls, IncomeLane) + Indices(ls, UngroupedLane)
  }

  /** The first slot of a lane's block. */
  function Base(ls: seq<Lane>, l: Lane): nat {
    match l
    case GrowthLane => 0
    case IncomeLane => |Indices(ls, GrowthLane)|
    case UngroupedLane => |Indices(ls, GrowthLane)| + |Indices(ls, IncomeLane)|
    case Unplaced => 0
  }

  /** The slot row `k` is stacked into: its lane's base plus the earlier rows of its lane. */
  function Rank(ls: seq<Lane>, k: nat): nat
    requires k < |ls|
  {
    Base(ls, ls[k]) + |Indices(ls[..k], ls[k])|
  }

  /** A row the sort moves: stacked into `slot`, transform reset, and painted white if ungrouped. */
  function Positioned(r: RowState, slot: nat, l: Lane): RowState {
    r.(top := Some(slot * RowHeight),
       transform := NeutralTransform,
       background := if l == UngroupedLane then UngroupedColor else r.background)
  }

  /** The rows after `sortRowsByGroup`; rows without a symbol are not touched. */
  function SortStates(st: seq<RowState>, growth: seq<string>, income: seq<string>): (r: seq<RowState>)
    ensures |r| == |st|
    ensures forall k :: 0 <= k < |st| ==> r[k].cell == st[k].cell && r[k].marker == st[k].marker
  {
    var ls := Lanes(st, growth, income);
    seq(|st|, k requires 0 <= k < |st| =>
      if ls[k] == Unplaced then st[k] else Positioned(st[k], Rank(ls, k), ls[k]))
  }

  // ---------------------------------------------------------------------------
  // Properties of the stacking order

  lemma {:induction false} IndicesPrefix(ls: seq<Lane>, m: nat, l: Lane)
    requires m <= |ls|
    ensures Indices(ls[..m], l) <= Indices(ls, l)
    decreases |ls|
  {
    if m < |ls| {
      var init := ls[..|ls| - 1];
      assert init[..m] == ls[..m];
      IndicesPrefix(init, m, l);
    } else {
      assert ls[..m] == ls;
    }
  }

  /** A row of lane `l` sits in that lane's list at the position of its rank within the lane. */
  lemma IndexAt(ls: seq<Lane>, k: nat)
    requires k < |ls|
    ensures |Indices(ls[..k], ls[k])| < |Indices(ls, ls[k])|
    ensures Indices(ls, ls[k])[|Indices(ls[..k], ls[k])|] == k
  {
    var l := ls[k];
    assert ls[..k + 1][..k] == ls[..k];
    assert Indices(ls[..k + 1], l) == Indices(ls[..k], l) + [k];
    IndicesPrefix(ls, k + 1, l);
  }

  /** The row at position `c` of a lane's list has `c` earlier rows in that lane. */
  lemma PositionInLane(ls: seq<Lane>, l: Lane, c: nat)
    requires c < |Indices(ls, l)|
    ensures var k := Indices(ls, l)[c]; k < |ls| && ls[k] == l && |Indices(ls[..k], l)| == c
  {
    var k := Indices(ls, l)[c];
    IndexAt(ls, k);
  }

  /** Every placed row's slot holds that row in the stacking order. */
  lemma OrderAtRank(ls: seq<Lane>, k: nat)
    requires k < |ls| && ls[k] != Unplaced
    ensures Rank(ls, k) < |Order(ls)| && Order(ls)[Rank(ls, k)] == k
  {
    IndexAt(ls, k);
  }

  /** Slot `c` of the stacking order holds a placed row whose rank is `c`. */
  lemma RankAtOrder(ls: seq<Lane>, c: nat)
    requires c < |Order(ls)|
    ensures Order(ls)[c] < |ls| && ls[Order(ls)[c]] != Unplaced && Rank(ls, Order(ls)[c]) == c
  {
    var g, i := |Indices(ls, GrowthLane)|, |Indices(ls, IncomeLane)|;
    if c < g {
      PositionInLane(ls, GrowthLane, c);
    } else if c < g + i {
      PositionInLane(ls, IncomeLane, c - g);
    } else {
      PositionInLane(ls, UngroupedLane, c - g - i);
    }
  }

  /**
   * The stacking order is a permutation of the rows that have a symbol: each such row
   * appears exactly once, and nothing else appears.
   */
  lemma OrderIsPermutation(ls: seq<Lane>)
    ensures forall k: nat :: k in Order(ls) <==> (k < |ls| && ls[k] != Unplaced)
    ensures forall a, b :: 0 <= a < b < |Order(ls)| ==> Order(ls)[a] != Order(ls)[b]
  {
    forall k: nat | k < |ls| && ls[k] != Unplaced ensures k in Order(ls) {
      OrderAtRank(ls, k);
    }
    forall a, b | 0 <= a < b < |Order(ls)| ensures Order(ls)[a] != Order(ls)[b] {
      RankAtOrder(ls, a);
      RankAtOrder(ls, b);
    }
  }

  /** The slots are 0 .. count-1, one per placed row: distinct rows get distinct slots. */
  lemma RankIsSlot(ls: seq<Lane>, j: nat, k: nat)
    requires j < |ls| && k < |ls| && ls[j] != Unplaced && ls[k] != Unplaced
    ensures Rank(ls, k) < |Order(ls)|
    ensures Rank(ls, j) == Rank(ls, k) ==> j == k
  {
    OrderAtRank(ls, j);
    OrderAtRank(ls, k);
  }

  function LanePriority(l: Lane): nat {
    match l
    case GrowthLane => 0
    case IncomeLane => 1
    case UngroupedLane => 2
    case Unplaced => 3
  }

  /**
   * Growth rows come before income rows, which come before ungrouped rows, and within
   * one group the sort keeps the scan's order.
   */
  lemma RankRespectsGroupsThenScanOrder(ls: seq<Lane>, j: nat, k: nat)
    requires j < |ls| && k < |ls| && ls[j] != Unplaced && ls[k] != Unplaced
    requires LanePriority(ls[j]) < LanePriority(ls[k]) || (ls[j] == ls[k] && j < k)
    ensures Rank(ls, j) < Rank(ls, k)
  {
    IndexAt(ls, j);
    IndexAt(ls, k);
    if ls[j] == ls[k] {
      var l := ls[k];
      assert ls[..k][..j + 1] == ls[..j + 1];
      assert ls[..j + 1][..j] == ls[..j];
      assert Indices(ls[..j + 1], l) == Indices(ls[..j], l) + [j];
      IndicesPrefix(ls[..k], j + 1, l);
    }
  }

  /**
   * The layout `sortRowsByGroup` produces: the row in slot `c` of the stacking order
   * gets `top` = c * 37 and the neutral transform, only ungrouped rows are painted
   * white, and a row without a symbol is left exactly as it was.
   */
  lemma SortLayout(st: seq<RowState>, growth: seq<string>, income: seq<string>)
    ensures var ls, r := Lanes(st, growth, income), SortStates(st, growth, income);
      && (forall c :: 0 <= c < |Order(ls)| ==>
            && Order(ls)[c] < |st|
            && r[Order(ls)[c]].top == Some(c * RowHeight)
            && r[Order(ls)[c]].transform == NeutralTransform
            && r[Order(ls)[c]].background ==
                 (if ls[Order(ls)[c]] == UngroupedLane then UngroupedColor else st[Order(ls)[c]].background))
      && (forall k :: 0 <= k < |st| && SymbolOf(st[k].cell).None? ==> r[k] == st[k])
  {
    var ls := Lanes(st, growth, income);
    forall c | 0 <= c < |Order(ls)|
      ensures Order(ls)[c] < |st| && ls[Order(ls)[c]] != Unplaced && Rank(ls, Order(ls)[c]) == c
    {
      RankAtOrder(ls, c);
    }
  }

  /** The rows once the slots below `pos` of the stacking order have been written. */
  function PlacedUpTo(st: seq<RowState>, ls: seq<Lane>, pos: nat): (r: seq<RowState>)
    requires |ls| == |st|
    ensures |r| == |st|
  {
    seq(|st|, k requires 0 <= k < |st| =>
      if ls[k] != Unplaced && Rank(ls, k) < pos then Positioned(st[k], Rank(ls, k), ls[k]) else st[k])
  }

  lemma PlacedNone(st: seq<RowState>, ls: seq<Lane>)
    requires |ls| == |st|
    ensures PlacedUpTo(st, ls, 0) == st
  {
  }

  /** Once every slot has been written the rows are sorted. */
  lemma PlacedAllIsSorted(st: seq<RowState>, growth: seq<string>, income: seq<string>)
    ensures var ls := Lanes(st, growth, income);
      PlacedUpTo(st, ls, |Order(ls)|) == SortStates(st, growth, income)
  {
    var ls := Lanes(st, growth, income);
    forall k | 0 <= k < |st| && ls[k] != Unplaced ensures Rank(ls, k) < |Order(ls)| {
      RankIsSlot(ls, k, k);
    }
  }

  /**
   * One of the three positioning passes: the rows of lane `l`, in table order, get the
   * next slots, starting at `start`; the ungrouped pass also paints them white.
   */
  method PlaceGroup(rows: array<Row>, group: seq<nat>, start: nat, l: Lane,
                    ghost st: seq<RowState>, ghost ls: seq<Lane>)
    returns (next: nat)
    requires DistinctRows(rows)
    requires |st| == |ls| == rows.Length && l != Unplaced
    requires group == Indices(ls, l) && start == Base(ls, l)
    requires States(rows) == PlacedUpTo(st, ls, start)
    modifies Objects(rows)
    ensures next == start + |group|
    ensures States(rows) == PlacedUpTo(st, ls, next)
  {
    next := start;
    for c := 0 to |group|
      invariant next == start + c
      invariant States(rows) == PlacedUpTo(st, ls, next)
    {
      var k := group[c];
      PositionInLane(ls, l, c);
      forall j | 0 <= j < |ls| && ls[j] != Unplaced && Rank(ls, j) == next ensures j == k {
        RankIsSlot(ls, j, k);
      }
      ghost var before := States(rows);
      rows[k].top := Some(next * RowHeight);
      rows[k].transform := NeutralTransform;
      if l == UngroupedLane {
        rows[k].background := UngroupedColor;
      }
      forall j | 0 <= j < rows.Length && j != k ensures rows[j].State() == before[j] {
        assert rows[j] != rows[k];
      }
      next := next + 1;
    }
  }

  /**
   * The grouping and positioning passes of `sortRowsByGroup`: the rows are split into
   * the three groups and each group is stacked after the previous one.
   */
  method StackGroups(rows: array<Row>, growth: seq<string>, income: seq<string>)
    requires DistinctRows(rows)
    modifies Objects(rows)
    ensures States(rows) == SortStates(old(States(rows)), growth, income)
  {
    ghost var st := States(rows);
    ghost var ls := Lanes(st, growth, income);
    var growthRows, incomeRows, ungroupedRows := GroupRows(rows, growth, income);
    PlacedNone(st, ls);
    var position := PlaceGroup(rows, growthRows, 0, GrowthLane, st, ls);
    position := PlaceGroup(rows, incomeRows, position, IncomeLane, st, ls);
    position := PlaceGroup(rows, ungroupedRows, position, UngroupedLane, st, ls);
    PlacedAllIsSorted(st, growth, income);
  }

  /** Sorting an already sorted table changes nothing: the layout is idempotent. */
  lemma SortIdempotent(st: seq<RowState>, growth: seq<string>, income: seq<string>)
    ensures SortStates(SortStates(st, growth, income), growth, income) == SortStates(st, growth, income)
  {
    var r := SortStates(st, growth, income);
    assert Lanes(r, growth, income) == Lanes(st, growth, income);
  }

  // ---------------------------------------------------------------------------
  // Capturing and restoring the original offsets

  /** What the snapshot keeps of a row: `style.top || '0px'` and `style.transform || 'translateY(0px)'`. */
  datatype Saved = Saved(top: int, transform: string)

  function SavedOf(r: RowState): Saved {
    Saved(r.top.GetOr(0), if r.transform == "" then NeutralTransform else r.transform)
  }

  /** The snapshot taken from the rows, keyed by symbol; a later row overwrites an earlier one. */
  function Capture(st: seq<RowState>): (m: map<string, Saved>)
    ensures forall s :: s in m ==> s != "" && IsUpper(s)
  {
    if st == [] then map[]
    else
      var before := Capture(st[..|st| - 1]);
      var r := st[|st| - 1];
      match SymbolOf(r.cell)
      case None => before
      case Some(s) => before[s := SavedOf(r)]
  }

  /** The snapshot after a sort: captured only from a non-empty table when none is held. */
  function NextSnapshot(snapshot: map<string, Saved>, st: seq<RowState>): (r: map<string, Saved>)
    ensures |snapshot| > 0 || st == [] ==> r == snapshot
    ensures |snapshot| == 0 && st != [] ==> r == Capture(st)
  {
    if |st| > 0 && |snapshot| == 0 then Capture(st) else snapshot
  }

  /**
   * The snapshot holds an entry for every symbol shown, and the entry for a symbol
   * is what the last row showing it had.
   */
  lemma {:induction false} CaptureAt(st: seq<RowState>, k: nat)
    requires k < |st| && SymbolOf(st[k].cell).Some?
    requires forall j :: k < j < |st| ==> SymbolOf(st[j].cell) != SymbolOf(st[k].cell)
    ensures SymbolOf(st[k].cell).value in Capture(st)
    ensures Capture(st)[SymbolOf(st[k].cell).value] == SavedOf(st[k])
  {
    if k < |st| - 1 {
      CaptureAt(st[..|st| - 1], k);
    }
  }

  /** Rows without a symbol are never captured, and only shown symbols are. */
  lemma {:induction false} CaptureKeys(st: seq<RowState>, s: string)
    requires s in Capture(st)
    ensures exists k :: 0 <= k < |st| && SymbolOf(st[k].cell) == Some(s)
  {
    var init := st[..|st| - 1];
    if SymbolOf(st[|st| - 1].cell) != Some(s) {
      CaptureKeys(init, s);
      var k :| 0 <= k < |init| && SymbolOf(init[k].cell) == Some(s);
      assert st[k] == init[k];
    }
  }

  /** The snapshot is empty exactly when no row shows a symbol. */
  lemma {:induction false} CaptureEmpty(st: seq<RowState>)
    ensures |Capture(st)| == 0 <==> forall k :: 0 <= k < |st| ==> SymbolOf(st[k].cell).None?
  {
    if st != [] {
      var init := st[..|st| - 1];
      CaptureEmpty(init);
      var last := SymbolOf(st[|st| - 1].cell);
      if last.Some? {
        assert last.value in Capture(st);
      } else {
        assert forall k :: 0 <= k < |init| ==> init[k] == st[k];
      }
    }
  }

  /**
   * What `revertSorting` does to a row: a row whose symbol is in the snapshot gets the
   * captured `top` and `transform` back; every row loses its background override.
   */
  function Reverted(r: RowState, snapshot: map<string, Saved>): (s: RowState)
    ensures s.cell == r.cell && s.marker == r.marker && s.background == ""
    ensures SymbolOf(r.cell).Some? && SymbolOf(r.cell).value in snapshot ==>
              s.top == Some(snapshot[SymbolOf(r.cell).value].top)
              && s.transform == snapshot[SymbolOf(r.cell).value].transform
    ensures SymbolOf(r.cell).None? || SymbolOf(r.cell).value !in snapshot ==>
              s.top == r.top && s.transform == r.transform
  {
    var restored :=
      match SymbolOf(r.cell)
      case Some(sym) =>
        if sym in snapshot then r.(top := Some(snapshot[sym].top), transform := snapshot[sym].transform) else r
      case None => r;
    restored.(background := "")
  }

  function RevertStates(st: seq<RowState>, snapshot: map<string, Saved>): (r: seq<RowState>)
    ensures |r| == |st| && forall k :: 0 <= k < |st| ==> r[k] == Reverted(st[k], snapshot)
  {
    seq(|st|, k requires 0 <= k < |st| => Reverted(st[k], snapshot))
  }

  /** `revertSorting`'s loop body for one row. */
  method RevertRow(row: Row, snapshot: map<string, Saved>)
    modifies row
    ensures row.State() == Reverted(old(row.State()), snapshot)
  {
    var symbol := SymbolOf(row.cell);
    if symbol.Some? && symbol.value in snapshot {
      row.top := Some(snapshot[symbol.value].top);
      row.transform := snapshot[symbol.value].transform;
    }
    row.background := "";
  }

  /** `revertSorting`'s pass over the rows. */
  method RevertRows(rows: array<Row>, snapshot: map<string, Saved>)
    requires DistinctRows(rows)
    modifies Objects(rows)
    ensures States(rows) == RevertStates(old(States(rows)), snapshot)
  {
    ghost var before := States(rows);
    for i := 0 to rows.Length
      invariant forall k :: 0 <= k < rows.Length ==>
        rows[k].State() == if k < i then Reverted(before[k], snapshot) else before[k]
    {
      ghost var current := States(rows);
      RevertRow(rows[i], snapshot);
      forall k | 0 <= k < rows.Length && k != i ensures rows[k].State() == current[k] {
        assert rows[k] != rows[i];
      }
    }
  }

  /** The capture pass of `sortRowsByGroup`: each row's offsets keyed by its symbol. */
  method CaptureRows(rows: array<Row>) returns (snapshot: map<string, Saved>)
    ensures snapshot == Capture(States(rows))
  {
    ghost var st := States(rows);
    snapshot := map[];
    for i := 0 to rows.Length
      invariant snapshot == Capture(st[..i])
    {
      assert st[..i + 1][..i] == st[..i];
      var symbol := SymbolOf(rows[i].cell);
      if symbol.Some? {
        snapshot := snapshot[symbol.value := SavedOf(rows[i].State())];
      }
    }
    assert st[..rows.Length] == st;
  }

  /** Looking at one more row adds it to its own lane's list only. */
  lemma IndicesSnoc(ls: seq<Lane>, i: nat, l: Lane)
    requires i < |ls|
    ensures Indices(ls[..i + 1], l) == Indices(ls[..i], l) + (if ls[i] == l then [i] else [])
  {
    assert ls[..i + 1][..i] == ls[..i];
  }

  /** The grouping pass of `sortRowsByGroup`: each group's rows, in table order. */
  method GroupRows(rows: array<Row>, growth: seq<string>, income: seq<string>)
      returns (growthRows: seq<nat>, incomeRows: seq<nat>, ungroupedRows: seq<nat>)
    ensures var ls := Lanes(States(rows), growth, income);
      && growthRows == Indices(ls, GrowthLane)
      && incomeRows == Indices(ls, IncomeLane)
      && ungroupedRows == Indices(ls, UngroupedLane)
  {
    ghost var ls := Lanes(States(rows), growth, income);
    growthRows, incomeRows, ungroupedRows := [], [], [];
    for i := 0 to rows.Length
      invariant growthRows == Indices(ls[..i], GrowthLane)
      invariant incomeRows == Indices(ls[..i], IncomeLane)
      invariant ungroupedRows == Indices(ls[..i], UngroupedLane)
    {
      IndicesSnoc(ls, i, GrowthLane);
      IndicesSnoc(ls, i, IncomeLane);
      IndicesSnoc(ls, i, UngroupedLane);
      var symbol := SymbolOf(rows[i].cell);
      assert ls[i] == LaneOf(rows[i].cell, growth, income);
      if symbol.Some? {
        if symbol.value in growth {
          growthRows := growthRows + [i];
        } else if symbol.value in income {
          incomeRows := incomeRows + [i];
        } else {
          ungroupedRows := ungroupedRows + [i];
        }
      }
    }
    assert ls[..rows.Length] == ls;
    assert ls == Lanes(States(rows), growth, income);
  }

  /**
   * Round trip: whatever happens to the rows' offsets after a capture, reverting with
   * that snapshot gives every captured row (the last row showing its symbol) its
   * original `top` and `transform` back, with the unset values read as `0px` and
   * `translateY(0px)`.
   */
  lemma RevertRestoresCaptured(st: seq<RowState>, later: seq<RowState>, k: nat)
    requires |later| == |st| && forall j :: 0 <= j < |st| ==> later[j].cell == st[j].cell
    requires k < |st| && SymbolOf(st[k].cell).Some?
    requires forall j :: k < j < |st| ==> SymbolOf(st[j].cell) != SymbolOf(st[k].cell)
    ensures RevertStates(later, Capture(st))[k].top == Some(st[k].top.GetOr(0))
    ensures RevertStates(later, Capture(st))[k].transform == SavedOf(st[k]).transform
  {
    CaptureAt(st, k);
  }

  /** Capture, sort, revert: the captured rows are back where they started. */
  lemma SortThenRevert(st: seq<RowState>, growth: seq<string>, income: seq<string>, k: nat)
    requires k < |st| && SymbolOf(st[k].cell).Some?
    requires forall j :: k < j < |st| ==> SymbolOf(st[j].cell) != SymbolOf(st[k].cell)
    requires st[k].top.Some? && st[k].transform != ""
    ensures var r := RevertStates(SortStates(st, growth, income), Capture(st))[k];
      r.top == st[k].top && r.transform == st[k].transform
  {
    RevertRestoresCaptured(st, SortStates(st, growth, income), k);
  }

  predicate PlainTicker(w: string) {
    w != "" && IsUpper(w) && NoSeparator(w)
  }

  /**
   * A row whose cell holds a bare ticker is placed by that ticker: growth first, then
   * income, else ungrouped.
   */
  lemma LaneOfTicker(w: string, growth: seq<string>, income: seq<string>)
    requires PlainTicker(w)
    ensures LaneOf(Some(w), growth, income) ==
      if w in growth then GrowthLane else if w in income then IncomeLane else UngroupedLane
  {
    SymbolOfPlainText(w);
  }

  lemma ExampleIndices(ls: seq<Lane>)
    requires ls == [UngroupedLane, GrowthLane, IncomeLane, GrowthLane]
    ensures Indices(ls, GrowthLane) == [1, 3] && Indices(ls, IncomeLane) == [2]
    ensures Indices(ls[..1], GrowthLane) == [] && Indices(ls[..3], GrowthLane) == [1]
    ensures Indices(ls[..2], IncomeLane) == [] && Indices(ls[..0], UngroupedLane) == []
  {
    assert ls[..0] == [];
    assert ls[..1][..0] == ls[..0];
    assert Indices(ls[..1], GrowthLane) == [] && Indices(ls[..1], IncomeLane) == [];
    assert ls[..2][..1] == ls[..1];
    assert Indices(ls[..2], GrowthLane) == [1] && Indices(ls[..2], IncomeLane) == [];
    assert ls[..3][..2] == ls[..2];
    assert Indices(ls[..3], GrowthLane) == [1] && Indices(ls[..3], IncomeLane) == [2];
    assert ls[..|ls| - 1] == ls[..3];
  }

  /**
   * Four rows classified none, growth, income, growth are
   * stacked second row at 0, fourth at 37, third at 74 and first at 111, and only the
   * first row turns white.
   */
  lemma SortExample(st: seq<RowState>, growth: seq<string>, income: seq<string>)
    requires |st| == 4
    requires Lanes(st, growth, income) == [UngroupedLane, GrowthLane, IncomeLane, GrowthLane]
    ensures var r := SortStates(st, growth, income);
      && r[1].top == Some(0) && r[3].top == Some(37) && r[2].top == Some(74) && r[0].top == Some(111)
      && r[0].background == UngroupedColor && r[1].background == st[1].background
      && r[2].background == st[2].background && r[3].background == st[3].background
  {
    var ls := Lanes(st, growth, income);
    ExampleIndices(ls);
    assert Rank(ls, 0) == 3 && Rank(ls, 1) == 0 && Rank(ls, 2) == 2 && Rank(ls, 3) == 1;
  }

  /**
   * Rows showing MSFT, AAPL, T and TSLA, with growth {AAPL, TSLA} and income {T, VZ}:
   * AAPL is stacked at 0, TSLA at 37, T at 74 and MSFT, the one ungrouped row, at 111
   * and in white.
   */
  lemma {:induction false} SortTickerExample(st: seq<RowState>, growth: seq<string>, income: seq<string>)
    requires |st| == 4
    requires st[0].cell == Some("MSFT") && st[1].cell == Some("AAPL")
    requires st[2].cell == Some("T") && st[3].cell == Some("TSLA")
    requires growth == ["AAPL", "TSLA"] && income == ["T", "VZ"]
    ensures var r := SortStates(st, growth, income);
      && r[1].top == Some(0) && r[3].top == Some(37) && r[2].top == Some(74) && r[0].top == Some(111)
      && r[0].background == UngroupedColor && r[1].background == st[1].background
      && r[2].background == st[2].background && r[3].background == st[3].background
  {
    ExampleTickers(growth, income);
    ExampleLanes(st, growth, income, "MSFT", "AAPL", "T", "TSLA");
    SortExample(st, growth, income);
  }

  /** Rows showing an ungrouped, a growth, an income and a growth ticker fall into those lanes. */
  lemma {:induction false} ExampleLanes(st: seq<RowState>, growth: seq<string>, income: seq<string>,
                                        w0: string, w1: string, w2: string, w3: string)
    requires |st| == 4
    requires st[0].cell == Some(w0) && st[1].cell == Some(w1) && st[2].cell == Some(w2) && st[3].cell == Some(w3)
    requires PlainTicker(w0) && PlainTicker(w1) && PlainTicker(w2) && PlainTicker(w3)
    requires w0 !in growth && w0 !in income && w1 in growth && w2 !in growth && w2 in income && w3 in growth
    ensures Lanes(st, growth, income) == [UngroupedLane, GrowthLane, IncomeLane, GrowthLane]
  {
    LaneOfTicker(w0, growth, income);
    LaneOfTicker(w1, growth, income);
    LaneOfTicker(w2, growth, income);
    LaneOfTicker(w3, growth, income);
    ExampleLaneSeq(Lanes(st, growth, income));
  }

  lemma {:induction false} ExampleLaneSeq(ls: seq<Lane>)
    requires |ls| == 4
    requires ls[0] == UngroupedLane && ls[1] == GrowthLane && ls[2] == IncomeLane && ls[3] == GrowthLane
    ensures ls == [UngroupedLane, GrowthLane, IncomeLane, GrowthLane]
  {
  }

  lemma {:induction false} ExampleTickers(growth: seq<string>, income: seq<string>)
    requires growth == ["AAPL", "TSLA"] && income == ["T", "VZ"]
    ensures PlainTicker("MSFT") && PlainTicker("AAPL") && PlainTicker("T") && PlainTicker("TSLA")
    ensures "MSFT" !in growth && "MSFT" !in income && "T" !in growth
    ensures "AAPL" in growth && "TSLA" in growth && "T" in income
  {
    assert "MSFT"[0] != "AAPL"[0] && "MSFT"[0] != "TSLA"[0] && "MSFT"[0] != "T"[0] && "MSFT"[0] != "VZ"[0];
    assert |"T"| != |"AAPL"| && |"T"| != |"TSLA"|;
  }

  lemma LaneWithNoGroups(cell: Option<string>)
    ensures LaneOf(cell, [], []) == Unplaced || LaneOf(cell, [], []) == UngroupedLane
  {
  }

  /** A lane no row is in has an empty list. */
  lemma {:induction false} IndicesOfAbsent(ls: seq<Lane>, l: Lane)
    requires forall k :: 0 <= k < |ls| ==> ls[k] != l
    ensures Indices(ls, l) == []
  {
    if ls != [] {
      IndicesOfAbsent(ls[..|ls| - 1], l);
    }
  }

  /**
   * With both sets empty every placed row (one with a symbol) is ungrouped: the rows keep their table
   * order, each is stacked after the symbol rows before it, and all of them turn white.
   */
  lemma SortWithNoGroups(st: seq<RowState>)
    ensures var ls, r := Lanes(st, [], []), SortStates(st, [], []);
      forall k :: 0 <= k < |st| && ls[k] != Unplaced ==>
        && ls[k] == UngroupedLane
        && r[k].top == Some(|Indices(ls[..k], UngroupedLane)| * RowHeight)
        && r[k].transform == NeutralTransform
        && r[k].background == UngroupedColor
  {
    var ls, r := Lanes(st, [], []), SortStates(st, [], []);
    forall k | 0 <= k < |ls| ensures ls[k] == Unplaced || ls[k] == UngroupedLane {
      LaneWithNoGroups(st[k].cell);
    }
    IndicesOfAbsent(ls, GrowthLane);
    IndicesOfAbsent(ls, IncomeLane);
    assert Base(ls, UngroupedLane) == 0;
    forall k | 0 <= k < |st| && ls[k] != Unplaced
      ensures r[k] == Positioned(st[k], |Indices(ls[..k], UngroupedLane)|, UngroupedLane)
    {
      assert ls[k] == UngroupedLane;
    }
  }

  // ---------------------------------------------------------------------------
  // Row-height heuristics

  /** The height used when the rows do not show a usable spacing. */
  const DefaultRowHeight := 40
  /** How many leading rows the height estimate looks at. */
  const SampledRows := 5

  /** `parseInt(row.style.top) || 0`: the pixel offset, or 0 when unset. */
  function TopOf(r: RowState): (t: int)
    ensures r.top.None? ==> t == 0
    ensures r.top.Some? ==> t == r.top.value
  {
    r.top.GetOr(0)
  }

  function Tops(st: seq<RowState>): (ts: seq<int>)
    ensures |ts| == |st| && forall k :: 0 <= k < |st| ==> ts[k] == TopOf(st[k])
  {
    seq(|st|, k requires 0 <= k < |st| => TopOf(st[k]))
  }

  /** The offsets of the first `min(n, 5)` rows. */
  function Sample(ts: seq<int>): (r: seq<int>)
    ensures |r| == (if |ts| < SampledRows then |ts| else SampledRows)
    ensures r == ts[..|r|]
  {
    ts[..if |ts| < SampledRows then |ts| else SampledRows]
  }

  /** The strictly positive offsets, in order. */
  function PositiveTops(ts: seq<int>): (p: seq<int>)
    ensures forall x :: x in p ==> x > 0
    ensures multiset(p) <= multiset(ts)
  {
    if ts == [] then []
    else
      var init := ts[..|ts| - 1];
      assert ts == init + [ts[|ts| - 1]];
      PositiveTops(init) + (if ts[|ts| - 1] > 0 then [ts[|ts| - 1]] else [])
  }

  /** Looking at one more offset keeps it when it is positive. */
  lemma PositiveTopsSnoc(ts: seq<int>, i: nat)
    requires i < |ts|
    ensures PositiveTops(ts[..i + 1]) == PositiveTops(ts[..i]) + (if ts[i] > 0 then [ts[i]] else [])
  {
    assert ts[..i + 1][..i] == ts[..i];
  }

  /** Every positive offset is kept exactly as often as it occurs. */
  lemma {:induction false} PositiveTopsCounts(ts: seq<int>, x: int)
    requires x > 0
    ensures multiset(PositiveTops(ts))[x] == multiset(ts)[x]
  {
    if ts != [] {
      var init, last := ts[..|ts| - 1], ts[|ts| - 1];
      assert ts == init + [last];
      PositiveTopsCounts(init, x);
      assert multiset(ts) == multiset(init) + multiset{last};
      var tail := if last > 0 then [last] else [];
      assert PositiveTops(ts) == PositiveTops(init) + tail;
      assert multiset(PositiveTops(ts)) == multiset(PositiveTops(init)) + multiset(tail);
    }
  }

  predicate Ascending(xs: seq<int>) {
    forall i, j :: 0 <= i < j < |xs| ==> xs[i] <= xs[j]
  }

  /** A smallest element followed by an ascending sequence is ascending. */
  lemma AscendingCons(h: int, t: seq<int>)
    requires Ascending(t) && forall k :: 0 <= k < |t| ==> h <= t[k]
    ensures Ascending([h] + t)
  {
    var s := [h] + t;
    forall i, j | 0 <= i < j < |s| ensures s[i] <= s[j] {
      assert s[j] == t[j - 1];
      if i > 0 {
        assert s[i] == t[i - 1];
      }
    }
  }

  function InsertAscending(x: int, xs: seq<int>): (r: seq<int>)
    requires Ascending(xs)
    ensures Ascending(r) && multiset(r) == multiset(xs) + multiset{x}
  {
    if xs == [] || x <= xs[0] then
      AscendingCons(x, xs);
      [x] + xs
    else
      var tail := xs[1..];
      assert xs == [xs[0]] + tail;
      assert Ascending(tail) by {
        forall i, j | 0 <= i < j < |tail| ensures tail[i] <= tail[j] {
          assert tail[i] == xs[i + 1] && tail[j] == xs[j + 1];
        }
      }
      var rest := InsertAscending(x, tail);
      forall k | 0 <= k < |rest| ensures xs[0] <= rest[k] {
        assert rest[k] in multiset(rest);
        if rest[k] != x {
          assert rest[k] in multiset(tail);
          var m :| 0 <= m < |tail| && tail[m] == rest[k];
          assert tail[m] == xs[m + 1];
        }
      }
      AscendingCons(xs[0], rest);
      [xs[0]] + rest
  }

  /** `tops.sort((a, b) => a - b)`: the numbers in ascending order. */
  function SortAscending(xs: seq<int>): (r: seq<int>)
    ensures Ascending(r) && multiset(r) == multiset(xs)
  {
    if xs == [] then []
    else
      assert xs == [xs[0]] + xs[1..];
      InsertAscending(xs[0], SortAscending(xs[1..]))
  }

  /**
   * `calculateRowHeight`: the gap between the two smallest positive offsets among the
   * first five rows, or 40 when there are fewer than two rows, fewer than two positive
   * offsets, or no gap.
   */
  function EstimatedRowHeight(tops: seq<int>): (h: int)
    ensures h > 0
  {
    if |tops| < 2 then DefaultRowHeight else SmallestGap(PositiveTops(Sample(tops)))
  }

  /** The gap between the two smallest positive offsets, or 40 when there is none. */
  function SmallestGap(p: seq<int>): (h: int)
    ensures h > 0
  {
    if |p| < 2 then DefaultRowHeight
    else
      var sorted := SortAscending(p);
      if sorted[1] - sorted[0] > 0 then sorted[1] - sorted[0] else DefaultRowHeight
  }

  lemma AscendingHeadIsLeast(s: seq<int>, x: int)
    requires Ascending(s) && x in multiset(s)
    ensures s[0] <= x
  {
    assert x in s;
  }

  /** A multiset holding `a` and, besides it, `b` comes from at least two elements. */
  lemma TwoElements(p: seq<int>, a: int, b: int)
    requires a in multiset(p) && b in multiset(p) - multiset{a}
    ensures |p| >= 2
  {
    assert multiset(p) == (multiset(p) - multiset{a}) + multiset{a};
    assert |multiset(p)| >= 2;
  }

  /** An ascending sequence starts with its smallest and its next smallest element. */
  lemma AscendingSmallestTwo(s: seq<int>, a: int, b: int)
    requires Ascending(s) && |s| >= 2
    requires a in multiset(s) && forall x :: x in multiset(s) ==> a <= x
    requires b in multiset(s) - multiset{a} && forall x :: x in multiset(s) - multiset{a} ==> b <= x
    ensures s[0] == a && s[1] == b
  {
    assert s[0] in multiset(s) by { assert s[0] in s; }
    AscendingHeadIsLeast(s, a);
    var tail := s[1..];
    assert s == [s[0]] + tail;
    assert multiset(tail) == multiset(s) - multiset{a};
    assert Ascending(tail) by {
      forall i, j | 0 <= i < j < |tail| ensures tail[i] <= tail[j] {
        assert tail[i] == s[i + 1] && tail[j] == s[j + 1];
      }
    }
    assert tail[0] in multiset(tail) by { assert tail[0] in tail; }
    AscendingHeadIsLeast(tail, b);
  }

  /** The first two elements of the sorted offsets are the smallest and the next smallest. */
  lemma SortedSmallestTwo(p: seq<int>, a: int, b: int)
    requires |p| >= 2
    requires a in multiset(p) && forall x :: x in multiset(p) ==> a <= x
    requires b in multiset(p) - multiset{a} && forall x :: x in multiset(p) - multiset{a} ==> b <= x
    ensures SortAscending(p)[0] == a && SortAscending(p)[1] == b
  {
    var s := SortAscending(p);
    assert multiset(s) == multiset(p);
    assert |s| == |p| by { assert |multiset(s)| == |multiset(p)|; }
    AscendingSmallestTwo(s, a, b);
  }

  /** The smallest gap of some offsets is the difference of their two smallest values. */
  lemma SmallestGapOfSmallestTwo(p: seq<int>, a: int, b: int)
    requires a in multiset(p) && (forall x :: x in multiset(p) ==> a <= x)
    requires b in multiset(p) - multiset{a} && (forall x :: x in multiset(p) - multiset{a} ==> b <= x)
    ensures SmallestGap(p) == if b - a > 0 then b - a else DefaultRowHeight
  {
    TwoElements(p, a, b);
    SortedSmallestTwo(p, a, b);
  }

  /**
   * The estimate depends on the offsets only through their two smallest positive values
   * among the first five rows: it is their difference when that is positive, else 40.
   */
  lemma EstimateIsSmallestGap(tops: seq<int>, a: int, b: int)
    requires |tops| >= 2
    requires var m := multiset(PositiveTops(Sample(tops)));
      && a in m && (forall x :: x in m ==> a <= x)
      && b in m - multiset{a} && (forall x :: x in m - multiset{a} ==> b <= x)
    ensures EstimatedRowHeight(tops) == if b - a > 0 then b - a else DefaultRowHeight
  {
    SmallestGapOfSmallestTwo(PositiveTops(Sample(tops)), a, b);
  }
}
