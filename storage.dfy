/**
 * The browser's `localStorage` as the helper uses it: four keys holding JSON text, read
 * once at start-up and rewritten on every change. A stored value is modelled by the
 * shape of the JSON it holds, since that shape is all the helper's reading depends on.
 */
module Storage {
  import opened Wrappers
  import opened Text
  import opened OrderedSets

  const GrowthKey := "etradeHelper_growthSymbols"
  const IncomeKey := "etradeHelper_incomeSymbols"
  const SortingKey := "etradeHelper_sortingEnabled"
  const ColoringKey := "etradeHelper_coloringEnabled"

  /**
   * A stored value: the empty string, a JSON array of strings, a JSON boolean, or text
   * `JSON.parse` rejects.
   */
  datatype Stored = Blank | StringList(items: seq<string>) | Boolean(value: bool) | Unparsable

  /** The value stored under `key`, or `None` (`null`) when the key is missing. */
  function Lookup(entries: map<string, Stored>, key: string): Option<Stored> {
    if key in entries then Some(entries[key]) else None
  }

  /** The four keys are different strings, so writing one never changes another. */
  lemma KeysDistinct()
    ensures GrowthKey != IncomeKey && GrowthKey != SortingKey && GrowthKey != ColoringKey
    ensures IncomeKey != SortingKey && IncomeKey != ColoringKey && SortingKey != ColoringKey
  {
    assert GrowthKey[13] != IncomeKey[13];
    assert |GrowthKey| != |SortingKey| && |GrowthKey| != |ColoringKey|;
    assert |IncomeKey| != |SortingKey| && |IncomeKey| != |ColoringKey| && |SortingKey| != |ColoringKey|;
  }

  /** The key-value store; a missing key reads as `null`. */
  class Store {
    var entries: map<string, Stored>

    constructor(initial: map<string, Stored>)
      ensures entries == initial
    {
      entries := initial;
    }

    /** `localStorage.getItem(key)`. */
    function GetItem(key: string): (v: Option<Stored>)
      reads this
      ensures v.Some? <==> key in entries
      ensures v.Some? ==> v.value == entries[key]
    {
      Lookup(entries, key)
    }

    /** `localStorage.setItem(key, value)`. */
    method SetItem(key: string, value: Stored)
      modifies this
      ensures entries == old(entries)[key := value]
    {
      entries := entries[key := value];
    }
  }

  /** A stored value is truthy unless the key is missing or holds the empty string. */
  predicate Present(v: Option<Stored>) {
    v.Some? && v.value != Blank
  }

  /** `s => s.toUpperCase()` over a list. */
  function UpperAll(xs: seq<string>): (r: seq<string>)
    ensures |r| == |xs| && forall k :: 0 <= k < |xs| ==> r[k] == Upper(xs[k])
  {
    seq(|xs|, k requires 0 <= k < |xs| => Upper(xs[k]))
  }

  /** A symbol set as the helper keeps it: no repeats, all capitals. */
  predicate SymbolSet(xs: seq<string>) {
    Distinct(xs) && forall s :: s in xs ==> IsUpper(s)
  }

  /**
   * Reading a symbol key: a falsy value gives the defaults; a list gives the set of its
   * upper-cased entries; anything else makes `.map` throw (`None`).
   */
  function ReadSymbols(v: Option<Stored>, defaults: seq<string>): (r: Option<seq<string>>)
    ensures r.None? <==> v.Some? && (v.value.Boolean? || v.value.Unparsable?)
    ensures !Present(v) ==> r == Some(defaults)
    ensures SymbolSet(defaults) && r.Some? ==> SymbolSet(r.value)
    ensures v.Some? && v.value.StringList? ==>
              && SymbolSet(r.value)
              && forall s :: s in r.value <==> exists k :: 0 <= k < |v.value.items| && s == Upper(v.value.items[k])
  {
    match v
    case None => Some(defaults)
    case Some(Blank) => Some(defaults)
    case Some(StringList(items)) =>
      var upper := UpperAll(items);
      forall s | s in upper ensures IsUpper(s) {
        var k :| 0 <= k < |upper| && upper[k] == s;
        UpperIsUpper(items[k]);
      }
      Some(FromList(upper))
    case Some(_) => None
  }

  /**
   * Reading a flag key, which is only parsed when present: a boolean is taken as it is,
   * a list counts as true, and the empty string or malformed text makes `JSON.parse`
   * throw (`None`).
   */
  function ReadFlag(v: Option<Stored>, current: bool): (r: Option<bool>)
    ensures r.None? <==> v.Some? && (v.value.Blank? || v.value.Unparsable?)
    ensures v.None? ==> r == Some(current)
    ensures v.Some? && v.value.Boolean? ==> r == Some(v.value.value)
    ensures v.Some? && v.value.StringList? ==> r == Some(true)
  {
    match v
    case None => Some(current)
    case Some(Boolean(b)) => Some(b)
    case Some(StringList(_)) => Some(true)
    case Some(_) => None
  }

  /** Reading back a set the helper saved gives that set, order included. */
  lemma ReadWrittenSymbols(xs: seq<string>, defaults: seq<string>)
    requires SymbolSet(xs)
    ensures ReadSymbols(Some(StringList(xs)), defaults) == Some(xs)
  {
    var upper := UpperAll(xs);
    forall k | 0 <= k < |xs| ensures upper[k] == xs[k] {
      assert xs[k] in xs;
      UpperOfUpper(xs[k]);
    }
    assert upper == xs;
  }
}
