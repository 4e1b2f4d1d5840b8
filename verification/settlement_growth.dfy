// The filter state of the settlement growth page
// (nairobi-dashboard/src/pages/SettlementGrowth.jsx): checkbox lists, the
// density slider and the one-key replacement every control goes through.

module SettlementGrowth {
  import opened Common

  /** `populationDensity: [lo, hi]`. */
  datatype DensityRange = DensityRange(lo: int, hi: int)

  datatype Filters = Filters(
    landUseType: seq<string>,
    populationDensity: DensityRange,
    infrastructure: seq<string>,
    excludeProtected: bool)

  /** The filters the page starts with. */
  function InitialFilters(): (f: Filters)
    ensures f.landUseType == ["residential"] && f.infrastructure == ["roads", "schools"]
    ensures f.populationDensity == DensityRange(0, 3000) && f.excludeProtected
  {
    Filters(["residential"], DensityRange(0, 3000), ["roads", "schools"], true)
  }

  /** The key a control changes, with its new value. */
  datatype FilterChange =
    | LandUseType(types: seq<string>)
    | PopulationDensity(range: DensityRange)
    | Infrastructure(items: seq<string>)
    | ExcludeProtected(exclude: bool)

  /** `{...prev, [filterType]: value}`: the one key replaced, the others kept. */
  function HandleFilterChange(prev: Filters, change: FilterChange): (f: Filters)
    ensures f.landUseType == if change.LandUseType? then change.types else prev.landUseType
    ensures f.populationDensity == if change.PopulationDensity? then change.range else prev.populationDensity
    ensures f.infrastructure == if change.Infrastructure? then change.items else prev.infrastructure
    ensures f.excludeProtected == if change.ExcludeProtected? then change.exclude else prev.excludeProtected
  {
    match change
    case LandUseType(types) => prev.(landUseType := types)
    case PopulationDensity(range) => prev.(populationDensity := range)
    case Infrastructure(items) => prev.(infrastructure := items)
    case ExcludeProtected(exclude) => prev.(excludeProtected := exclude)
  }

  /** A checkbox list after its box for `item` changes to `checked`. */
  function Toggle(list: seq<string>, item: string, checked: bool): (r: seq<string>)
    ensures checked ==> r == list + [item]
    ensures !checked ==> item !in r && IsSubsequence(r, list)
    ensures !checked ==> forall x :: x != item ==> (x in r <==> x in list)
  {
    if checked then list + [item]
    else
      var others := (t: string) => t != item;
      FilterIsSubsequence(list, others);
      Filter(list, others)
  }

  /** Filtering that removes nothing returns the list itself. */
  lemma {:induction false} FilterKeepsAll<T>(s: seq<T>, keep: T -> bool)
    requires forall i :: 0 <= i < |s| ==> keep(s[i])
    ensures Filter(s, keep) == s
  {
    if s != [] {
      FilterKeepsAll(s[1..], keep);
    }
  }

  /** Checking a box that was not checked and unchecking it again restores the list. */
  lemma ToggleRoundTrip(list: seq<string>, item: string)
    requires item !in list
    ensures Toggle(Toggle(list, item, true), item, false) == list
  {
    var others := (t: string) => t != item;
    FilterAppend(list, [item], others);
    FilterKeepsAll(list, others);
    assert Filter([item], others) == [];
  }

  /** The land-use checkbox for `landUse`. */
  function OnLandUseChange(filters: Filters, landUse: string, checked: bool): (f: Filters)
    ensures f == filters.(landUseType := Toggle(filters.landUseType, landUse, checked))
  {
    HandleFilterChange(filters, LandUseType(Toggle(filters.landUseType, landUse, checked)))
  }

  /** The infrastructure checkbox for `infra`. */
  function OnInfrastructureChange(filters: Filters, infra: string, checked: bool): (f: Filters)
    ensures f == filters.(infrastructure := Toggle(filters.infrastructure, infra, checked))
  {
    HandleFilterChange(filters, Infrastructure(Toggle(filters.infrastructure, infra, checked)))
  }

  /** The density slider: the upper bound follows the slider, the lower bound stays. */
  function OnDensitySlider(filters: Filters, value: int): (f: Filters)
    ensures f.populationDensity.lo == filters.populationDensity.lo
    ensures f.populationDensity.hi == value
    ensures f.landUseType == filters.landUseType && f.infrastructure == filters.infrastructure
    ensures f.excludeProtected == filters.excludeProtected
  {
    HandleFilterChange(filters, PopulationDensity(DensityRange(filters.populationDensity.lo, value)))
  }
}
