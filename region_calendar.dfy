/**
 * The dataset shape shared by the two calendar variants: a flat list of
 * items, each with a per-region season calendar, and the `inSeason` filter
 * both of them apply.
 */
module RegionCalendar {
  import opened Options
  import opened Sequences

  /** One property of `seasonsByRegion`: a region code and its months. */
  datatype RegionSeasons = RegionSeasons(region: string, months: seq<int>)

  /**
   * A calendar item. `seasonsByRegion` keeps the properties of the JSON
   * object in key order; `dishes` may be absent.
   */
  datatype CalendarItem = CalendarItem(
    name: string,
    emoji: string,
    category: string,
    seasonsByRegion: seq<RegionSeasons>,
    dishes: Option<seq<string>>)

  /** `Object.keys(byRegion)`. */
  function KeyList(byRegion: seq<RegionSeasons>): (ks: seq<string>)
    ensures |ks| == |byRegion|
    ensures forall i :: 0 <= i < |byRegion| ==> ks[i] == byRegion[i].region
  {
    if byRegion == [] then [] else [byRegion[0].region] + KeyList(byRegion[1..])
  }

  /** `byRegion[key]`: the months of the first entry for `key`, or `undefined`. */
  function Lookup(byRegion: seq<RegionSeasons>, key: string): (o: Option<seq<int>>)
    ensures o.Some? <==> key in KeyList(byRegion)
    ensures o.Some? ==> exists i :: 0 <= i < |byRegion| && byRegion[i] == RegionSeasons(key, o.value)
  {
    if byRegion == [] then None
    else if byRegion[0].region == key then Some(byRegion[0].months)
    else Lookup(byRegion[1..], key)
  }

  /**
   * `byRegion[region] || byRegion['US'] || []`. An array is truthy even when
   * empty, so a present region entry is chosen whatever it holds.
   */
  function ChosenSeasons(byRegion: seq<RegionSeasons>, region: string): (s: seq<int>)
    ensures region in KeyList(byRegion) ==>
              exists i :: 0 <= i < |byRegion| && byRegion[i] == RegionSeasons(region, s)
    ensures region !in KeyList(byRegion) && "US" in KeyList(byRegion) ==>
              exists i :: 0 <= i < |byRegion| && byRegion[i] == RegionSeasons("US", s)
    ensures region !in KeyList(byRegion) && "US" !in KeyList(byRegion) ==> s == []
  {
    match Lookup(byRegion, region)
    case Some(months) => months
    case None =>
      match Lookup(byRegion, "US")
      case Some(months) => months
      case None => []
  }

  /** The item is in season for that region and month. */
  predicate InSeasonAt(region: string, month: int, item: CalendarItem): (b: bool)
    ensures Lookup(item.seasonsByRegion, region) == Some([]) ==> !b
    ensures region !in KeyList(item.seasonsByRegion) && "US" !in KeyList(item.seasonsByRegion) ==> !b
  {
    month in ChosenSeasons(item.seasonsByRegion, region)
  }

  /** `produce.filter(item => (…region… || …US… || []).includes(month))`. */
  function InSeason(produce: seq<CalendarItem>, region: string, month: int): (r: seq<CalendarItem>)
    ensures IsSubseq(r, produce)
    ensures forall item :: item in r <==> item in produce && month in ChosenSeasons(item.seasonsByRegion, region)
    ensures forall item :: multiset(r)[item] ==
              if month in ChosenSeasons(item.seasonsByRegion, region) then multiset(produce)[item] else 0
  {
    Filter(item => InSeasonAt(region, month, item), produce)
  }

  /**
   * A region entry that is present but empty hides the `US` entry: the item
   * is never in season for that region, whatever `US` says.
   */
  lemma EmptyRegionEntryShadowsUS(produce: seq<CalendarItem>, region: string, month: int, item: CalendarItem)
    requires Lookup(item.seasonsByRegion, region) == Some([])
    ensures item !in InSeason(produce, region, month)
  {
  }

  /** An item with neither a region entry nor a `US` entry is never shown. */
  lemma UncoveredItemNeverInSeason(produce: seq<CalendarItem>, region: string, month: int, item: CalendarItem)
    requires region !in KeyList(item.seasonsByRegion) && "US" !in KeyList(item.seasonsByRegion)
    ensures item !in InSeason(produce, region, month)
  {
  }
}
