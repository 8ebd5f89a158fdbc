/**
 * The calendar variant over the bundled dataset: the `inSeason` list of
 * `RegionCalendar` and a dish drawn when the mouse enters a card.
 */
module FullRelishSeasonalNew {
  import opened Options
  import opened RegionCalendar
  import opened RandomPick

  /** The hover overlay; `dish` is `undefined` when the item has no dishes. */
  datatype Hover = Hover(name: string, dish: Option<string>)

  /**
   * `{ name: item.name, dish: item.dishes[Math.floor(r * item.dishes.length)] }`.
   * An absent `dishes` throws, so it is excluded; an empty one reads index 0,
   * which is `undefined`.
   */
  function HoverPick(item: CalendarItem, r: real): (h: Hover)
    requires 0.0 <= r < 1.0
    requires item.dishes.Some?
    ensures h.name == item.name
    ensures |item.dishes.value| > 0 ==> h.dish.Some? && h.dish.value in item.dishes.value
    ensures |item.dishes.value| == 0 ==> h.dish == None
  {
    Hover(item.name, Pick(item.dishes.value, r))
  }
}
