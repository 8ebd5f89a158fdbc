/**
 * The detailed variant: a region-keyed dataset of fruit and vegetable
 * lists, capped per category, filtered by category and by a search term,
 * with a hover overlay and a recipe detail view.
 */
module FullRelishApp {
  import opened Options
  import opened Sequences
  import opened Text
  import opened RandomPick

  /** A dish: a bare title, or a record whose properties may each be absent. */
  datatype Dish =
    | Named(name: string)
    | Recipe(title: Option<string>, ingredients: Option<seq<string>>, instructions: Option<string>)

  /** A produce entry; `seasons` absent means "always in season". */
  datatype Item = Item(name: string, image: string, seasons: Option<seq<int>>, dishes: Option<seq<Dish>>)

  /** One region's entry of the dataset; either list may be absent. */
  datatype RegionData = RegionData(fruits: Option<seq<Item>>, vegetables: Option<seq<Item>>)

  type Dataset = map<string, RegionData>

  datatype Category = Fruit | Vegetable

  /** `{ ...item, category }`, the item as it appears in the produce list. */
  datatype Tagged = Tagged(item: Item, category: Category)

  /** The three filter buttons: `All`, `Fruit`, `Vegetable`. */
  datatype CategoryFilter = All | Only(category: Category)

  /** The record the detail view shows. */
  datatype Detail = Detail(produce: string, title: string, ingredients: seq<string>, instructions: string)

  /** The hover overlay: the hovered item's name and the dish drawn for it. */
  datatype Hover = Hover(name: string, dish: Dish)

  /** Each category shows at most this many items. */
  const Cap: nat := 5

  // ---------------------------------------------------------------------
  // produceList

  /** `produceData[region] || {}`. */
  function RegionOf(data: Dataset, region: string): (sd: RegionData)
    ensures region in data ==> sd == data[region]
    ensures region !in data ==> Bucket(sd, Fruit) == [] && Bucket(sd, Vegetable) == []
  {
    if region in data then data[region] else RegionData(None, None)
  }

  /** `stateData.fruits || []` and `stateData.vegetables || []`. */
  function Bucket(sd: RegionData, c: Category): seq<Item>
  {
    match c
    case Fruit => sd.fruits.GetOr([])
    case Vegetable => sd.vegetables.GetOr([])
  }

  /** `!item.seasons || item.seasons.includes(month)`. */
  predicate InSeasonFor(month: int, item: Item): (b: bool)
    ensures item.seasons.None? ==> b
    ensures item.seasons == Some([]) ==> !b
  {
    item.seasons.None? || month in item.seasons.value
  }

  function InSeasonPred(month: int): Item -> bool
  {
    (item: Item) => InSeasonFor(month, item)
  }

  /** The in-season items of a bucket, in bucket order. */
  function InSeasonItems(items: seq<Item>, month: int): (r: seq<Item>)
    ensures IsSubseq(r, items)
    ensures forall x :: x in r <==> x in items && InSeasonFor(month, x)
    ensures forall x :: multiset(r)[x] == if InSeasonFor(month, x) then multiset(items)[x] else 0
  {
    Filter(InSeasonPred(month), items)
  }

  /** `.map(x => ({ ...x, category: c }))`. */
  function TagAll(items: seq<Item>, c: Category): (r: seq<Tagged>)
    ensures |r| == |items|
    ensures forall i :: 0 <= i < |items| ==> r[i] == Tagged(items[i], c)
  {
    if items == [] then [] else [Tagged(items[0], c)] + TagAll(items[1..], c)
  }

  /** One category's part of the list: filter by season, keep the first `Cap`, tag. */
  function Group(sd: RegionData, month: int, c: Category): (r: seq<Tagged>)
    ensures |r| <= Cap
    ensures forall t :: t in r ==> t.category == c && InSeasonFor(month, t.item)
  {
    TagAll(Take(InSeasonItems(Bucket(sd, c), month), Cap), c)
  }

  /** `produceList`: the capped in-season fruits followed by the capped in-season vegetables. */
  function ProduceList(data: Dataset, region: string, month: int): (r: seq<Tagged>)
    ensures region !in data ==> r == []
    ensures |r| <= 2 * Cap
    ensures forall t :: t in r ==> InSeasonFor(month, t.item)
  {
    var sd := RegionOf(data, region);
    Group(sd, month, Fruit) + Group(sd, month, Vegetable)
  }

  function IsCategory(c: Category): Tagged -> bool
  {
    (t: Tagged) => t.category == c
  }

  /** The entries of a list that carry category `c`. */
  function OfCategory(list: seq<Tagged>, c: Category): (r: seq<Tagged>)
    ensures IsSubseq(r, list)
    ensures forall t :: t in r <==> t in list && t.category == c
  {
    Filter(IsCategory(c), list)
  }

  lemma {:induction false} GroupOfCategory(sd: RegionData, month: int, c: Category, d: Category)
    ensures OfCategory(Group(sd, month, c), d) == if c == d then Group(sd, month, c) else []
  {
    var g := Group(sd, month, c);
    if c == d {
      FilterKeepsAll(IsCategory(d), g);
    } else {
      FilterDropsAll(IsCategory(d), g);
    }
  }

  /** Selecting category `c` from the list recovers the group of `c`. */
  lemma OfCategoryIsGroup(data: Dataset, region: string, month: int, c: Category)
    ensures OfCategory(ProduceList(data, region, month), c) == Group(RegionOf(data, region), month, c)
  {
    var sd := RegionOf(data, region);
    var gf, gv := Group(sd, month, Fruit), Group(sd, month, Vegetable);
    assert ProduceList(data, region, month) == gf + gv;
    FilterConcat(IsCategory(c), gf, gv);
    GroupOfCategory(sd, month, Fruit, c);
    GroupOfCategory(sd, month, Vegetable, c);
  }

  /**
   * The part of the list with category `c` is exactly the first `min(Cap, n)`
   * of the `n` in-season items of the `c` bucket, in bucket order, tagged `c`.
   */
  lemma CategoryIsFirstInSeason(data: Dataset, region: string, month: int, c: Category)
    ensures var fs := InSeasonItems(Bucket(RegionOf(data, region), c), month);
            OfCategory(ProduceList(data, region, month), c) == TagAll(fs[..Min(Cap, |fs|)], c)
    ensures |OfCategory(ProduceList(data, region, month), c)| <= Cap
  {
    var fs := InSeasonItems(Bucket(RegionOf(data, region), c), month);
    OfCategoryIsGroup(data, region, month, c);
    assert Take(fs, Cap) == fs[..Min(Cap, |fs|)];
  }

  /** What a group holds: entries tagged `c`, drawn from the `c` bucket. */
  lemma GroupMember(sd: RegionData, month: int, c: Category, t: Tagged)
    requires t in Group(sd, month, c)
    ensures t.category == c && t.item in Bucket(sd, c)
  {
    var fs := InSeasonItems(Bucket(sd, c), month);
    var i :| 0 <= i < |Take(fs, Cap)| && t == Tagged(Take(fs, Cap)[i], c);
    assert Take(fs, Cap)[i] in fs;
  }

  /** The list is its fruits followed by its vegetables. */
  lemma FruitsThenVegetables(data: Dataset, region: string, month: int)
    ensures var r := ProduceList(data, region, month);
            r == OfCategory(r, Fruit) + OfCategory(r, Vegetable)
  {
    var sd := RegionOf(data, region);
    var gf, gv := Group(sd, month, Fruit), Group(sd, month, Vegetable);
    var r := ProduceList(data, region, month);
    assert r == gf + gv;
    assert OfCategory(r, Fruit) == gf by {
      FilterConcat(IsCategory(Fruit), gf, gv);
      GroupOfCategory(sd, month, Fruit, Fruit);
      GroupOfCategory(sd, month, Vegetable, Fruit);
    }
    assert OfCategory(r, Vegetable) == gv by {
      FilterConcat(IsCategory(Vegetable), gf, gv);
      GroupOfCategory(sd, month, Fruit, Vegetable);
      GroupOfCategory(sd, month, Vegetable, Vegetable);
    }
  }

  /** No fruit follows a vegetable. */
  lemma NoFruitAfterVegetable(data: Dataset, region: string, month: int)
    ensures var r := ProduceList(data, region, month);
            forall i, j :: 0 <= i < j < |r| && r[i].category == Vegetable ==> r[j].category == Vegetable
  {
    var sd := RegionOf(data, region);
    var gf, gv := Group(sd, month, Fruit), Group(sd, month, Vegetable);
    var r := ProduceList(data, region, month);
    forall i | 0 <= i < |r|
      ensures r[i].category == if i < |gf| then Fruit else Vegetable
    {
      if i < |gf| {
        assert r[i] == gf[i];
        GroupMember(sd, month, Fruit, gf[i]);
      } else {
        assert r[i] == gv[i - |gf|];
        GroupMember(sd, month, Vegetable, gv[i - |gf|]);
      }
    }
  }

  /** Every entry tagged `c` comes from that region's `c` bucket. */
  lemma TagsFollowSource(data: Dataset, region: string, month: int)
    ensures forall t :: t in ProduceList(data, region, month) ==>
              t.item in Bucket(RegionOf(data, region), t.category)
  {
    var sd := RegionOf(data, region);
    forall t | t in ProduceList(data, region, month)
      ensures t.item in Bucket(sd, t.category)
    {
      if t in Group(sd, month, Fruit) {
        GroupMember(sd, month, Fruit, t);
      } else {
        GroupMember(sd, month, Vegetable, t);
      }
    }
  }

  /** An in-season item among the first `Cap` of its bucket is always shown. */
  lemma InSeasonAmongFirstShown(data: Dataset, region: string, month: int, c: Category, k: nat)
    requires k < Cap && k < |Bucket(RegionOf(data, region), c)|
    requires InSeasonFor(month, Bucket(RegionOf(data, region), c)[k])
    ensures Tagged(Bucket(RegionOf(data, region), c)[k], c) in ProduceList(data, region, month)
  {
    var sd := RegionOf(data, region);
    var items := Bucket(sd, c);
    var x := items[k];
    var n := Min(Cap, |items|);
    var fs := InSeasonItems(items, month);
    var pre := Filter(InSeasonPred(month), items[..n]);
    FilterOfPrefix(InSeasonPred(month), items, n);
    assert items[..n][k] == x;
    assert x in pre;
    assert pre <= fs[..Min(Cap, |fs|)];
    assert x in Take(fs, Cap);
    var i :| 0 <= i < |Take(fs, Cap)| && Take(fs, Cap)[i] == x;
    assert Tagged(x, c) in Group(sd, month, c);
  }

  /** An item without `seasons` among the first `Cap` of its bucket is shown in every month. */
  lemma UnseasonedShownEveryMonth(data: Dataset, region: string, c: Category, k: nat)
    requires k < Cap && k < |Bucket(RegionOf(data, region), c)|
    requires Bucket(RegionOf(data, region), c)[k].seasons.None?
    ensures forall month :: Tagged(Bucket(RegionOf(data, region), c)[k], c) in ProduceList(data, region, month)
  {
    forall month
      ensures Tagged(Bucket(RegionOf(data, region), c)[k], c) in ProduceList(data, region, month)
    {
      InSeasonAmongFirstShown(data, region, month, c, k);
    }
  }

  // ---------------------------------------------------------------------
  // filtered

  /** `(filter === 'All' || item.category === filter) && name.toLowerCase().includes(term.toLowerCase())`. */
  predicate Matches(f: CategoryFilter, term: string, t: Tagged): (b: bool)
    ensures term == "" ==> (b <==> f.All? || t.category == f.category)
  {
    ContainsEmpty(Lower(t.item.name));
    (f.All? || t.category == f.category) && Contains(Lower(t.item.name), Lower(term))
  }

  function MatchesPred(f: CategoryFilter, term: string): Tagged -> bool
  {
    (t: Tagged) => Matches(f, term, t)
  }

  /** `filtered`: the entries of `list` passing the category and search filters, in list order. */
  function Filtered(list: seq<Tagged>, f: CategoryFilter, term: string): (r: seq<Tagged>)
    ensures IsSubseq(r, list)
    ensures forall t :: t in r <==> t in list && (f.All? || t.category == f.category)
                                              && Contains(Lower(t.item.name), Lower(term))
    ensures forall t :: multiset(r)[t] == if Matches(f, term, t) then multiset(list)[t] else 0
  {
    Filter(MatchesPred(f, term), list)
  }

  /** With filter `All` and an empty search, nothing is removed. */
  lemma {:induction false} FilteredAllEmptyIsIdentity(list: seq<Tagged>)
    ensures Filtered(list, All, "") == list
  {
    forall i | 0 <= i < |list|
      ensures MatchesPred(All, "")(list[i])
    {
      ContainsEmpty(Lower(list[i].item.name));
    }
    FilterKeepsAll(MatchesPred(All, ""), list);
  }

  /** Two search terms that lower-case alike select the same entries; in particular a term and its lower-cased form. */
  lemma SearchIgnoresCase(list: seq<Tagged>, f: CategoryFilter, term1: string, term2: string)
    requires Lower(term1) == Lower(term2)
    ensures Filtered(list, f, term1) == Filtered(list, f, term2)
    ensures Filtered(list, f, Lower(term1)) == Filtered(list, f, term1)
  {
    FilterCongruent(MatchesPred(f, term1), MatchesPred(f, term2), list);
    LowerIdempotent(term1);
    FilterCongruent(MatchesPred(f, Lower(term1)), MatchesPred(f, term1), list);
  }

  /** The search is case-insensitive: `"PEA"` finds the fruit `"Peach"`, unless the `Vegetable` button is chosen. */
  lemma SearchExample()
    ensures Matches(All, "PEA", Tagged(Item("Peach", "", None, None), Fruit))
    ensures Matches(Only(Fruit), "PEA", Tagged(Item("Peach", "", None, None), Fruit))
    ensures !Matches(Only(Vegetable), "PEA", Tagged(Item("Peach", "", None, None), Fruit))
  {
    assert Lower("PEA") == "pea";
    assert Lower("Peach") == "peach";
    assert "pea" <= "peach";
  }

  /** A region missing from the dataset shows nothing, whatever the filters. */
  lemma UnknownRegionShowsNothing(data: Dataset, region: string, month: int, f: CategoryFilter, term: string)
    requires region !in data
    ensures Filtered(ProduceList(data, region, month), f, term) == []
  {
  }

  /**
   * Choosing a category button with an empty search shows exactly that
   * category's part of the list, hence at most `Cap` items.
   */
  lemma CategoryButtonShowsCategory(data: Dataset, region: string, month: int, c: Category)
    ensures Filtered(ProduceList(data, region, month), Only(c), "") == OfCategory(ProduceList(data, region, month), c)
    ensures |Filtered(ProduceList(data, region, month), Only(c), "")| <= Cap
  {
    var r := ProduceList(data, region, month);
    forall i | 0 <= i < |r|
      ensures MatchesPred(Only(c), "")(r[i]) == IsCategory(c)(r[i])
    {
      ContainsEmpty(Lower(r[i].item.name));
    }
    FilterCongruent(MatchesPred(Only(c), ""), IsCategory(c), r);
    CategoryIsFirstInSeason(data, region, month, c);
  }

  // ---------------------------------------------------------------------
  // detail view

  /**
   * Normalises a dish: `title || (string ? dish : '')`, `ingredients || []`,
   * `instructions || ''`. A string dish is its own title; an absent property
   * of a record dish becomes empty, a present one is kept.
   */
  function DetailOf(produce: string, dish: Dish): (d: Detail)
    ensures d.produce == produce
    ensures dish.Named? ==> d.title == dish.name && d.ingredients == [] && d.instructions == ""
    ensures dish.Recipe? ==> d.title == dish.title.GetOr("")
    ensures dish.Recipe? && dish.title.None? ==> d.title == ""
    ensures dish.Recipe? && dish.ingredients.Some? ==> d.ingredients == dish.ingredients.value
    ensures dish.Recipe? && dish.ingredients.None? ==> d.ingredients == []
    ensures dish.Recipe? && dish.instructions.Some? ==> d.instructions == dish.instructions.value
    ensures dish.Recipe? && dish.instructions.None? ==> d.instructions == ""
  {
    match dish
    case Named(name) => Detail(produce, name, [], "")
    case Recipe(title, ingredients, instructions) =>
      Detail(produce, title.GetOr(""), ingredients.GetOr([]), instructions.GetOr(""))
  }

  /** The detail record a click opens: the normalised first dish of the item. */
  function OpenDetail(item: Item): (d: Detail)
    requires item.dishes.Some? && |item.dishes.value| > 0
    ensures d.produce == item.name
    ensures d == DetailOf(item.name, item.dishes.value[0])
    ensures item.dishes.value[0].Named? ==>
              d.title == item.dishes.value[0].name && d.ingredients == [] && d.instructions == ""
    ensures item.dishes.value[0].Recipe? && item.dishes.value[0].title.None? ==> d.title == ""
    ensures item.dishes.value[0].Recipe? && item.dishes.value[0].title.Some? ==>
              d.title == item.dishes.value[0].title.value
    ensures item.dishes.value[0].Recipe? && item.dishes.value[0].ingredients.Some? ==>
              d.ingredients == item.dishes.value[0].ingredients.value
    ensures item.dishes.value[0].Recipe? && item.dishes.value[0].ingredients.None? ==> d.ingredients == []
    ensures item.dishes.value[0].Recipe? && item.dishes.value[0].instructions.Some? ==>
              d.instructions == item.dishes.value[0].instructions.value
    ensures item.dishes.value[0].Recipe? && item.dishes.value[0].instructions.None? ==> d.instructions == ""
  {
    DetailOf(item.name, item.dishes.value[0])
  }

  // ---------------------------------------------------------------------
  // component state

  /** The component's state and its event handlers. */
  class View {
    var region: string
    var filter: CategoryFilter
    var searchTerm: string
    var hovered: Option<Hover>
    var selected: Option<Detail>

    constructor ()
      ensures region == "AZ" && filter == All && searchTerm == ""
      ensures hovered == None && selected == None
    {
      region := "AZ";
      filter := All;
      searchTerm := "";
      hovered := None;
      selected := None;
    }

    /** The grid's contents for the current state. */
    function Visible(data: Dataset, month: int): (r: seq<Tagged>)
      reads this
      ensures |r| <= 2 * Cap
      ensures region !in data ==> r == []
      ensures forall t :: t in r ==> Matches(filter, searchTerm, t) && InSeasonFor(month, t.item)
    {
      Filtered(ProduceList(data, region, month), filter, searchTerm)
    }

    method SelectRegion(r: string)
      modifies this
      ensures region == r
      ensures filter == old(filter) && searchTerm == old(searchTerm)
      ensures hovered == old(hovered) && selected == old(selected)
    {
      region := r;
    }

    method SelectFilter(f: CategoryFilter)
      modifies this
      ensures filter == f
      ensures region == old(region) && searchTerm == old(searchTerm)
      ensures hovered == old(hovered) && selected == old(selected)
    {
      filter := f;
    }

    method EditSearch(term: string)
      modifies this
      ensures searchTerm == term
      ensures region == old(region) && filter == old(filter)
      ensures hovered == old(hovered) && selected == old(selected)
    {
      searchTerm := term;
    }

    /** Mouse enters a card: draw one of its dishes for the overlay. */
    method MouseEnter(item: Item, r: real)
      requires 0.0 <= r < 1.0
      requires item.dishes.Some? && |item.dishes.value| > 0
      modifies this
      ensures hovered.Some? && hovered.value.name == item.name
      ensures hovered.value.dish in item.dishes.value
      ensures hovered.value.dish == item.dishes.value[PickIndex(r, |item.dishes.value|)]
      ensures region == old(region) && filter == old(filter) && searchTerm == old(searchTerm)
      ensures selected == old(selected)
    {
      var idx := PickIndex(r, |item.dishes.value|);
      hovered := Some(Hover(item.name, item.dishes.value[idx]));
    }

    /** Mouse leaves a card: the overlay goes, nothing else changes. */
    method MouseLeave()
      modifies this
      ensures hovered == None
      ensures region == old(region) && filter == old(filter) && searchTerm == old(searchTerm)
      ensures selected == old(selected)
    {
      hovered := None;
    }

    /** A click on a card opens the detail of its first dish. */
    method Click(item: Item)
      requires item.dishes.Some? && |item.dishes.value| > 0
      modifies this
      ensures selected == Some(OpenDetail(item))
      ensures selected.value.produce == item.name
      ensures region == old(region) && filter == old(filter) && searchTerm == old(searchTerm)
      ensures hovered == old(hovered)
    {
      selected := Some(OpenDetail(item));
    }

    /** The close button dismisses the detail, nothing else changes. */
    method Close()
      modifies this
      ensures selected == None
      ensures region == old(region) && filter == old(filter) && searchTerm == old(searchTerm)
      ensures hovered == old(hovered)
    {
      selected := None;
    }
  }
}
