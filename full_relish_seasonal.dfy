/**
 * The calendar variant over a `produce` list passed in: the `inSeason` list
 * of `RegionCalendar`, a dish suggestion guarded against missing dishes, and
 * the list of regions offered in the selector.
 */
module FullRelishSeasonal {
  import opened Options
  import opened RegionCalendar
  import opened RandomPick

  /** `item.dishes?.length > 0`: the card shows a "Dish idea" button. */
  predicate OffersDishIdea(item: CalendarItem)
  {
    item.dishes.Some? && |item.dishes.value| > 0
  }

  /**
   * `handleDish`: returns early, suggesting nothing, when `dishes` is absent or
   * empty; otherwise suggests `dishes[Math.floor(r * dishes.length)]`.
   */
  function HandleDish(item: CalendarItem, r: real): (o: Option<string>)
    requires 0.0 <= r < 1.0
    ensures o.Some? <==> OffersDishIdea(item)
    ensures o.Some? ==> o.value in item.dishes.value
    ensures o.Some? ==> o.value == item.dishes.value[PickIndex(r, |item.dishes.value|)]
  {
    if item.dishes.None? || |item.dishes.value| == 0 then None
    else Pick(item.dishes.value, r)
  }

  // ---------------------------------------------------------------------
  // regions

  /** Every item's `Object.keys(seasonsByRegion)`, item after item. */
  function AllKeys(produce: seq<CalendarItem>): (ks: seq<string>)
    ensures forall k :: k in ks <==>
              exists i :: 0 <= i < |produce| && k in KeyList(produce[i].seasonsByRegion)
  {
    if produce == [] then []
    else
      var init := produce[..|produce| - 1];
      assert forall i :: 0 <= i < |init| ==> init[i] == produce[i];
      AllKeys(init) + KeyList(produce[|produce| - 1].seasonsByRegion)
  }

  /**
   * The keys of a JavaScript object after `set[k] = true` for each `k` of `s`
   * in turn: a new key is appended, an existing one keeps its place.
   */
  function Dedup(s: seq<string>): (d: seq<string>)
    ensures forall x :: x in d <==> x in s
    ensures Distinct(d)
  {
    if s == [] then []
    else
      assert s == s[..|s| - 1] + [s[|s| - 1]];
      var d := Dedup(s[..|s| - 1]);
      if s[|s| - 1] in d then d else d + [s[|s| - 1]]
  }

  predicate Distinct(d: seq<string>)
  {
    forall i, j :: 0 <= i < j < |d| ==> d[i] != d[j]
  }

  /** The elements of `d` appear in the order of their first occurrence in `s`. */
  predicate FirstSeenOrder(d: seq<string>, s: seq<string>)
  {
    forall i, j, k :: 0 <= i < j < |d| && 0 <= k < |s| && s[k] == d[j] ==> d[i] in s[..k]
  }

  lemma {:induction false} DedupFirstSeenOrder(s: seq<string>)
    ensures FirstSeenOrder(Dedup(s), s)
  {
    if s != [] {
      var init, x := s[..|s| - 1], s[|s| - 1];
      var d := Dedup(init);
      DedupFirstSeenOrder(init);
      assert s == init + [x];
      var d' := Dedup(s);
      forall i, j, k | 0 <= i < j < |d'| && 0 <= k < |s| && s[k] == d'[j]
        ensures d'[i] in s[..k]
      {
        if k < |init| {
          assert s[..k] == init[..k];
          // j < |d| here: the key appended last does not occur in init
          if j < |d| {
            assert init[k] == d[j];
          }
        } else {
          assert s[..k] == init;
          assert d'[i] in d;
        }
      }
    }
  }

  /** Marking one more key: appended when new, no change when already there. */
  lemma DedupSnoc(s: seq<string>, x: string)
    ensures Dedup(s + [x]) == if x in Dedup(s) then Dedup(s) else Dedup(s) + [x]
  {
    assert (s + [x])[..|s|] == s;
  }

  lemma ExtendPrefix(a: seq<string>, b: seq<string>, j: nat)
    requires j < |b|
    ensures a + b[..j + 1] == (a + b[..j]) + [b[j]]
  {
    assert b[..j + 1] == b[..j] + [b[j]];
  }

  /** Scanning one more item appends its keys. */
  lemma AllKeysSnoc(produce: seq<CalendarItem>, i: nat)
    requires i < |produce|
    ensures AllKeys(produce[..i + 1]) == AllKeys(produce[..i]) + KeyList(produce[i].seasonsByRegion)
  {
    assert produce[..i + 1][..i] == produce[..i];
  }

  /** `regions`: nested loops set `set[key] = true`, then `Object.keys(set)`. */
  method Regions(produce: seq<CalendarItem>) returns (keys: seq<string>)
    ensures keys == Dedup(AllKeys(produce))
    ensures Distinct(keys)
    ensures forall k :: k in keys <==>
              exists i :: 0 <= i < |produce| && k in KeyList(produce[i].seasonsByRegion)
    ensures FirstSeenOrder(keys, AllKeys(produce))
  {
    keys := [];
    var i := 0;
    while i < |produce|
      invariant 0 <= i <= |produce|
      invariant keys == Dedup(AllKeys(produce[..i]))
    {
      var ks := KeyList(produce[i].seasonsByRegion);
      ghost var done := AllKeys(produce[..i]);
      var j := 0;
      assert done + ks[..j] == done;
      while j < |ks|
        invariant 0 <= j <= |ks|
        invariant keys == Dedup(done + ks[..j])
      {
        DedupSnoc(done + ks[..j], ks[j]);
        ExtendPrefix(done, ks, j);
        if ks[j] !in keys {
          keys := keys + [ks[j]];
        }
        j := j + 1;
      }
      AllKeysSnoc(produce, i);
      assert ks[..j] == ks;
      i := i + 1;
    }
    assert produce[..i] == produce;
    DedupFirstSeenOrder(AllKeys(produce));
  }
}
