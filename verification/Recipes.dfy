/** Recipes and the amounts of an item that a list of recipe lines mentions (internal/dao/recipes.go). */
module Recipes {

  /** The name of an item. */
  datatype Uid = Uid(name: string)

  datatype Option<+T> = None | Some(value: T)

  /** `slot` is the slot of the machine that the line asks for, if any. */
  datatype RecipeItem = RecipeItem(uid: Uid, amount: int, slot: Option<int>)

  datatype Recipe = Recipe(
    id: int,
    maxRepeats: Option<int>,
    results: seq<RecipeItem>,
    ingredients: seq<RecipeItem>,
    catalysts: seq<RecipeItem>)

  /** A Go map read: a missing key counts as zero. */
  function Get<K(==)>(m: map<K, int>, u: K): int {
    if u in m then m[u] else 0
  }

  predicate Mentions(items: seq<RecipeItem>, u: Uid) {
    exists i :: 0 <= i < |items| && items[i].uid == u
  }

  /** The summed amount of `u` over all lines of the list. */
  function AmountOf(items: seq<RecipeItem>, u: Uid): int {
    if items == [] then 0
    else
      var last := items[|items| - 1];
      AmountOf(items[..|items| - 1], u) + if last.uid == u then last.amount else 0
  }

  /** The largest amount of `u` on any line of the list, and 0 without such a line. */
  function MaxAmountOf(items: seq<RecipeItem>, u: Uid): (m: int)
    ensures m >= 0
  {
    if items == [] then 0
    else
      var last := items[|items| - 1];
      var m := MaxAmountOf(items[..|items| - 1], u);
      if last.uid == u && last.amount > m then last.amount else m
  }

  predicate PositiveAmounts(items: seq<RecipeItem>) {
    forall i :: 0 <= i < |items| ==> items[i].amount > 0
  }

  predicate WellFormed(r: Recipe) {
    && r.results != []
    && PositiveAmounts(r.results) && PositiveAmounts(r.ingredients) && PositiveAmounts(r.catalysts)
  }

  predicate Crafts(r: Recipe, u: Uid) {
    r.results != [] && r.results[0].uid == u
  }

  predicate IsInput(r: Recipe, u: Uid) {
    Mentions(r.ingredients, u) || Mentions(r.catalysts, u)
  }

  lemma AmountOfStep(items: seq<RecipeItem>, i: nat, u: Uid)
    requires i < |items|
    ensures AmountOf(items[..i + 1], u) == AmountOf(items[..i], u) + if items[i].uid == u then items[i].amount else 0
  {
    assert items[..i + 1][..i] == items[..i];
  }

  lemma MaxAmountOfStep(items: seq<RecipeItem>, i: nat, u: Uid)
    requires i < |items|
    ensures MaxAmountOf(items[..i + 1], u)
         == if items[i].uid == u && items[i].amount > MaxAmountOf(items[..i], u) then items[i].amount
            else MaxAmountOf(items[..i], u)
  {
    assert items[..i + 1][..i] == items[..i];
  }

  lemma MentionsStep(items: seq<RecipeItem>, i: nat, u: Uid)
    requires i < |items|
    ensures Mentions(items[..i + 1], u) <==> Mentions(items[..i], u) || items[i].uid == u
  {
    var next := items[..i + 1];
    assert next[i] == items[i] && forall k :: 0 <= k < i ==> next[k] == items[..i][k];
  }

  /** With positive amounts an item is mentioned exactly when its sum, and its maximum, is positive. */
  lemma {:induction false} PositiveWhenMentioned(items: seq<RecipeItem>, u: Uid)
    requires PositiveAmounts(items)
    ensures AmountOf(items, u) >= MaxAmountOf(items, u) >= 0
    ensures Mentions(items, u) <==> AmountOf(items, u) > 0
    ensures Mentions(items, u) <==> MaxAmountOf(items, u) > 0
  {
    if items != [] {
      var n := |items| - 1;
      PositiveWhenMentioned(items[..n], u);
      MentionsStep(items, n, u);
      assert items[..n + 1] == items;
    }
  }

  predicate DistinctUids(items: seq<RecipeItem>) {
    forall i, j :: 0 <= i < j < |items| ==> items[i].uid != items[j].uid
  }

  /** The sum and the maximum agree on every item exactly when no item is listed twice. */
  lemma {:induction false} SumIsMaxWhenDistinct(items: seq<RecipeItem>, u: Uid)
    requires PositiveAmounts(items) && DistinctUids(items)
    ensures AmountOf(items, u) == MaxAmountOf(items, u)
  {
    if items != [] {
      var n := |items| - 1;
      SumIsMaxWhenDistinct(items[..n], u);
      PositiveWhenMentioned(items[..n], u);
    }
  }

  lemma {:induction false} SumExceedsMaxWhenRepeated(items: seq<RecipeItem>)
    requires PositiveAmounts(items) && !DistinctUids(items)
    ensures exists u :: AmountOf(items, u) > MaxAmountOf(items, u)
  {
    var n := |items| - 1;
    if !DistinctUids(items[..n]) {
      SumExceedsMaxWhenRepeated(items[..n]);
      var u :| AmountOf(items[..n], u) > MaxAmountOf(items[..n], u);
      PositiveWhenMentioned(items[..n], u);
      assert AmountOf(items, u) > MaxAmountOf(items, u);
    } else {
      var u := items[n].uid;
      var i, j :| 0 <= i < j < |items| && items[i].uid == items[j].uid;
      assert forall a, b :: 0 <= a < b < n ==> items[..n][a].uid != items[..n][b].uid;
      assert forall k :: 0 <= k < n ==> items[..n][k] == items[k];
      assert Mentions(items[..n], u) by { assert items[..n][i].uid == u; }
      PositiveWhenMentioned(items[..n], u);
      assert AmountOf(items, u) > MaxAmountOf(items, u);
    }
  }
}
