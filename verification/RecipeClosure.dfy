/**
  The layer-by-layer closure of the goals over the recipe table, and its sorting
  (internal/services/crafter/planner.go).
 */
module RecipeClosure {
  import opened Recipes
  import opened TopologicalSort

  datatype ExpandState = ExpandState(items: seq<Uid>, recipes: map<Uid, Recipe>)

  /** The recipe has a result line for one of the uids, which is what the query selects on. */
  predicate Selected(r: Recipe, uids: set<Uid>) {
    exists i :: 0 <= i < |r.results| && r.results[i].uid in uids
  }

  /** The query by result: the selected recipes, each once, in table order. */
  function RecipesByResults(table: seq<Recipe>, uids: set<Uid>): (rs: seq<Recipe>)
    ensures forall r :: r in rs <==> r in table && Selected(r, uids)
  {
    if table == [] then []
    else
      var init := RecipesByResults(table[..|table| - 1], uids);
      var last := table[|table| - 1];
      if Selected(last, uids) then init + [last] else init
  }

  /** `s` holds the goals and every input of every recipe that makes one of its members. */
  ghost predicate ClosedOver(table: seq<Recipe>, goals: seq<Uid>, s: set<Uid>) {
    && (forall g :: g in goals ==> g in s)
    && (forall r, u :: r in table && Selected(r, s) && IsInput(r, u) ==> u in s)
  }

  function Inputs(r: Recipe): (s: set<Uid>)
    ensures forall u :: u in s <==> IsInput(r, u)
  {
    Uids(r.ingredients) + Uids(r.catalysts)
  }

  ghost function Universe(table: seq<Recipe>, goals: seq<Uid>): set<Uid> {
    (set g | g in goals) + (set r, u | r in table && u in Inputs(r) :: u)
  }

  ghost predicate InEveryClosed(table: seq<Recipe>, goals: seq<Uid>, u: Uid) {
    forall s :: ClosedOver(table, goals, s) ==> u in s
  }

  /** The items a plan for the goals can touch: the least set closed over the recipes. */
  ghost function Closure(table: seq<Recipe>, goals: seq<Uid>): set<Uid> {
    set u | u in Universe(table, goals) && InEveryClosed(table, goals, u)
  }

  lemma ClosureIsLeast(table: seq<Recipe>, goals: seq<Uid>, items: set<Uid>)
    requires ClosedOver(table, goals, items)
    requires forall u :: u in items ==> InEveryClosed(table, goals, u)
    ensures items == Closure(table, goals)
  {
    assert ClosedOver(table, goals, Universe(table, goals)) by {
      forall r, u | r in table && IsInput(r, u) ensures u in Universe(table, goals) {
        assert u in Inputs(r);
      }
    }
  }

  /** The dependency map records, under the first result of each loaded recipe, all its inputs. */
  ghost predicate RecordsInputs(table: seq<Recipe>, items: set<Uid>, deps: map<Uid, seq<Uid>>) {
    forall x, d {:trigger d in Deps(deps, x)} {:trigger HasInputVia(table, items, x, d)} :: d in Deps(deps, x) <==>
      HasInputVia(table, items, x, d)
  }

  ghost predicate HasInputVia(table: seq<Recipe>, items: set<Uid>, x: Uid, d: Uid) {
    exists r :: r in table && Selected(r, items) && Crafts(r, x) && IsInput(r, d)
  }

  ghost predicate HasRecipe(table: seq<Recipe>, items: set<Uid>, x: Uid) {
    exists r :: r in table && Selected(r, items) && Crafts(r, x)
  }

  /** The recipe map picks, for each first result of a loaded recipe, one such recipe. */
  ghost predicate ChoosesRecipes(table: seq<Recipe>, items: set<Uid>, choice: map<Uid, Recipe>) {
    && (forall x :: x in choice <==> HasRecipe(table, items, x))
    && (forall x :: x in choice ==> choice[x] in table && Selected(choice[x], items) && Crafts(choice[x], x))
  }

  /** A chain of recipes, each consuming an input crafted by the next, that returns to its start. */
  ghost predicate IsRecipeCycle(table: seq<Recipe>, items: set<Uid>, p: seq<Uid>) {
    && |p| >= 2 && p[0] == p[|p| - 1] && p[0] in items
    && forall i :: 0 <= i < |p| - 1 ==> HasInputVia(table, items, p[i], p[i + 1])
  }

  ghost predicate HasRecipeCycle(table: seq<Recipe>, items: set<Uid>) {
    exists p :: IsRecipeCycle(table, items, p)
  }

  /** No recipe consumes an item listed before its own first result. */
  ghost predicate InputsLater(table: seq<Recipe>, order: seq<Uid>) {
    forall r, i, j ::
      (r in table && 0 <= i < |order| && 0 <= j < |order| && Crafts(r, order[i]) && IsInput(r, order[j])) ==> i < j
  }

  lemma {:induction false} RecordStep(table: seq<Recipe>, i: nat)
    requires i < |table|
    ensures forall r :: r in table[..i + 1] <==> r in table[..i] || r == table[i]
  {
    assert table[..i + 1] == table[..i] + [table[i]];
  }

  function AddDep(deps: map<Uid, seq<Uid>>, x: Uid, d: Uid): (deps': map<Uid, seq<Uid>>)
    ensures forall y, e :: e in Deps(deps', y) <==> e in Deps(deps, y) || (y == x && e == d)
  {
    var deps' := deps[x := Deps(deps, x) + [d]];
    assert forall y :: Deps(deps', y) == if y == x then Deps(deps, x) + [d] else Deps(deps, y);
    deps'
  }

  ghost predicate AddsDeps(deps: map<Uid, seq<Uid>>, deps': map<Uid, seq<Uid>>, result: Uid, items: seq<RecipeItem>) {
    forall x, d {:trigger d in Deps(deps', x)} :: d in Deps(deps', x) <==>
      d in Deps(deps, x) || (x == result && Mentions(items, d))
  }

  lemma AddsDepsStep(deps: map<Uid, seq<Uid>>, deps': map<Uid, seq<Uid>>, result: Uid, items: seq<RecipeItem>, i: nat)
    requires i < |items| && AddsDeps(deps, deps', result, items[..i])
    ensures AddsDeps(deps, AddDep(deps', result, items[i].uid), result, items[..i + 1])
  {
    var next := AddDep(deps', result, items[i].uid);
    forall x, d
      ensures d in Deps(next, x) <==> d in Deps(deps, x) || (x == result && Mentions(items[..i + 1], d))
    {
      MentionsStep(items, i, d);
      assert d in Deps(deps', x) <==> d in Deps(deps, x) || (x == result && Mentions(items[..i], d));
    }
  }

  function Uids(items: seq<RecipeItem>): set<Uid> {
    set i | 0 <= i < |items| :: items[i].uid
  }

  /** One of the two loops over the inputs of a recipe. */
  method RecordList(items: seq<RecipeItem>, result: Uid, deps: map<Uid, seq<Uid>>, nextItems: set<Uid>)
    returns (deps': map<Uid, seq<Uid>>, nextItems': set<Uid>)
    ensures nextItems' == nextItems + Uids(items)
    ensures AddsDeps(deps, deps', result, items)
  {
    deps', nextItems' := deps, nextItems;
    for i := 0 to |items|
      invariant nextItems' == nextItems + Uids(items[..i])
      invariant AddsDeps(deps, deps', result, items[..i])
    {
      AddsDepsStep(deps, deps', result, items, i);
      nextItems' := nextItems' + {items[i].uid};
      deps' := AddDep(deps', result, items[i].uid);
      assert items[..i + 1] == items[..i] + [items[i]];
    }
    assert items[..|items|] == items;
  }

  /** Appends the inputs of one loaded recipe to the entry of its first result. */
  method RecordInputs(r: Recipe, deps: map<Uid, seq<Uid>>, nextItems: set<Uid>)
    returns (deps': map<Uid, seq<Uid>>, nextItems': set<Uid>)
    requires r.results != []
    ensures nextItems' == nextItems + Inputs(r)
    ensures forall x, d {:trigger d in Deps(deps', x)} :: d in Deps(deps', x) <==>
      d in Deps(deps, x) || (Crafts(r, x) && IsInput(r, d))
  {
    var result := r.results[0].uid;
    var mid, items := RecordList(r.ingredients, result, deps, nextItems);
    deps', nextItems' := RecordList(r.catalysts, result, mid, items);
    forall x, d ensures d in Deps(deps', x) <==> d in Deps(deps, x) || (Crafts(r, x) && IsInput(r, d)) {
      assert d in Deps(mid, x) <==> d in Deps(deps, x) || (x == result && Mentions(r.ingredients, d));
      assert d in Deps(deps', x) <==> d in Deps(mid, x) || (x == result && Mentions(r.catalysts, d));
    }
  }

  /** The newly loaded recipes are exactly those a grown item set adds. */
  lemma SelectedByUnion(table: seq<Recipe>, a: set<Uid>, b: set<Uid>)
    ensures forall r :: Selected(r, a + b) <==> Selected(r, a) || Selected(r, b)
  {
  }

  /** What the layer loop keeps; `items` are the expanded items and `layer` those still to expand. */
  ghost predicate LayerInv(table: seq<Recipe>, goals: seq<Uid>, items: set<Uid>, layer: set<Uid>,
                           deps: map<Uid, seq<Uid>>, choice: map<Uid, Recipe>) {
    && (forall g :: g in goals ==> g in items + layer)
    && (forall u :: u in items + layer ==> u in Universe(table, goals) && InEveryClosed(table, goals, u))
    && (forall r, u :: r in table && Selected(r, items) && IsInput(r, u) ==> u in items + layer)
    && RecordsInputs(table, items, deps)
    && ChoosesRecipes(table, items, choice)
  }

  /** The loop over the recipes loaded for one layer. */
  method LoadRecipes(recipes: seq<Recipe>, deps: map<Uid, seq<Uid>>, choice: map<Uid, Recipe>)
    returns (deps': map<Uid, seq<Uid>>, choice': map<Uid, Recipe>, nextItems: set<Uid>)
    requires forall r :: r in recipes ==> r.results != []
    ensures forall u :: u in nextItems <==> exists r :: r in recipes && IsInput(r, u)
    ensures forall x, d {:trigger d in Deps(deps', x)} :: d in Deps(deps', x) <==>
      d in Deps(deps, x) || exists r :: r in recipes && Crafts(r, x) && IsInput(r, d)
    ensures forall x :: x in choice' <==> x in choice || exists r :: r in recipes && Crafts(r, x)
    ensures forall x :: x in choice' ==>
      (x in choice && choice'[x] == choice[x]) || (choice'[x] in recipes && Crafts(choice'[x], x))
  {
    deps', choice', nextItems := deps, choice, {};
    for i := 0 to |recipes|
      invariant forall u :: u in nextItems <==> exists r :: r in recipes[..i] && IsInput(r, u)
      invariant forall x, d {:trigger d in Deps(deps', x)} :: d in Deps(deps', x) <==>
        d in Deps(deps, x) || exists r :: r in recipes[..i] && Crafts(r, x) && IsInput(r, d)
      invariant forall x :: x in choice' <==> x in choice || exists r :: r in recipes[..i] && Crafts(r, x)
      invariant forall x :: x in choice' ==>
        (x in choice && choice'[x] == choice[x]) || (choice'[x] in recipes[..i] && Crafts(choice'[x], x))
    {
      RecordStep(recipes, i);
      var r := recipes[i];
      choice' := choice'[r.results[0].uid := r];
      deps', nextItems := RecordInputs(r, deps', nextItems);
    }
    assert recipes[..|recipes|] == recipes;
  }

  lemma LayerStep(table: seq<Recipe>, goals: seq<Uid>, items: set<Uid>, layer: set<Uid>,
                  deps: map<Uid, seq<Uid>>, choice: map<Uid, Recipe>,
                  recipes: seq<Recipe>, next: set<Uid>, deps': map<Uid, seq<Uid>>, choice': map<Uid, Recipe>)
    requires LayerInv(table, goals, items, layer, deps, choice)
    requires recipes == RecipesByResults(table, layer - items)
    requires forall u :: u in next <==> exists r :: r in recipes && IsInput(r, u)
    requires forall x, d {:trigger d in Deps(deps', x)} :: d in Deps(deps', x) <==>
      d in Deps(deps, x) || exists r :: r in recipes && Crafts(r, x) && IsInput(r, d)
    requires forall x :: x in choice' <==> x in choice || exists r :: r in recipes && Crafts(r, x)
    requires forall x :: x in choice' ==>
      (x in choice && choice'[x] == choice[x]) || (choice'[x] in recipes && Crafts(choice'[x], x))
    ensures LayerInv(table, goals, items + layer, next, deps', choice')
  {
    var added := layer - items;
    assert items + layer == items + added;
    SelectedByUnion(table, items, added);
    forall u | u in next ensures u in Universe(table, goals) && InEveryClosed(table, goals, u) {
      var r :| r in recipes && IsInput(r, u);
      assert u in Inputs(r);
      forall s | ClosedOver(table, goals, s) ensures u in s {
        assert Selected(r, s);
      }
    }
    forall x, d ensures d in Deps(deps', x) <==> HasInputVia(table, items + layer, x, d) {
      assert d in Deps(deps, x) <==> HasInputVia(table, items, x, d);
    }
    forall x ensures x in choice' <==> HasRecipe(table, items + layer, x) {
      assert x in choice <==> HasRecipe(table, items, x);
    }
  }

  method Keys(s: set<Uid>) returns (r: seq<Uid>)
    ensures Distinct(r) && forall x :: x in r <==> x in s
  {
    var rest := s;
    r := [];
    while rest != {}
      invariant Distinct(r) && rest <= s
      invariant forall x :: x in r <==> x in s - rest
    {
      var x :| x in rest;
      assert x !in r;
      rest := rest - {x};
      r := r + [x];
    }
  }

  /** A cycle of the recorded dependencies is a cycle of recipes over the closed item set. */
  lemma CyclesAgree(table: seq<Recipe>, items: set<Uid>, uids: seq<Uid>, deps: map<Uid, seq<Uid>>)
    requires RecordsInputs(table, items, deps)
    requires forall x :: x in uids <==> x in items
    requires forall x, d {:trigger d in Deps(deps, x)} :: d in Deps(deps, x) ==> d in items
    ensures HasReachableCycle(uids, deps) <==> HasRecipeCycle(table, items)
  {
    if HasReachableCycle(uids, deps) {
      var p :| IsReachableCycle(uids, deps, p);
      assert IsClosed(deps, items);
      ReachableInClosed(uids, deps, items, p[0]);
      forall i | 0 <= i < |p| - 1 ensures HasInputVia(table, items, p[i], p[i + 1]) {
        assert p[i + 1] in Deps(deps, p[i]);
      }
      assert IsRecipeCycle(table, items, p);
    }
    if HasRecipeCycle(table, items) {
      var p :| IsRecipeCycle(table, items, p);
      forall i | 0 <= i < |p| - 1 ensures p[i + 1] in Deps(deps, p[i]) {
        assert HasInputVia(table, items, p[i], p[i + 1]);
      }
      RootReachable(uids, deps, p[0]);
      assert IsReachableCycle(uids, deps, p);
    }
  }

  /** What a successful expansion hands to the planner. */
  ghost predicate Expands(table: seq<Recipe>, goals: seq<Uid>, e: ExpandState) {
    && Distinct(e.items)
    && (forall u :: u in e.items <==> u in Closure(table, goals))
    && ChoosesRecipes(table, Closure(table, goals), e.recipes)
    && InputsLater(table, e.items)
  }

  lemma SortedMembers(items: set<Uid>, uids: seq<Uid>, deps: map<Uid, seq<Uid>>, order: seq<Uid>)
    requires forall x :: x in uids <==> x in items
    requires IsClosed(deps, items) && IsTopologicalOrder(uids, deps, order)
    ensures forall u :: u in order <==> u in items
  {
    hide IsClosed, ConsumersFirst, Distinct;
    forall u | u in order ensures u in items {
      ReachableInClosed(uids, deps, items, u);
    }
    forall u | u in items ensures u in order {
      RootReachable(uids, deps, u);
    }
  }

  lemma SortedInputsLater(table: seq<Recipe>, items: set<Uid>, deps: map<Uid, seq<Uid>>, order: seq<Uid>)
    requires RecordsInputs(table, items, deps) && ConsumersFirst(deps, order)
    requires forall u :: u in order <==> u in items
    ensures InputsLater(table, order)
  {
    forall r, i, j | r in table && 0 <= i < |order| && 0 <= j < |order| && Crafts(r, order[i]) && IsInput(r, order[j])
      ensures i < j
    {
      assert order[i] in items;
      assert Selected(r, items);
      assert HasInputVia(table, items, order[i], order[j]);
      assert order[j] in Deps(deps, order[i]);
    }
  }

  /** The layer loop: every item a plan can touch, with the recorded inputs and chosen recipes. */
  method ExpandLayers(table: seq<Recipe>, goals: seq<Uid>)
    returns (items: set<Uid>, deps: map<Uid, seq<Uid>>, choice: map<Uid, Recipe>)
    requires forall r :: r in table ==> r.results != []
    ensures items == Closure(table, goals)
    ensures ClosedOver(table, goals, items)
    ensures RecordsInputs(table, items, deps) && ChoosesRecipes(table, items, choice)
  {
    hide LayerInv, RecordsInputs, ChoosesRecipes, ClosedOver, Closure, Universe;
    deps, items, choice := map[], {}, map[];
    var layer := set g | g in goals;
    LayerInit(table, goals);
    while layer != {}
      invariant LayerInv(table, goals, items, layer, deps, choice)
      decreases Universe(table, goals) - items, layer
    {
      var recipes := RecipesByResults(table, layer - items);
      ghost var items0, layer0, deps0, choice0 := items, layer, deps, choice;
      var next;
      deps, choice, next := LoadRecipes(recipes, deps, choice);
      LayerStep(table, goals, items0, layer0, deps0, choice0, recipes, next, deps, choice);
      LayerProgress(table, goals, items, layer, deps0, choice0, recipes, next);
      items := items + layer;
      layer := next;
    }
    LayerExit(table, goals, items, deps, choice);
  }

  lemma LayerInit(table: seq<Recipe>, goals: seq<Uid>)
    ensures LayerInv(table, goals, {}, set g | g in goals, map[], map[])
  {
  }

  lemma LayerExit(table: seq<Recipe>, goals: seq<Uid>, items: set<Uid>,
                  deps: map<Uid, seq<Uid>>, choice: map<Uid, Recipe>)
    requires LayerInv(table, goals, items, {}, deps, choice)
    ensures ClosedOver(table, goals, items) && items == Closure(table, goals)
    ensures RecordsInputs(table, items, deps) && ChoosesRecipes(table, items, choice)
  {
    assert items + {} == items;
    ClosureIsLeast(table, goals, items);
  }

  /** A layer either adds an item of the finite universe or is the last one. */
  lemma LayerProgress(table: seq<Recipe>, goals: seq<Uid>, items: set<Uid>, layer: set<Uid>,
                      deps: map<Uid, seq<Uid>>, choice: map<Uid, Recipe>, recipes: seq<Recipe>, next: set<Uid>)
    requires LayerInv(table, goals, items, layer, deps, choice) && layer != {}
    requires recipes == RecipesByResults(table, layer - items)
    requires forall u :: u in next <==> exists r :: r in recipes && IsInput(r, u)
    ensures Universe(table, goals) - (items + layer) < Universe(table, goals) - items
         || (items + layer == items && next == {})
  {
    if layer <= items {
      assert layer - items == {};
      assert forall r :: r !in recipes;
    } else {
      var x :| x in layer && x !in items;
      assert x in items + layer;
      assert x in Universe(table, goals) - items;
    }
  }

  lemma ClosureEmpty(table: seq<Recipe>, goals: seq<Uid>, uids: seq<Uid>)
    requires ClosedOver(table, goals, Closure(table, goals))
    requires forall x :: x in uids <==> x in Closure(table, goals)
    ensures uids == [] <==> goals == []
  {
    assert goals != [] ==> goals[0] in uids;
    assert goals == [] ==> ClosedOver(table, goals, {});
    assert uids != [] ==> uids[0] in uids && InEveryClosed(table, goals, uids[0]);
  }

  lemma DependenciesInItems(table: seq<Recipe>, goals: seq<Uid>, items: set<Uid>, deps: map<Uid, seq<Uid>>)
    requires ClosedOver(table, goals, items) && RecordsInputs(table, items, deps)
    ensures IsClosed(deps, items)
    ensures forall x, d {:trigger d in Deps(deps, x)} :: d in Deps(deps, x) ==> d in items
  {
    forall x, d | d in Deps(deps, x) ensures d in items {
      assert HasInputVia(table, items, x, d);
    }
  }

  /**
    The expansion fails exactly when there is no goal or the needed recipes form a cycle.
    Otherwise the items are the least closed set, in an order that puts every input after
    the item it is used for, and each craftable item has one chosen recipe.
   */
  method ExpandRecipes(table: seq<Recipe>, goals: seq<Uid>) returns (e: Option<ExpandState>)
    requires forall r :: r in table ==> r.results != []
    ensures e.None? <==> goals == [] || HasRecipeCycle(table, Closure(table, goals))
    ensures e.Some? ==> Expands(table, goals, e.value)
  {
    hide ClosedOver, RecordsInputs, ChoosesRecipes, InputsLater, Closure, HasReachableCycle, HasRecipeCycle, IsClosed;
    var items, deps, choice := ExpandLayers(table, goals);
    var uids := Keys(items);
    DependenciesInItems(table, goals, items, deps);
    CyclesAgree(table, items, uids, deps);
    ClosureEmpty(table, goals, uids);
    var ordered := Sort(uids, deps);
    if ordered == [] {
      return None;
    }
    e := Some(ExpandState(ordered, choice));
    SortedMembers(items, uids, deps, ordered);
    SortedInputsLater(table, items, deps, ordered);
  }
}
