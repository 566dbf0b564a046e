/** Demand propagation over the sorted items (internal/services/crafter/planner.go). */
module Planner {
  import opened Recipes
  import opened TopologicalSort
  import opened RecipeClosure

  datatype Stack = Stack(uid: Uid, count: int)
  datatype Step = Step(recipe: Recipe, repeats: int)
  datatype Related = Related(produced: int, consumed: int, storageAmount: int)
  datatype Plan = Plan(items: seq<Uid>, steps: seq<Step>, related: map<Uid, Related>, goals: seq<Stack>)

  // ---------------------------------------------------------------- rounding up

  /** Go's integer division and remainder, which truncate toward zero. */
  function TruncDiv(x: int, y: int): int
    requires y != 0
  {
    if x >= 0 then x / y else -((-x) / y)
  }

  function TruncRem(x: int, y: int): int
    requires y != 0
  {
    x - y * TruncDiv(x, y)
  }

  function Ceil(x: int, y: int): int
    requires y != 0
  {
    var rem := TruncRem(x, y);
    if rem == 0 then TruncDiv(x, y) else 1 + TruncDiv(x - rem, y)
  }

  /** `n` is the least count of batches of `y` that reaches `x`. */
  ghost predicate IsCeiling(x: int, y: int, n: int) {
    y * n >= x && y * (n - 1) < x
  }

  lemma SmallMultiple(y: int, d: int)
    requires y > 0 && 0 <= y * d < y
    ensures d == 0
  {
    assert d >= 1 ==> y * d >= y;
    assert d <= -1 ==> y * d <= -y;
  }

  lemma MultipleQuotient(y: int, q: int)
    requires y > 0 && q >= 0
    ensures y * q >= 0 && (y * q) / y == q
  {
    var x := y * q;
    var d := q - x / y;
    assert y * d == x - y * (x / y);
    SmallMultiple(y, d);
  }

  /** `Ceil` in terms of the truncated quotient and its remainder. */
  lemma CeilUnfolds(x: int, y: int)
    requires y > 0
    ensures Ceil(x, y) == TruncDiv(x, y) + if TruncRem(x, y) == 0 then 0 else 1
  {
    var q := TruncDiv(x, y);
    if x >= 0 {
      MultipleQuotient(y, q);
    } else {
      MultipleQuotient(y, -q);
      assert y * q == -(y * -q);
    }
  }

  /** The rounding is exact for the non-negative demands the planner feeds it, and one too high
      for a negative number that the batch size does not divide. */
  lemma CeilExactness(x: int, y: int)
    requires y > 0
    ensures IsCeiling(x, y, Ceil(x, y)) <==> x >= 0 || TruncRem(x, y) == 0
  {
    hide Ceil;
    CeilUnfolds(x, y);
    var q, rem := TruncDiv(x, y), TruncRem(x, y);
    assert y * (q + 1) == y * q + y && y * (q - 1) == y * q - y;
    if x < 0 {
      assert y * q == -(y * ((-x) / y));
    }
  }

  // ---------------------------------------------------------------- what a list of steps does to an item

  predicate IsGoal(goals: seq<Stack>, u: Uid) {
    exists i :: 0 <= i < |goals| && goals[i].uid == u
  }

  /** The count asked of `u`; of two goals for one item the loop keeps the last. */
  function GoalOf(goals: seq<Stack>, u: Uid): int {
    if goals == [] then 0
    else if goals[|goals| - 1].uid == u then goals[|goals| - 1].count
    else GoalOf(goals[..|goals| - 1], u)
  }

  /** The stock the plan starts from: goals are planned as if none were stored. */
  function Assumed(goals: seq<Stack>, storage: map<Uid, int>, u: Uid): int {
    if IsGoal(goals, u) then 0 else Get(storage, u)
  }

  function Produced(steps: seq<Step>, u: Uid): int {
    if steps == [] then 0
    else
      var last := steps[|steps| - 1];
      Produced(steps[..|steps| - 1], u) + AmountOf(last.recipe.results, u) * last.repeats
  }

  function Used(steps: seq<Step>, u: Uid): int {
    if steps == [] then 0
    else
      var last := steps[|steps| - 1];
      Used(steps[..|steps| - 1], u) + AmountOf(last.recipe.ingredients, u) * last.repeats
  }

  /** The most of `u` any one line of any step borrows as a catalyst. */
  function Held(steps: seq<Step>, u: Uid): (h: int)
    ensures h >= 0
  {
    if steps == [] then 0
    else Max(Held(steps[..|steps| - 1], u), MaxAmountOf(steps[|steps| - 1].recipe.catalysts, u))
  }

  function Max(a: int, b: int): int {
    if a >= b then a else b
  }

  function Demand(goals: seq<Stack>, steps: seq<Step>, u: Uid): int {
    GoalOf(goals, u) + Used(steps, u) + Held(steps, u)
  }

  function Balance(goals: seq<Stack>, storage: map<Uid, int>, steps: seq<Step>, u: Uid): int {
    Assumed(goals, storage, u) + Produced(steps, u) - Demand(goals, steps, u)
  }

  /** The `Related` entry of `u`, or the one the code would create for it on first use. */
  function RelOf(related: map<Uid, Related>, storage: map<Uid, int>, u: Uid): Related {
    if u in related then related[u] else Related(0, 0, Get(storage, u))
  }

  function Charge(r: Related, n: int): Related {
    r.(consumed := r.consumed + n)
  }

  function Credit(r: Related, n: int): Related {
    r.(produced := r.produced + n)
  }

  lemma StepsGrow(steps: seq<Step>, s: Step, u: Uid)
    ensures Produced(steps + [s], u) == Produced(steps, u) + AmountOf(s.recipe.results, u) * s.repeats
    ensures Used(steps + [s], u) == Used(steps, u) + AmountOf(s.recipe.ingredients, u) * s.repeats
    ensures Held(steps + [s], u) == Max(Held(steps, u), MaxAmountOf(s.recipe.catalysts, u))
  {
    assert (steps + [s])[..|steps|] == steps;
  }

  lemma ScaledStep(items: seq<RecipeItem>, i: nat, u: Uid, repeats: int)
    requires i < |items|
    ensures AmountOf(items[..i + 1], u) * repeats
         == AmountOf(items[..i], u) * repeats + if items[i].uid == u then items[i].amount * repeats else 0
  {
    AmountOfStep(items, i, u);
  }

  // ---------------------------------------------------------------- the loops of GetPlanForItem

  method StoredCounts(items: seq<Uid>, storage: map<Uid, int>) returns (state: map<Uid, int>)
    ensures forall u :: u in items ==> Get(state, u) == Get(storage, u)
  {
    state := map[];
    for i := 0 to |items|
      invariant state == map u | u in items[..i] && u in storage :: storage[u]
    {
      assert items[..i + 1] == items[..i] + [items[i]];
      if items[i] in storage {
        state := state[items[i] := storage[items[i]]];
      }
    }
    assert items[..|items|] == items;
  }

  lemma GoalStep(goals: seq<Stack>, i: nat, u: Uid)
    requires i < |goals|
    ensures IsGoal(goals[..i + 1], u) <==> IsGoal(goals[..i], u) || u == goals[i].uid
    ensures GoalOf(goals[..i + 1], u) == if u == goals[i].uid then goals[i].count else GoalOf(goals[..i], u)
  {
    var next := goals[..i + 1];
    assert next[..i] == goals[..i] && next[i] == goals[i];
    assert forall k :: 0 <= k < i ==> next[k] == goals[..i][k];
  }

  /** Before the main loop: stored counts for the expanded items, then the goals as debts. */
  method StartState(items: seq<Uid>, goals: seq<Stack>, storage: map<Uid, int>)
    returns (state: map<Uid, int>, related: map<Uid, Related>)
    requires forall i :: 0 <= i < |goals| ==> goals[i].uid in items
    ensures forall u :: u in items ==> Get(state, u) == Balance(goals, storage, [], u)
    ensures forall u :: RelOf(related, storage, u) == Related(0, GoalOf(goals, u), Assumed(goals, storage, u))
    ensures forall u :: u in related <==> IsGoal(goals, u)
  {
    hide IsGoal, GoalOf;
    state := StoredCounts(items, storage);
    related := map[];
    NoGoals();
    for i := 0 to |goals|
      invariant forall u :: u in items ==> Get(state, u) == Balance(goals[..i], storage, [], u)
      invariant forall u ::
        RelOf(related, storage, u) == Related(0, GoalOf(goals[..i], u), Assumed(goals[..i], storage, u))
      invariant forall u :: u in related <==> IsGoal(goals[..i], u)
    {
      var goal := goals[i];
      forall u ensures
        && (IsGoal(goals[..i + 1], u) <==> IsGoal(goals[..i], u) || u == goal.uid)
        && GoalOf(goals[..i + 1], u) == if u == goal.uid then goal.count else GoalOf(goals[..i], u)
      {
        GoalStep(goals, i, u);
      }
      state := state[goal.uid := -goal.count];
      related := related[goal.uid := Related(0, goal.count, 0)];
    }
    assert goals[..|goals|] == goals;
  }

  lemma NoGoals()
    ensures forall u :: !IsGoal([], u) && GoalOf([], u) == 0
  {
  }

  method ConsumeIngredients(items: seq<RecipeItem>, repeats: int, storage: map<Uid, int>,
                            state: map<Uid, int>, related: map<Uid, Related>)
    returns (state': map<Uid, int>, related': map<Uid, Related>)
    ensures forall u :: Get(state', u) == Get(state, u) - AmountOf(items, u) * repeats
    ensures forall u :: RelOf(related', storage, u) == Charge(RelOf(related, storage, u), AmountOf(items, u) * repeats)
    ensures related.Keys <= related'.Keys
  {
    state', related' := state, related;
    for i := 0 to |items|
      invariant forall u :: Get(state', u) == Get(state, u) - AmountOf(items[..i], u) * repeats
      invariant forall u ::
        RelOf(related', storage, u) == Charge(RelOf(related, storage, u), AmountOf(items[..i], u) * repeats)
      invariant related.Keys <= related'.Keys
    {
      var uid := items[i].uid;
      forall u ensures AmountOf(items[..i + 1], u) * repeats
        == AmountOf(items[..i], u) * repeats + if uid == u then items[i].amount * repeats else 0
      {
        ScaledStep(items, i, u, repeats);
      }
      var count := items[i].amount * repeats;
      var r := RelOf(related', storage, uid);
      state' := state'[uid := Get(state', uid) - count];
      related' := related'[uid := r.(consumed := r.consumed + count)];
    }
    assert items[..|items|] == items;
  }

  method ProduceResults(items: seq<RecipeItem>, repeats: int, storage: map<Uid, int>,
                        state: map<Uid, int>, related: map<Uid, Related>)
    returns (state': map<Uid, int>, related': map<Uid, Related>)
    ensures forall u :: Get(state', u) == Get(state, u) + AmountOf(items, u) * repeats
    ensures forall u :: RelOf(related', storage, u) == Credit(RelOf(related, storage, u), AmountOf(items, u) * repeats)
    ensures related.Keys <= related'.Keys
  {
    state', related' := state, related;
    for i := 0 to |items|
      invariant forall u :: Get(state', u) == Get(state, u) + AmountOf(items[..i], u) * repeats
      invariant forall u ::
        RelOf(related', storage, u) == Credit(RelOf(related, storage, u), AmountOf(items[..i], u) * repeats)
      invariant related.Keys <= related'.Keys
    {
      var uid := items[i].uid;
      forall u ensures AmountOf(items[..i + 1], u) * repeats
        == AmountOf(items[..i], u) * repeats + if uid == u then items[i].amount * repeats else 0
      {
        ScaledStep(items, i, u, repeats);
      }
      var count := items[i].amount * repeats;
      var r := RelOf(related', storage, uid);
      state' := state'[uid := Get(state', uid) + count];
      related' := related'[uid := r.(produced := r.produced + count)];
    }
    assert items[..|items|] == items;
  }

  lemma MaxAmountOfNone()
    ensures forall u :: MaxAmountOf([], u) == 0
  {
  }

  method HoldLine(item: RecipeItem, storage: map<Uid, int>,
                  state: map<Uid, int>, related: map<Uid, Related>, used: map<Uid, int>)
    returns (state': map<Uid, int>, related': map<Uid, Related>, used': map<Uid, int>)
    ensures forall u :: Get(used', u) == if u == item.uid then Max(Get(used, u), item.amount) else Get(used, u)
    ensures forall u :: Get(state', u) == Get(state, u) - (Get(used', u) - Get(used, u))
    ensures forall u :: RelOf(related', storage, u) == Charge(RelOf(related, storage, u), Get(used', u) - Get(used, u))
    ensures related.Keys <= related'.Keys
  {
    if Get(used, item.uid) >= item.amount {
      return state, related, used;
    }
    var diff := item.amount - Get(used, item.uid);
    var r := RelOf(related, storage, item.uid);
    state' := state[item.uid := Get(state, item.uid) - diff];
    used' := used[item.uid := item.amount];
    related' := related[item.uid := r.(consumed := r.consumed + diff)];
  }

  /** Catalysts are returned, so only the excess over what earlier steps already hold is charged. */
  method HoldCatalysts(items: seq<RecipeItem>, storage: map<Uid, int>,
                       state: map<Uid, int>, related: map<Uid, Related>, used: map<Uid, int>)
    returns (state': map<Uid, int>, related': map<Uid, Related>, used': map<Uid, int>)
    requires forall u :: Get(used, u) >= 0
    ensures forall u :: Get(used', u) == Max(Get(used, u), MaxAmountOf(items, u))
    ensures forall u :: Get(state', u) == Get(state, u) - (Get(used', u) - Get(used, u))
    ensures forall u :: RelOf(related', storage, u) == Charge(RelOf(related, storage, u), Get(used', u) - Get(used, u))
    ensures related.Keys <= related'.Keys
  {
    hide MaxAmountOf;
    MaxAmountOfNone();
    state', related', used' := state, related, used;
    for i := 0 to |items|
      invariant forall u :: Get(used', u) == Max(Get(used, u), MaxAmountOf(items[..i], u))
      invariant forall u :: Get(state', u) == Get(state, u) - (Get(used', u) - Get(used, u))
      invariant forall u ::
        RelOf(related', storage, u) == Charge(RelOf(related, storage, u), Get(used', u) - Get(used, u))
      invariant related.Keys <= related'.Keys
    {
      var uid, amount := items[i].uid, items[i].amount;
      forall u ensures MaxAmountOf(items[..i + 1], u)
        == if uid == u && amount > MaxAmountOf(items[..i], u) then amount else MaxAmountOf(items[..i], u)
      {
        MaxAmountOfStep(items, i, u);
      }
      state', related', used' := HoldLine(items[i], storage, state', related', used');
    }
    assert items[..|items|] == items;
  }

  // ---------------------------------------------------------------- the main loop

  /** The steps that a repeat count for every item in order stands for. */
  function StepsOf(order: seq<Uid>, choice: map<Uid, Recipe>, counts: seq<int>): seq<Step>
    requires |counts| == |order|
  {
    if order == [] then []
    else
      var n := |order| - 1;
      var init := StepsOf(order[..n], choice, counts[..n]);
      if order[n] in choice && counts[n] > 0 then init + [Step(choice[order[n]], counts[n])] else init
  }

  ghost predicate SingleResults(table: seq<Recipe>) {
    forall r :: r in table ==> |r.results| == 1
  }

  /** Every craftable item among the first `i` is covered by the steps. */
  ghost predicate Settled(goals: seq<Stack>, storage: map<Uid, int>, steps: seq<Step>,
                          order: seq<Uid>, choice: map<Uid, Recipe>, i: int) {
    forall p :: 0 <= p < i <= |order| && order[p] in choice ==> Balance(goals, storage, steps, order[p]) >= 0
  }

  /** The surplus of every crafted item is smaller than one output of its recipe. */
  ghost predicate Tight(goals: seq<Stack>, storage: map<Uid, int>, steps: seq<Step>,
                        order: seq<Uid>, choice: map<Uid, Recipe>, counts: seq<int>) {
    forall p :: 0 <= p < |counts| <= |order| && counts[p] > 0 ==>
      order[p] in choice && choice[order[p]].results != []
      && Balance(goals, storage, steps, order[p]) < choice[order[p]].results[0].amount
  }

  lemma NoAmount(items: seq<RecipeItem>, u: Uid)
    requires !Mentions(items, u)
    ensures AmountOf(items, u) == 0 && MaxAmountOf(items, u) == 0
  {
    if items != [] {
      var n := |items| - 1;
      MentionsStep(items, n, u);
      assert items[..n + 1] == items;
      NoAmount(items[..n], u);
    }
  }

  lemma SomeAmount(items: seq<RecipeItem>, u: Uid)
    requires PositiveAmounts(items) && items != []
    ensures AmountOf(items, u) >= if items[0].uid == u then items[0].amount else 0
    decreases |items|
  {
    var n := |items| - 1;
    if n > 0 {
      SomeAmount(items[..n], u);
    }
  }

  /** Adding the step for the next item disturbs no item that is already settled. */
  lemma StepKeepsSettled(goals: seq<Stack>, storage: map<Uid, int>, steps: seq<Step>, order: seq<Uid>,
                         choice: map<Uid, Recipe>, table: seq<Recipe>, i: nat, p: nat, n: int)
    requires i < |order| && p <= i && n > 0 && Distinct(order)
    requires InputsLater(table, order) && order[i] in choice && choice[order[i]] in table
    requires Crafts(choice[order[i]], order[i]) && WellFormed(choice[order[i]])
    ensures var next := steps + [Step(choice[order[i]], n)];
      && Balance(goals, storage, next, order[p])
        == Balance(goals, storage, steps, order[p]) + AmountOf(choice[order[i]].results, order[p]) * n
      && (p == i ==> AmountOf(choice[order[i]].results, order[p]) >= choice[order[i]].results[0].amount)
      && AmountOf(choice[order[i]].results, order[p]) >= 0
      && (|choice[order[i]].results| == 1 ==>
          AmountOf(choice[order[i]].results, order[p]) == if p == i then choice[order[i]].results[0].amount else 0)
  {
    var r := choice[order[i]];
    var u := order[p];
    assert !IsInput(r, u);
    NoAmount(r.ingredients, u);
    NoAmount(r.catalysts, u);
    StepsGrow(steps, Step(r, n), u);
    SomeAmount(r.results, u);
    if |r.results| == 1 {
      assert r.results[..0] == [];
      assert AmountOf(r.results, u) == if r.results[0].uid == u then r.results[0].amount else 0;
    }
  }

  lemma StepsOfGrow(order: seq<Uid>, choice: map<Uid, Recipe>, counts: seq<int>, i: nat, n: int)
    requires i < |order| && |counts| == i
    ensures StepsOf(order[..i + 1], choice, counts + [n])
         == if order[i] in choice && n > 0 then StepsOf(order[..i], choice, counts) + [Step(choice[order[i]], n)]
            else StepsOf(order[..i], choice, counts)
  {
    assert order[..i + 1][..i] == order[..i];
    assert (counts + [n])[..i] == counts;
  }

  /** The repeats chosen for a short item bring it up to a surplus below one output. */
  lemma RepeatsCover(short: int, amount: int, total: int)
    requires short > 0 && amount > 0 && total >= amount
    ensures Ceil(short, amount) > 0
    ensures total * Ceil(short, amount) >= short
    ensures amount * Ceil(short, amount) - short < amount
  {
    CeilExactness(short, amount);
    var n := Ceil(short, amount);
    assert amount * (n - 1) == amount * n - amount;
    assert n <= 0 ==> amount * n <= 0;
    assert (total - amount) * n >= 0;
    assert total * n == amount * n + (total - amount) * n;
  }

  lemma CeilPositive(short: int, amount: int)
    requires short > 0 && amount > 0
    ensures Ceil(short, amount) > 0
  {
    RepeatsCover(short, amount, amount);
  }

  /** What one round of the main loop leaves, whichever branch it takes. */
  ghost predicate Round(goals: seq<Stack>, storage: map<Uid, int>, table: seq<Recipe>, order: seq<Uid>,
                        choice: map<Uid, Recipe>, counts: seq<int>, steps: seq<Step>) {
    && |counts| <= |order|
    && (forall p :: 0 <= p < |counts| ==> counts[p] >= 0)
    && steps == StepsOf(order[..|counts|], choice, counts)
    && Settled(goals, storage, steps, order, choice, |counts|)
    && (SingleResults(table) ==> Tight(goals, storage, steps, order, choice, counts))
  }

  ghost predicate Ready(table: seq<Recipe>, order: seq<Uid>, choice: map<Uid, Recipe>) {
    && Distinct(order) && InputsLater(table, order)
    && (forall r :: r in table ==> WellFormed(r))
    && (forall x :: x in choice ==> choice[x] in table && Crafts(choice[x], x))
  }

  lemma SkipRound(goals: seq<Stack>, storage: map<Uid, int>, table: seq<Recipe>, order: seq<Uid>,
                  choice: map<Uid, Recipe>, counts: seq<int>, steps: seq<Step>)
    requires Round(goals, storage, table, order, choice, counts, steps) && |counts| < |order|
    requires order[|counts|] in choice ==> Balance(goals, storage, steps, order[|counts|]) >= 0
    ensures Round(goals, storage, table, order, choice, counts + [0], steps)
  {
    StepsOfGrow(order, choice, counts, |counts|, 0);
  }

  /** The state of the loop when it is about to craft the next item. */
  ghost predicate Crafting(goals: seq<Stack>, storage: map<Uid, int>, table: seq<Recipe>, order: seq<Uid>,
                           choice: map<Uid, Recipe>, counts: seq<int>, steps: seq<Step>, n: int) {
    && Round(goals, storage, table, order, choice, counts, steps) && |counts| < |order|
    && Ready(table, order, choice) && order[|counts|] in choice
    && Balance(goals, storage, steps, order[|counts|]) < 0
    && n == Ceil(-Balance(goals, storage, steps, order[|counts|]), choice[order[|counts|]].results[0].amount)
  }

  lemma CraftSettled(goals: seq<Stack>, storage: map<Uid, int>, table: seq<Recipe>, order: seq<Uid>,
                     choice: map<Uid, Recipe>, counts: seq<int>, steps: seq<Step>, n: int)
    requires Crafting(goals, storage, table, order, choice, counts, steps, n)
    ensures Settled(goals, storage, steps + [Step(choice[order[|counts|]], n)], order, choice, |counts| + 1)
  {
    forall p | 0 <= p <= |counts| && order[p] in choice
      ensures Balance(goals, storage, steps + [Step(choice[order[|counts|]], n)], order[p]) >= 0
    {
      CraftRoundAt(goals, storage, table, order, choice, counts, steps, n, p);
    }
  }

  lemma CraftTight(goals: seq<Stack>, storage: map<Uid, int>, table: seq<Recipe>, order: seq<Uid>,
                   choice: map<Uid, Recipe>, counts: seq<int>, steps: seq<Step>, n: int)
    requires Crafting(goals, storage, table, order, choice, counts, steps, n) && SingleResults(table)
    ensures Tight(goals, storage, steps + [Step(choice[order[|counts|]], n)], order, choice, counts + [n])
  {
    var counts' := counts + [n];
    forall p | 0 <= p < |counts'| && counts'[p] > 0
      ensures order[p] in choice && choice[order[p]].results != []
      ensures Balance(goals, storage, steps + [Step(choice[order[|counts|]], n)], order[p])
        < choice[order[p]].results[0].amount
    {
      assert p < |counts| ==> counts[p] > 0;
      CraftRoundAt(goals, storage, table, order, choice, counts, steps, n, p);
    }
  }

  lemma CraftRound(goals: seq<Stack>, storage: map<Uid, int>, table: seq<Recipe>, order: seq<Uid>,
                   choice: map<Uid, Recipe>, counts: seq<int>, steps: seq<Step>, n: int)
    requires Crafting(goals, storage, table, order, choice, counts, steps, n)
    ensures n > 0
    ensures Round(goals, storage, table, order, choice, counts + [n], steps + [Step(choice[order[|counts|]], n)])
  {
    hide Settled, Tight, Balance, StepsOf, Ceil, InputsLater, Distinct;
    CeilPositive(-Balance(goals, storage, steps, order[|counts|]), choice[order[|counts|]].results[0].amount);
    StepsOfGrow(order, choice, counts, |counts|, n);
    CraftSettled(goals, storage, table, order, choice, counts, steps, n);
    if SingleResults(table) {
      CraftTight(goals, storage, table, order, choice, counts, steps, n);
    }
  }

  lemma CraftRoundAt(goals: seq<Stack>, storage: map<Uid, int>, table: seq<Recipe>, order: seq<Uid>,
                     choice: map<Uid, Recipe>, counts: seq<int>, steps: seq<Step>, n: int, p: nat)
    requires Crafting(goals, storage, table, order, choice, counts, steps, n) && p <= |counts| && order[p] in choice
    ensures var b := Balance(goals, storage, steps + [Step(choice[order[|counts|]], n)], order[p]);
      b >= 0 && (SingleResults(table) && (p < |counts| ==> counts[p] > 0) ==> b < choice[order[p]].results[0].amount)
  {
    var i := |counts|;
    var r := choice[order[i]];
    var short := -Balance(goals, storage, steps, order[i]);
    CeilPositive(short, r.results[0].amount);
    StepKeepsSettled(goals, storage, steps, order, choice, table, i, p, n);
    SomeAmount(r.results, order[i]);
    RepeatsCover(short, r.results[0].amount, AmountOf(r.results, order[i]));
    hide StepsOf, InputsLater, Distinct, Ceil, Balance, AmountOf;
    assert AmountOf(r.results, order[p]) * n >= 0;
    assert 0 * n == 0;
  }

  function GoalUids(goals: seq<Stack>): (uids: seq<Uid>)
    ensures |uids| == |goals| && forall i :: 0 <= i < |goals| ==> uids[i] == goals[i].uid
  {
    seq(|goals|, i requires 0 <= i < |goals| => goals[i].uid)
  }

  /** The entry of every item, present or not yet created, holds the exact totals of the steps. */
  ghost predicate Totals(goals: seq<Stack>, storage: map<Uid, int>, steps: seq<Step>, related: map<Uid, Related>) {
    && (forall u :: RelOf(related, storage, u) == TotalsOf(goals, storage, steps, u))
    && (forall u :: IsGoal(goals, u) ==> u in related)
  }

  function TotalsOf(goals: seq<Stack>, storage: map<Uid, int>, steps: seq<Step>, u: Uid): Related {
    Related(Produced(steps, u), Demand(goals, steps, u), Assumed(goals, storage, u))
  }

  /** The running maps of the loop agree with the steps taken so far. */
  ghost predicate Tracks(goals: seq<Stack>, storage: map<Uid, int>, order: seq<Uid>, steps: seq<Step>,
                         state: map<Uid, int>, related: map<Uid, Related>, used: map<Uid, int>) {
    && (forall u :: u in order ==> Get(state, u) == Balance(goals, storage, steps, u))
    && Totals(goals, storage, steps, related)
    && (forall u :: Get(used, u) == Held(steps, u))
  }

  /** The body of the main loop for a short item that has a recipe. */
  method TakeStep(recipe: Recipe, repeats: int, goals: seq<Stack>, storage: map<Uid, int>, order: seq<Uid>,
                  steps: seq<Step>, state: map<Uid, int>, related: map<Uid, Related>, used: map<Uid, int>)
    returns (steps': seq<Step>, state': map<Uid, int>, related': map<Uid, Related>, used': map<Uid, int>)
    requires Tracks(goals, storage, order, steps, state, related, used)
    ensures steps' == steps + [Step(recipe, repeats)]
    ensures Tracks(goals, storage, order, steps', state', related', used')
  {
    hide Produced, Used, Held, AmountOf, MaxAmountOf, GoalOf, IsGoal, Assumed, Get;
    state', related' := ConsumeIngredients(recipe.ingredients, repeats, storage, state, related);
    state', related', used' := HoldCatalysts(recipe.catalysts, storage, state', related', used);
    state', related' := ProduceResults(recipe.results, repeats, storage, state', related');
    steps' := steps + [Step(recipe, repeats)];
    forall u ensures
      && Produced(steps', u) == Produced(steps, u) + AmountOf(recipe.results, u) * repeats
      && Used(steps', u) == Used(steps, u) + AmountOf(recipe.ingredients, u) * repeats
      && Held(steps', u) == Max(Held(steps, u), MaxAmountOf(recipe.catalysts, u))
    {
      StepsGrow(steps, Step(recipe, repeats), u);
    }
  }

  /** The plan carries, for its step list, the exact totals of every item, and covers every craftable one. */
  ghost predicate IsPlan(goals: seq<Stack>, storage: map<Uid, int>, table: seq<Recipe>, plan: Plan,
                         choice: map<Uid, Recipe>, counts: seq<int>) {
    && plan.goals == goals
    && |counts| == |plan.items|
    && Expands(table, GoalUids(goals), ExpandState(plan.items, choice))
    && Round(goals, storage, table, plan.items, choice, counts, plan.steps)
    && Totals(goals, storage, plan.steps, plan.related)
  }

  lemma ExpandedIsReady(table: seq<Recipe>, goals: seq<Uid>, e: ExpandState)
    requires Expands(table, goals, e) && forall r :: r in table ==> WellFormed(r)
    requires goals != []
    ensures Ready(table, e.items, e.recipes)
    ensures forall i :: 0 <= i < |goals| ==> goals[i] in e.items
  {
    forall i | 0 <= i < |goals| ensures goals[i] in e.items {
      assert InEveryClosed(table, goals, goals[i]);
    }
  }

  method GetPlanForItem(goals: seq<Stack>, table: seq<Recipe>, storage: map<Uid, int>)
    returns (res: Option<Plan>, ghost choice: map<Uid, Recipe>, ghost counts: seq<int>)
    requires forall r :: r in table ==> WellFormed(r)
    ensures res.None? <==> goals == [] || HasRecipeCycle(table, Closure(table, GoalUids(goals)))
    ensures res.Some? ==> IsPlan(goals, storage, table, res.value, choice, counts)
  {
    hide Round, Expands, HasRecipeCycle, Closure, InputsLater, Distinct, Balance;
    var expanded := ExpandRecipes(table, GoalUids(goals));
    choice, counts := map[], [];
    if expanded.None? {
      return None, choice, counts;
    }
    var ExpandState(order, recipes) := expanded.value;
    choice := recipes;
    ExpandedIsReady(table, GoalUids(goals), expanded.value);
    var state, related := StartState(order, goals, storage);
    var steps: seq<Step> := [];
    var used: map<Uid, int> := map[];
    FirstRound(goals, storage, table, order, choice);
    for i := 0 to |order|
      invariant |counts| == i
      invariant Round(goals, storage, table, order, choice, counts, steps)
      invariant Tracks(goals, storage, order, steps, state, related, used)
    {
      var item := order[i];
      if Get(state, item) >= 0 || item !in recipes {
        SkipRound(goals, storage, table, order, choice, counts, steps);
        counts := counts + [0];
      } else {
        var recipe := recipes[item];
        var repeats := Ceil(-Get(state, item), recipe.results[0].amount);
        CraftRound(goals, storage, table, order, choice, counts, steps, repeats);
        steps, state, related, used := TakeStep(recipe, repeats, goals, storage, order, steps, state, related, used);
        counts := counts + [repeats];
      }
    }
    res := Some(Plan(order, steps, related, goals));
  }

  lemma FirstRound(goals: seq<Stack>, storage: map<Uid, int>, table: seq<Recipe>, order: seq<Uid>,
                   choice: map<Uid, Recipe>)
    ensures Round(goals, storage, table, order, choice, [], [])
  {
  }
}
