/** What the planner's arithmetic achieves: coverage, minimality and an executable order. */
module PlanTheorems {
  import opened Recipes
  import opened RecipeClosure
  import opened Planner

  ghost predicate NonNegative(storage: map<Uid, int>) {
    forall u :: Get(storage, u) >= 0
  }

  ghost predicate AllCovered(goals: seq<Stack>, storage: map<Uid, int>, steps: seq<Step>) {
    forall u :: Balance(goals, storage, steps, u) >= 0
  }

  // ---------------------------------------------------------------- the steps of a count vector

  /** Every step runs a recipe of the table that the closure loaded, a positive number of times. */
  ghost predicate StepsFrom(table: seq<Recipe>, items: set<Uid>, steps: seq<Step>) {
    forall k :: 0 <= k < |steps| ==>
      steps[k].recipe in table && Selected(steps[k].recipe, items) && steps[k].repeats > 0
  }

  lemma {:induction false} StepsOfAreFrom(table: seq<Recipe>, items: set<Uid>, order: seq<Uid>,
                                          choice: map<Uid, Recipe>, counts: seq<int>)
    requires |counts| == |order|
    requires forall x :: x in choice ==> choice[x] in table && Selected(choice[x], items)
    ensures StepsFrom(table, items, StepsOf(order, choice, counts))
  {
    if order != [] {
      StepsOfAreFrom(table, items, order[..|order| - 1], choice, counts[..|order| - 1]);
    }
  }

  lemma {:induction false} ProducedNonNegative(table: seq<Recipe>, items: set<Uid>, steps: seq<Step>, u: Uid)
    requires StepsFrom(table, items, steps) && forall r :: r in table ==> WellFormed(r)
    ensures Produced(steps, u) >= 0 && Used(steps, u) >= 0
  {
    if steps != [] {
      var last := steps[|steps| - 1];
      ProducedNonNegative(table, items, steps[..|steps| - 1], u);
      PositiveWhenMentioned(last.recipe.results, u);
      PositiveWhenMentioned(last.recipe.ingredients, u);
      assert AmountOf(last.recipe.results, u) * last.repeats >= 0;
      assert AmountOf(last.recipe.ingredients, u) * last.repeats >= 0;
    }
  }

  /** An item outside the closed set is neither consumed nor borrowed. */
  lemma {:induction false} OutsideIsUntouched(table: seq<Recipe>, goals: seq<Uid>, items: set<Uid>, steps: seq<Step>,
      u: Uid)
    requires StepsFrom(table, items, steps) && ClosedOver(table, goals, items) && u !in items
    ensures Used(steps, u) == 0 && Held(steps, u) == 0
  {
    if steps != [] {
      var last := steps[|steps| - 1];
      OutsideIsUntouched(table, goals, items, steps[..|steps| - 1], u);
      assert !IsInput(last.recipe, u);
      NoAmount(last.recipe.ingredients, u);
      NoAmount(last.recipe.catalysts, u);
    }
  }

  lemma NoGoal(goals: seq<Stack>, u: Uid)
    requires !IsGoal(goals, u)
    ensures GoalOf(goals, u) == 0
  {
    if goals != [] {
      var n := |goals| - 1;
      assert forall k :: 0 <= k < n ==> goals[..n][k] == goals[k];
      NoGoal(goals[..n], u);
    }
  }

  /** With distinct goals the planned demand of each goal is the count that was asked for. */
  lemma {:induction false} DistinctGoalsAreMet(goals: seq<Stack>, k: nat)
    requires k < |goals|
    requires forall i, j :: 0 <= i < j < |goals| ==> goals[i].uid != goals[j].uid
    ensures GoalOf(goals, goals[k].uid) == goals[k].count
  {
    var n := |goals| - 1;
    if k < n {
      assert goals[..n][k] == goals[k];
      DistinctGoalsAreMet(goals[..n], k);
    }
  }

  // ---------------------------------------------------------------- what goals and stock mean

  /** The goal that counts for its item: no later one is for the same item. */
  predicate LastGoal(goals: seq<Stack>, k: int) {
    0 <= k < |goals| && forall j :: k < j < |goals| ==> goals[j].uid != goals[k].uid
  }

  lemma {:induction false} LastGoalCounts(goals: seq<Stack>, k: nat)
    requires LastGoal(goals, k)
    ensures IsGoal(goals, goals[k].uid) && GoalOf(goals, goals[k].uid) == goals[k].count
  {
    var n := |goals| - 1;
    if k < n {
      assert goals[n].uid != goals[k].uid && goals[..n][k] == goals[k];
      LastGoalCounts(goals[..n], k);
    }
  }

  lemma {:induction false} SomeLastGoal(goals: seq<Stack>, u: Uid) returns (k: nat)
    requires IsGoal(goals, u)
    ensures LastGoal(goals, k) && goals[k].uid == u
  {
    k := |goals| - 1;
    while goals[k].uid != u
      invariant k < |goals| && forall j :: k < j < |goals| ==> goals[j].uid != u
      invariant exists i :: 0 <= i <= k && goals[i].uid == u
      decreases k
    {
      k := k - 1;
    }
  }

  /**
    The steps make every goal anew, as many as were asked for last and whatever is stored of it,
    beside what they use and hold of it; of any other item they use and hold no more than is
    stored or made.
   */
  ghost predicate Enough(goals: seq<Stack>, storage: map<Uid, int>, steps: seq<Step>) {
    && (forall k :: LastGoal(goals, k) ==>
        Produced(steps, goals[k].uid) >= goals[k].count + Used(steps, goals[k].uid) + Held(steps, goals[k].uid))
    && forall u :: (forall k :: 0 <= k < |goals| ==> goals[k].uid != u) ==>
        Get(storage, u) + Produced(steps, u) >= Used(steps, u) + Held(steps, u)
  }

  /** What the balance of an item is: without a stock for goals, and without a debt for other items. */
  lemma BalanceMeans(goals: seq<Stack>, storage: map<Uid, int>, steps: seq<Step>)
    ensures forall k :: LastGoal(goals, k) ==>
      Balance(goals, storage, steps, goals[k].uid)
        == Produced(steps, goals[k].uid) - goals[k].count - Used(steps, goals[k].uid) - Held(steps, goals[k].uid)
    ensures forall u :: (forall k :: 0 <= k < |goals| ==> goals[k].uid != u) ==>
      Balance(goals, storage, steps, u) == Get(storage, u) + Produced(steps, u) - Used(steps, u) - Held(steps, u)
  {
    forall k | LastGoal(goals, k)
      ensures Balance(goals, storage, steps, goals[k].uid)
        == Produced(steps, goals[k].uid) - goals[k].count - Used(steps, goals[k].uid) - Held(steps, goals[k].uid)
    {
      LastGoalCounts(goals, k);
    }
    forall u | forall k :: 0 <= k < |goals| ==> goals[k].uid != u
      ensures Balance(goals, storage, steps, u) == Get(storage, u) + Produced(steps, u) - Used(steps, u)
        - Held(steps, u)
    {
      NoGoal(goals, u);
    }
  }

  /** The coverage that is checked on acceptance means exactly that the steps are enough. */
  lemma CoveredIffEnough(goals: seq<Stack>, storage: map<Uid, int>, steps: seq<Step>)
    ensures AllCovered(goals, storage, steps) <==> Enough(goals, storage, steps)
  {
    BalanceMeans(goals, storage, steps);
    hide Balance, Produced, Used, Held;
    if Enough(goals, storage, steps) {
      forall u ensures Balance(goals, storage, steps, u) >= 0 {
        if k :| 0 <= k < |goals| && goals[k].uid == u {
          var last := SomeLastGoal(goals, u);
        }
      }
    }
    if AllCovered(goals, storage, steps) {
      forall k | LastGoal(goals, k) ensures Balance(goals, storage, steps, goals[k].uid) >= 0 {
      }
      assert forall u :: Balance(goals, storage, steps, u) >= 0;
    }
  }

  /**
    A goal with a recipe is made as often as was asked for, stored or not, and from a recipe with
    one result less than one output more; a goal that nothing makes leaves the plan uncovered.
   */
  lemma GoalsAreMadeAnew(goals: seq<Stack>, storage: map<Uid, int>, table: seq<Recipe>,
                         plan: Plan, choice: map<Uid, Recipe>, counts: seq<int>, k: nat)
    requires IsPlan(goals, storage, table, plan, choice, counts) && forall r :: r in table ==> WellFormed(r)
    requires LastGoal(goals, k) && goals[k].count > 0
    ensures var u := goals[k].uid;
      var needed := goals[k].count + Used(plan.steps, u) + Held(plan.steps, u);
      && (u in choice ==> Produced(plan.steps, u) >= needed)
      && (u in choice && SingleResults(table) ==>
          choice[u].results != [] && Produced(plan.steps, u) - needed < choice[u].results[0].amount)
      && (Produced(plan.steps, u) == 0 ==> !Enough(goals, storage, plan.steps))
  {
    var u := goals[k].uid;
    BalanceMeans(goals, storage, plan.steps);
    LastGoalCounts(goals, k);
    GoalPlace(goals, storage, table, plan, choice, counts, k);
    var p :| 0 <= p < |plan.items| && plan.items[p] == u;
    assert plan.items[..|counts|] == plan.items && counts[..|counts|] == counts;
    StepsOfAreFrom(table, Closure(table, GoalUids(goals)), plan.items, choice, counts);
    ProducedNonNegative(table, Closure(table, GoalUids(goals)), plan.steps, u);
    if u in choice {
      assert Balance(goals, storage, plan.steps, plan.items[p]) >= 0;
      hide Enough, Assumed, Produced, Used, Held, AmountOf, LastGoal;
      if SingleResults(table) {
        SurplusBelowOutput(goals, storage, table, plan, choice, counts, p);
      }
    }
  }

  /** With single results, what is made of an item leaves less than one more output over. */
  lemma SurplusBelowOutput(goals: seq<Stack>, storage: map<Uid, int>, table: seq<Recipe>,
                           plan: Plan, choice: map<Uid, Recipe>, counts: seq<int>, p: nat)
    requires IsPlan(goals, storage, table, plan, choice, counts) && Ready(table, plan.items, choice)
    requires SingleResults(table) && p < |plan.items| && plan.items[p] in choice
    requires Produced(plan.steps, plan.items[p]) > 0
    ensures choice[plan.items[p]].results != []
    ensures Balance(goals, storage, plan.steps, plan.items[p]) < choice[plan.items[p]].results[0].amount
  {
    WholePrefix(goals, storage, table, plan, choice, counts);
    hide Round, Totals, Expands, Produced, Prefix, InputsLater, WellFormed;
    OnlyOwnStepProduces(table, plan.items, choice, counts, p, |counts|);
    TightAt(goals, storage, table, plan, choice, counts, p);
  }

  lemma WholePrefix(goals: seq<Stack>, storage: map<Uid, int>, table: seq<Recipe>,
                    plan: Plan, choice: map<Uid, Recipe>, counts: seq<int>)
    requires IsPlan(goals, storage, table, plan, choice, counts)
    ensures Prefix(plan.items, choice, counts, |counts|) == plan.steps
  {
    hide Totals, Expands, StepsOf, Settled, Tight;
    assert plan.items[..|counts|] == plan.items && counts[..|counts|] == counts;
  }

  lemma TightAt(goals: seq<Stack>, storage: map<Uid, int>, table: seq<Recipe>,
                plan: Plan, choice: map<Uid, Recipe>, counts: seq<int>, p: nat)
    requires IsPlan(goals, storage, table, plan, choice, counts) && SingleResults(table)
    requires p < |plan.items| && plan.items[p] in choice && counts[p] > 0 && choice[plan.items[p]].results != []
    ensures Balance(goals, storage, plan.steps, plan.items[p]) < choice[plan.items[p]].results[0].amount
  {
    hide Totals, Expands, StepsOf, Settled, Balance, SingleResults;
  }

  lemma GoalPlace(goals: seq<Stack>, storage: map<Uid, int>, table: seq<Recipe>,
                  plan: Plan, choice: map<Uid, Recipe>, counts: seq<int>, k: nat)
    requires IsPlan(goals, storage, table, plan, choice, counts) && (forall r :: r in table ==> WellFormed(r))
    requires k < |goals|
    ensures exists p :: 0 <= p < |plan.items| && plan.items[p] == goals[k].uid
    ensures Ready(table, plan.items, choice)
  {
    hide Round, Totals, InputsLater;
    assert GoalUids(goals)[k] == goals[k].uid;
    ExpandedIsReady(table, GoalUids(goals), ExpandState(plan.items, choice));
    assert GoalUids(goals)[k] in plan.items;
  }

  /** The totals that a plan carries: for a goal no stock and its count as a need, for other items what is stored. */
  lemma RelatedMeans(goals: seq<Stack>, storage: map<Uid, int>, steps: seq<Step>, related: map<Uid, Related>)
    requires Totals(goals, storage, steps, related)
    ensures forall k :: LastGoal(goals, k) ==>
      var u := goals[k].uid;
      u in related
        && related[u] == Related(Produced(steps, u), goals[k].count + Used(steps, u) + Held(steps, u), 0)
    ensures forall u :: u in related && (forall k :: 0 <= k < |goals| ==> goals[k].uid != u) ==>
      related[u] == Related(Produced(steps, u), Used(steps, u) + Held(steps, u), Get(storage, u))
    ensures forall u :: u !in related ==> Produced(steps, u) == 0 && Used(steps, u) + Held(steps, u) == 0
  {
    forall k | LastGoal(goals, k)
      ensures goals[k].uid in related && related[goals[k].uid] == Related(Produced(steps, goals[k].uid),
        goals[k].count + Used(steps, goals[k].uid) + Held(steps, goals[k].uid), 0)
    {
      LastGoalCounts(goals, k);
      assert RelOf(related, storage, goals[k].uid) == TotalsOf(goals, storage, steps, goals[k].uid);
    }
    forall u | !IsGoal(goals, u)
      ensures RelOf(related, storage, u)
           == Related(Produced(steps, u), Used(steps, u) + Held(steps, u), Get(storage, u))
    {
      NoGoal(goals, u);
      assert RelOf(related, storage, u) == TotalsOf(goals, storage, steps, u);
    }
  }

  predicate HasLine(items: seq<RecipeItem>, u: Uid, amount: int) {
    exists j :: 0 <= j < |items| && items[j].uid == u && items[j].amount == amount
  }

  lemma {:induction false} MaxIsALine(items: seq<RecipeItem>, u: Uid)
    ensures forall j :: 0 <= j < |items| && items[j].uid == u ==> items[j].amount <= MaxAmountOf(items, u)
    ensures MaxAmountOf(items, u) == 0 || HasLine(items, u, MaxAmountOf(items, u))
  {
    if items != [] {
      MaxIsALine(items[..|items| - 1], u);
      assert forall j :: 0 <= j < |items| - 1 ==> items[..|items| - 1][j] == items[j];
    }
  }

  /** What is held of an item is the largest catalyst line for it, over all steps. */
  lemma {:induction false} HeldIsLargestLine(steps: seq<Step>, u: Uid)
    ensures forall i, amount :: 0 <= i < |steps| && HasLine(steps[i].recipe.catalysts, u, amount) ==>
      amount <= Held(steps, u)
    ensures Held(steps, u) == 0
      || exists i :: 0 <= i < |steps| && HasLine(steps[i].recipe.catalysts, u, Held(steps, u))
  {
    if steps != [] {
      var n := |steps| - 1;
      HeldIsLargestLine(steps[..n], u);
      MaxIsALine(steps[n].recipe.catalysts, u);
      assert forall i :: 0 <= i < n ==> steps[..n][i] == steps[i];
    }
  }

  // ---------------------------------------------------------------- sufficiency

  /** The closure is itself closed over the recipes. */
  lemma ClosureIsClosed(table: seq<Recipe>, goals: seq<Uid>)
    ensures ClosedOver(table, goals, Closure(table, goals))
  {
    var c := Closure(table, goals);
    forall g | g in goals ensures g in c {
      assert InEveryClosed(table, goals, g);
    }
    forall r, u | r in table && Selected(r, c) && IsInput(r, u) ensures u in c {
      assert u in Inputs(r);
      forall s | ClosedOver(table, goals, s) ensures u in s {
        assert Selected(r, s);
      }
    }
  }

  /**
    A plan covers every item, needed or only touched, exactly when it covers the raw ones:
    the items of the closure that no recipe crafts.
   */
  lemma CoveredIffRawCovered(goals: seq<Stack>, storage: map<Uid, int>, table: seq<Recipe>,
                             plan: Plan, choice: map<Uid, Recipe>, counts: seq<int>)
    requires IsPlan(goals, storage, table, plan, choice, counts)
    requires NonNegative(storage) && forall r :: r in table ==> WellFormed(r)
    ensures AllCovered(goals, storage, plan.steps) <==>
      forall u :: u in plan.items && !(exists r :: r in table && Crafts(r, u)) ==>
        Balance(goals, storage, plan.steps, u) >= 0
  {
    if forall u :: u in plan.items && !(exists r :: r in table && Crafts(r, u)) ==>
      Balance(goals, storage, plan.steps, u) >= 0 {
      forall u ensures Balance(goals, storage, plan.steps, u) >= 0 {
        CoveredUnlessRaw(goals, storage, table, plan, choice, counts, u);
      }
    }
  }

  lemma CoveredUnlessRaw(goals: seq<Stack>, storage: map<Uid, int>, table: seq<Recipe>,
                         plan: Plan, choice: map<Uid, Recipe>, counts: seq<int>, u: Uid)
    requires IsPlan(goals, storage, table, plan, choice, counts)
    requires NonNegative(storage) && forall r :: r in table ==> WellFormed(r)
    ensures Balance(goals, storage, plan.steps, u) < 0 ==> u in plan.items && !(exists r :: r in table && Crafts(r, u))
  {
    var items := Closure(table, GoalUids(goals));
    assert plan.items[..|counts|] == plan.items;
    StepsOfAreFrom(table, items, plan.items, choice, counts);
    ClosureIsClosed(table, GoalUids(goals));
    if u !in items {
      ProducedNonNegative(table, items, plan.steps, u);
      OutsideIsUntouched(table, GoalUids(goals), items, plan.steps, u);
      assert !IsGoal(goals, u) by {
        assert forall i :: 0 <= i < |goals| ==> GoalUids(goals)[i] in items;
      }
      NoGoal(goals, u);
    } else if exists r :: r in table && Crafts(r, u) {
      var r :| r in table && Crafts(r, u);
      assert Selected(r, items);
      assert HasRecipe(table, items, u);
      assert u in choice;
      var p :| 0 <= p < |plan.items| && plan.items[p] == u;
      assert Balance(goals, storage, plan.steps, plan.items[p]) >= 0;
    }
  }

  // ---------------------------------------------------------------- minimality

  /** The steps of the first `j` counts. */
  function Prefix(order: seq<Uid>, choice: map<Uid, Recipe>, counts: seq<int>, j: nat): seq<Step>
    requires |counts| == |order| && j <= |order|
  {
    StepsOf(order[..j], choice, counts[..j])
  }

  lemma PrefixGrows(order: seq<Uid>, choice: map<Uid, Recipe>, counts: seq<int>, k: nat, u: Uid)
    requires |counts| == |order| && k < |order|
    ensures !(order[k] in choice && counts[k] > 0) ==>
      Prefix(order, choice, counts, k + 1) == Prefix(order, choice, counts, k)
    ensures order[k] in choice && counts[k] > 0 ==>
      var before, after, r := Prefix(order, choice, counts, k), Prefix(order, choice, counts, k + 1), choice[order[k]];
      && Used(after, u) == Used(before, u) + AmountOf(r.ingredients, u) * counts[k]
      && Held(after, u) == Max(Held(before, u), MaxAmountOf(r.catalysts, u))
      && Produced(after, u) == Produced(before, u) + AmountOf(r.results, u) * counts[k]
  {
    assert counts[..k + 1] == counts[..k] + [counts[k]];
    StepsOfGrow(order, choice, counts[..k], k, counts[k]);
    if order[k] in choice && counts[k] > 0 {
      StepsGrow(Prefix(order, choice, counts, k), Step(choice[order[k]], counts[k]), u);
    }
  }

  /** Steps from position `p` on neither use nor borrow the item at `p`. */
  lemma {:induction false} LaterStepsIgnore(table: seq<Recipe>, order: seq<Uid>, choice: map<Uid, Recipe>,
                                            counts: seq<int>, p: nat, j: nat)
    requires Ready(table, order, choice)
    requires |counts| == |order| && p <= j <= |order| && p < |order|
    ensures Used(Prefix(order, choice, counts, j), order[p]) == Used(Prefix(order, choice, counts, p), order[p])
    ensures Held(Prefix(order, choice, counts, j), order[p]) == Held(Prefix(order, choice, counts, p), order[p])
    decreases j
  {
    if p < j {
      var k := j - 1;
      LaterStepsIgnore(table, order, choice, counts, p, k);
      PrefixGrows(order, choice, counts, k, order[p]);
      if order[k] in choice && counts[k] > 0 {
        var r := choice[order[k]];
        assert !IsInput(r, order[p]);
        NoAmount(r.ingredients, order[p]);
        NoAmount(r.catalysts, order[p]);
      }
    }
  }

  lemma SingleResultAmount(r: Recipe, u: Uid)
    requires |r.results| == 1
    ensures AmountOf(r.results, u) == if r.results[0].uid == u then r.results[0].amount else 0
  {
    assert r.results[..0] == [];
  }

  /** With single-result recipes only its own step produces an item. */
  lemma {:induction false} OnlyOwnStepProduces(table: seq<Recipe>, order: seq<Uid>, choice: map<Uid, Recipe>,
                                               counts: seq<int>, p: nat, j: nat)
    requires Ready(table, order, choice) && SingleResults(table)
    requires |counts| == |order| && p < |order| && j <= |order|
    ensures Produced(Prefix(order, choice, counts, j), order[p])
      == if p < j && order[p] in choice && counts[p] > 0 then choice[order[p]].results[0].amount * counts[p] else 0
    decreases j
  {
    if j > 0 {
      var k := j - 1;
      OnlyOwnStepProduces(table, order, choice, counts, p, k);
      PrefixGrows(order, choice, counts, k, order[p]);
      hide Prefix, Produced, Used, Held, InputsLater, WellFormed;
      if order[k] in choice && counts[k] > 0 {
        SingleResultAmount(choice[order[k]], order[p]);
      }
    }
  }

  lemma ScaledMonotone(a: int, c: int, d: int)
    requires a >= 0 && c <= d
    ensures a * c <= a * d && (d >= 0 ==> a * d >= 0)
  {
    assert a * (d - c) >= 0;
    assert a * d == a * c + a * (d - c);
  }

  /** More repeats of the earlier items never ask for less of an item. */
  lemma {:induction false} DemandGrows(table: seq<Recipe>, order: seq<Uid>, choice: map<Uid, Recipe>,
                                       c: seq<int>, d: seq<int>, p: nat, u: Uid)
    requires Ready(table, order, choice)
    requires |c| == |order| == |d| && p <= |order|
    requires forall q :: 0 <= q < p ==> c[q] <= d[q]
    ensures Used(Prefix(order, choice, c, p), u) <= Used(Prefix(order, choice, d, p), u)
    ensures Held(Prefix(order, choice, c, p), u) <= Held(Prefix(order, choice, d, p), u)
  {
    if p > 0 {
      hide Prefix, Used, Held, Ready, AmountOf, MaxAmountOf;
      var k := p - 1;
      DemandGrows(table, order, choice, c, d, k, u);
      PrefixGrows(order, choice, c, k, u);
      PrefixGrows(order, choice, d, k, u);
      if order[k] in choice {
        RecipeAmounts(table, order, choice, order[k], u);
        ScaledMonotone(AmountOf(choice[order[k]].ingredients, u), c[k], d[k]);
      }
    }
  }

  lemma RecipeAmounts(table: seq<Recipe>, order: seq<Uid>, choice: map<Uid, Recipe>, x: Uid, u: Uid)
    requires Ready(table, order, choice) && x in choice
    ensures AmountOf(choice[x].ingredients, u) >= 0
  {
    PositiveWhenMentioned(choice[x].ingredients, u);
  }

  /** What one count covers of its own item: output minus the demand of the steps before it. */
  lemma BalanceAt(goals: seq<Stack>, storage: map<Uid, int>, table: seq<Recipe>, order: seq<Uid>,
                  choice: map<Uid, Recipe>, counts: seq<int>, p: nat)
    requires Ready(table, order, choice) && SingleResults(table)
    requires |counts| == |order| && p < |order| && order[p] in choice && counts[p] >= 0
    ensures Balance(goals, storage, StepsOf(order, choice, counts), order[p])
         == Assumed(goals, storage, order[p]) + choice[order[p]].results[0].amount * counts[p]
            - Demand(goals, Prefix(order, choice, counts, p), order[p])
  {
    var n := |order|;
    assert Prefix(order, choice, counts, n) == StepsOf(order, choice, counts) by {
      assert order[..n] == order && counts[..n] == counts;
    }
    hide Used, Held, Produced, StepsOf, Prefix, Assumed, GoalOf, InputsLater, WellFormed;
    LaterStepsIgnore(table, order, choice, counts, p, n);
    OnlyOwnStepProduces(table, order, choice, counts, p, n);
    hide Ready, SingleResults;
    assert counts[p] == 0 ==> choice[order[p]].results[0].amount * counts[p] == 0;
  }

  lemma MultipleBelow(a: int, c: int, d: int)
    requires a > 0 && a * c < a * d + a
    ensures c <= d
  {
    assert c >= d + 1 ==> a * c >= a * (d + 1);
    assert a * (d + 1) == a * d + a;
  }

  lemma {:induction false} LeastUpTo(goals: seq<Stack>, storage: map<Uid, int>, table: seq<Recipe>, order: seq<Uid>,
                                     choice: map<Uid, Recipe>, c: seq<int>, d: seq<int>, p: nat)
    requires Ready(table, order, choice) && SingleResults(table)
    requires |c| == |order| == |d| && p <= |order|
    requires forall q :: 0 <= q < |order| ==> c[q] >= 0 && d[q] >= 0
    requires Tight(goals, storage, StepsOf(order, choice, c), order, choice, c)
    requires Settled(goals, storage, StepsOf(order, choice, d), order, choice, |order|)
    ensures forall q :: 0 <= q < p ==> c[q] <= d[q]
  {
    if p > 0 {
      var k := p - 1;
      LeastUpTo(goals, storage, table, order, choice, c, d, k);
      if c[k] > 0 {
        var u := order[k];
        assert u in choice;
        BalanceAt(goals, storage, table, order, choice, c, k);
        BalanceAt(goals, storage, table, order, choice, d, k);
        assert Balance(goals, storage, StepsOf(order, choice, d), order[k]) >= 0;
        assert Balance(goals, storage, StepsOf(order, choice, c), order[k]) < choice[u].results[0].amount;
        DemandGrows(table, order, choice, c, d, k, u);
        MultipleBelow(choice[u].results[0].amount, c[k], d[k]);
      }
    }
  }

  /**
    The planned repeats are the pointwise least vector that covers every craftable item's
    demand beyond stock, and no crafted item is left with a whole output to spare.
   */
  lemma LeastPlan(goals: seq<Stack>, storage: map<Uid, int>, table: seq<Recipe>,
                  plan: Plan, choice: map<Uid, Recipe>, counts: seq<int>, other: seq<int>)
    requires IsPlan(goals, storage, table, plan, choice, counts) && SingleResults(table)
    requires forall r :: r in table ==> WellFormed(r)
    requires |other| == |plan.items| && forall q :: 0 <= q < |other| ==> other[q] >= 0
    requires Settled(goals, storage, StepsOf(plan.items, choice, other), plan.items, choice, |plan.items|)
    ensures Settled(goals, storage, StepsOf(plan.items, choice, counts), plan.items, choice, |plan.items|)
    ensures Tight(goals, storage, StepsOf(plan.items, choice, counts), plan.items, choice, counts)
    ensures forall q :: 0 <= q < |plan.items| ==> 0 <= counts[q] <= other[q]
  {
    assert plan.items[..|counts|] == plan.items;
    LeastUpTo(goals, storage, table, plan.items, choice, counts, other, |plan.items|);
  }

  // ---------------------------------------------------------------- executability

  /** What running a step does to the stock; catalysts come back. */
  function Apply(stock: map<Uid, int>, s: Step): map<Uid, int> {
    map u | u in stock.Keys + Uids(s.recipe.results) + Uids(s.recipe.ingredients) ::
      Get(stock, u) + AmountOf(s.recipe.results, u) * s.repeats - AmountOf(s.recipe.ingredients, u) * s.repeats
  }

  lemma ApplyGet(stock: map<Uid, int>, s: Step, u: Uid)
    ensures Get(Apply(stock, s), u)
      == Get(stock, u) + AmountOf(s.recipe.results, u) * s.repeats - AmountOf(s.recipe.ingredients, u) * s.repeats
  {
    if u !in Apply(stock, s) {
      NoAmount(s.recipe.results, u);
      NoAmount(s.recipe.ingredients, u);
    }
  }

  /** Before the step every ingredient for all its repeats is there, beside its catalysts. */
  ghost predicate Present(stock: map<Uid, int>, s: Step) {
    forall u :: Get(stock, u) >= AmountOf(s.recipe.ingredients, u) * s.repeats + MaxAmountOf(s.recipe.catalysts, u)
  }

  /** The steps can run from the last to the first without missing an item. */
  ghost predicate Runnable(stock: map<Uid, int>, steps: seq<Step>)
    decreases |steps|
  {
    steps == [] ||
    var last := steps[|steps| - 1];
    NonNegative(stock) && Present(stock, last) && Runnable(Apply(stock, last), steps[..|steps| - 1])
  }

  function FinalStock(stock: map<Uid, int>, steps: seq<Step>): map<Uid, int>
    decreases |steps|
  {
    if steps == [] then stock
    else FinalStock(Apply(stock, steps[|steps| - 1]), steps[..|steps| - 1])
  }

  /** No step takes in what itself or a step before it produces. */
  ghost predicate ProducersLater(steps: seq<Step>) {
    forall a, b, u :: (0 <= a <= b < |steps| && Mentions(steps[a].recipe.results, u)) ==> !IsInput(steps[b].recipe, u)
  }

  /** Every step of a count vector crafts an item of the order it was built from. */
  lemma {:induction false} StepsOfPlaces(order: seq<Uid>, choice: map<Uid, Recipe>, counts: seq<int>, k: nat)
    returns (p: nat)
    requires |counts| == |order| && k < |StepsOf(order, choice, counts)|
    ensures p < |order| && order[p] in choice && StepsOf(order, choice, counts)[k].recipe == choice[order[p]]
  {
    var n := |order| - 1;
    var init := StepsOf(order[..n], choice, counts[..n]);
    if k < |init| {
      p := StepsOfPlaces(order[..n], choice, counts[..n], k);
    } else {
      p := n;
    }
  }

  lemma {:induction false} StepsOfProducersLater(table: seq<Recipe>, order: seq<Uid>, choice: map<Uid, Recipe>,
                                                 counts: seq<int>, j: nat)
    requires Ready(table, order, choice) && SingleResults(table)
    requires |counts| == |order| && j <= |order|
    ensures ProducersLater(StepsOf(order[..j], choice, counts[..j]))
  {
    if j > 0 {
      var k := j - 1;
      StepsOfProducersLater(table, order, choice, counts, k);
      assert counts[..j] == counts[..k] + [counts[k]];
      StepsOfGrow(order, choice, counts[..k], k, counts[k]);
      var init, steps := StepsOf(order[..k], choice, counts[..k]), StepsOf(order[..j], choice, counts[..j]);
      if order[k] in choice && counts[k] > 0 {
        forall a, b, u | 0 <= a <= b < |steps| && Mentions(steps[a].recipe.results, u)
          ensures !IsInput(steps[b].recipe, u)
        {
          if b < |init| {
            assert steps[a] == init[a] && steps[b] == init[b];
          } else {
            var p := k;
            if a < |init| {
              p := StepsOfPlaces(order[..k], choice, counts[..k], a);
              assert order[..k][p] == order[p];
            }
            assert Crafts(choice[order[p]], order[p]) && choice[order[p]] in table;
            assert u == order[p];
          }
        }
      }
    }
  }

  lemma {:induction false} NotProduced(steps: seq<Step>, u: Uid)
    requires forall a :: 0 <= a < |steps| ==> !Mentions(steps[a].recipe.results, u)
    ensures Produced(steps, u) == 0
  {
    if steps != [] {
      NotProduced(steps[..|steps| - 1], u);
      NoAmount(steps[|steps| - 1].recipe.results, u);
    }
  }

  /** The stock is what the remaining steps still need: their use beyond their output, and their catalysts. */
  ghost predicate Suffices(stock: map<Uid, int>, steps: seq<Step>) {
    forall u :: Get(stock, u) + Produced(steps, u) >= Used(steps, u) + Held(steps, u)
  }

  lemma BackStep(table: seq<Recipe>, items: set<Uid>, stock: map<Uid, int>, init: seq<Step>, last: Step, u: Uid)
    requires StepsFrom(table, items, init + [last]) && (forall r :: r in table ==> WellFormed(r))
    requires ProducersLater(init + [last]) && Get(stock, u) >= 0
    requires Get(stock, u) + Produced(init + [last], u) >= Used(init + [last], u) + Held(init + [last], u)
    ensures Get(stock, u) >= AmountOf(last.recipe.ingredients, u) * last.repeats + MaxAmountOf(last.recipe.catalysts, u)
    ensures Get(Apply(stock, last), u) >= 0
    ensures Get(Apply(stock, last), u) + Produced(init, u) >= Used(init, u) + Held(init, u)
    ensures Get(Apply(stock, last), u) + Produced(init, u) - Used(init, u)
      == Get(stock, u) + Produced(init + [last], u) - Used(init + [last], u)
  {
    StepsGrow(init, last, u);
    ApplyGet(stock, last, u);
    assert StepsFrom(table, items, init) && last.recipe in table && last.repeats > 0 by {
      assert (init + [last])[|init|] == last && forall k :: 0 <= k < |init| ==> (init + [last])[k] == init[k];
    }
    ProducedNonNegative(table, items, init, u);
    StepSigns(last, u);
    if IsInput(last.recipe, u) {
      InputNotProduced(init, last, u);
    } else {
      UntouchedByStep(last, u);
    }
    hide Apply, Produced, Used, Held, AmountOf, MaxAmountOf, ProducersLater, WellFormed, IsInput, StepsFrom;
  }

  lemma StepSigns(s: Step, u: Uid)
    requires WellFormed(s.recipe) && s.repeats > 0
    ensures AmountOf(s.recipe.results, u) * s.repeats >= 0 && AmountOf(s.recipe.ingredients, u) * s.repeats >= 0
  {
    PositiveWhenMentioned(s.recipe.results, u);
    PositiveWhenMentioned(s.recipe.ingredients, u);
  }

  lemma UntouchedByStep(s: Step, u: Uid)
    requires !IsInput(s.recipe, u)
    ensures AmountOf(s.recipe.ingredients, u) * s.repeats == 0 && MaxAmountOf(s.recipe.catalysts, u) == 0
  {
    NoAmount(s.recipe.ingredients, u);
    NoAmount(s.recipe.catalysts, u);
  }

  lemma InputNotProduced(init: seq<Step>, last: Step, u: Uid)
    requires ProducersLater(init + [last]) && IsInput(last.recipe, u)
    ensures Produced(init, u) == 0 && AmountOf(last.recipe.results, u) * last.repeats == 0
  {
    var steps := init + [last];
    var n := |init|;
    assert steps[n] == last;
    forall a | 0 <= a < n ensures !Mentions(init[a].recipe.results, u) {
      assert steps[a] == init[a];
    }
    NotProduced(init, u);
    NoAmount(last.recipe.results, u);
  }

  lemma {:induction false} RunsBackwards(table: seq<Recipe>, items: set<Uid>, stock: map<Uid, int>, steps: seq<Step>)
    requires StepsFrom(table, items, steps) && (forall r :: r in table ==> WellFormed(r))
    requires ProducersLater(steps) && NonNegative(stock) && Suffices(stock, steps)
    ensures Runnable(stock, steps)
    ensures NonNegative(FinalStock(stock, steps))
    ensures forall u :: Get(FinalStock(stock, steps), u) == Get(stock, u) + Produced(steps, u) - Used(steps, u)
    decreases |steps|
  {
    if steps != [] {
      var n := |steps| - 1;
      var init, last := steps[..n], steps[n];
      var next := Apply(stock, last);
      assert init + [last] == steps;
      assert StepsFrom(table, items, init) && ProducersLater(init) by {
        assert forall k :: 0 <= k < n ==> init[k] == steps[k];
      }
      hide Apply, Produced, Used, Held, AmountOf, MaxAmountOf, StepsFrom, ProducersLater, WellFormed;
      forall u
        ensures Get(stock, u) >= AmountOf(last.recipe.ingredients, u) * last.repeats
          + MaxAmountOf(last.recipe.catalysts, u)
        ensures Get(next, u) >= 0
        ensures Get(next, u) + Produced(init, u) >= Used(init, u) + Held(init, u)
        ensures Get(next, u) + Produced(init, u) - Used(init, u) == Get(stock, u) + Produced(steps, u) - Used(steps, u)
      {
        BackStep(table, items, stock, init, last, u);
      }
      RunsBackwards(table, items, next, init);
    }
  }

  /**
    A plan whose balances are all non-negative can be run, last step first, from the stock it
    assumed: nothing goes negative, each step finds its ingredients and catalysts, and in the
    end the goals are there beside the borrowed catalysts.
   */
  lemma ExecutablePlan(goals: seq<Stack>, storage: map<Uid, int>, table: seq<Recipe>,
                       plan: Plan, choice: map<Uid, Recipe>, counts: seq<int>, stock: map<Uid, int>)
    requires IsPlan(goals, storage, table, plan, choice, counts) && SingleResults(table)
    requires (forall r :: r in table ==> WellFormed(r)) && NonNegative(storage)
    requires forall i :: 0 <= i < |goals| ==> goals[i].count >= 0
    requires AllCovered(goals, storage, plan.steps)
    requires forall u :: Get(stock, u) == Assumed(goals, storage, u)
    ensures Runnable(stock, plan.steps)
    ensures forall u :: Get(FinalStock(stock, plan.steps), u) >= GoalOf(goals, u) + Held(plan.steps, u)
  {
    var items := Closure(table, GoalUids(goals));
    assert plan.items[..|counts|] == plan.items && counts[..|counts|] == counts;
    StepsOfAreFrom(table, items, plan.items, choice, counts);
    StepsOfProducersLater(table, plan.items, choice, counts, |counts|);
    forall u ensures Get(stock, u) + Produced(plan.steps, u) >= Used(plan.steps, u) + Held(plan.steps, u) {
      GoalNonNegative(goals, u);
      assert Balance(goals, storage, plan.steps, u) >= 0;
    }
    RunsBackwards(table, items, stock, plan.steps);
    forall u ensures Get(FinalStock(stock, plan.steps), u) >= GoalOf(goals, u) + Held(plan.steps, u) {
      assert Balance(goals, storage, plan.steps, u) >= 0;
    }
  }

  lemma {:induction false} GoalNonNegative(goals: seq<Stack>, u: Uid)
    requires forall i :: 0 <= i < |goals| ==> goals[i].count >= 0
    ensures GoalOf(goals, u) >= 0
  {
    if goals != [] {
      GoalNonNegative(goals[..|goals| - 1], u);
    }
  }
}
