/** An accepted plan never deadlocks, and every submission and completion brings it nearer its end. */
module Progress {
  import opened Recipes
  import opened RecipeClosure
  import opened Planner
  import opened PlanTheorems
  import opened Sums
  import opened Ledger
  import opened LedgerInvariant
  import opened LedgerRuns
  import opened Scheduler
  import opened PlanAcceptance
  import opened PlanRuns

  // ---------------------------------------------------------------- the accepted plan

  /** Stock and tables right after an accepted plan was written to empty tables. */
  ghost predicate Accepted(book: Book, plan: int, goals: seq<Stack>, storage: map<Uid, int>,
                           steps: seq<Planner.Step>, planSteps: seq<PlanStep>, w: World) {
    && GoodBook(book)
    && (forall i :: 0 <= i < |goals| ==> goals[i].count >= 0)
    && (forall i :: 0 <= i < |steps| ==>
        steps[i].recipe.id in book && book[steps[i].recipe.id] == steps[i].recipe && steps[i].repeats > 0)
    && DistinctRecipes(steps) && NonNegative(storage) && AllCovered(goals, storage, steps)
    && PlanWritten(EmptyTables, w.t, plan, goals, storage, steps, planSteps)
    && (forall u :: Get(w.phys, u) >= Get(storage, u))
  }

  /** The use of each step, keyed as its row. */
  ghost function UseRows(plan: int, steps: seq<Planner.Step>, u: Uid): map<StepKey, int> {
    if steps == [] then map[]
    else
      var last := steps[|steps| - 1];
      UseRows(plan, steps[..|steps| - 1], u)[StepKey(plan, last.recipe.id) := Need(last.recipe, u, last.repeats)]
  }

  ghost function YieldRows(plan: int, steps: seq<Planner.Step>, u: Uid): map<StepKey, int> {
    if steps == [] then map[]
    else
      var last := steps[|steps| - 1];
      YieldRows(plan, steps[..|steps| - 1], u)[StepKey(plan, last.recipe.id) := Yield(last.recipe, u, last.repeats)]
  }

  ghost predicate DistinctIds(steps: seq<Planner.Step>) {
    forall a, b :: 0 <= a < b < |steps| ==> steps[a].recipe.id != steps[b].recipe.id
  }

  predicate HasStep(steps: seq<Planner.Step>, id: int) {
    exists i :: 0 <= i < |steps| && steps[i].recipe.id == id
  }

  lemma HasStepGrows(steps: seq<Planner.Step>, id: int)
    requires steps != []
    ensures HasStep(steps, id) <==> HasStep(steps[..|steps| - 1], id) || steps[|steps| - 1].recipe.id == id
  {
    var init := steps[..|steps| - 1];
    if HasStep(init, id) {
      var i :| 0 <= i < |init| && init[i].recipe.id == id;
      assert steps[i].recipe.id == id;
    }
    if HasStep(steps, id) {
      var i :| 0 <= i < |steps| && steps[i].recipe.id == id;
      assert i < |init| ==> init[i].recipe.id == id;
    }
  }

  lemma {:induction false} RowKeys(plan: int, steps: seq<Planner.Step>, u: Uid, k: StepKey)
    ensures k in UseRows(plan, steps, u) <==> k.plan == plan && HasStep(steps, k.recipe)
    ensures k in YieldRows(plan, steps, u) <==> k.plan == plan && HasStep(steps, k.recipe)
  {
    if steps != [] {
      RowKeys(plan, steps[..|steps| - 1], u, k);
      HasStepGrows(steps, k.recipe);
    }
  }

  lemma {:induction false} RowValues(plan: int, steps: seq<Planner.Step>, u: Uid, i: nat)
    requires DistinctIds(steps) && i < |steps|
    ensures var k := StepKey(plan, steps[i].recipe.id);
      && k in UseRows(plan, steps, u) && UseRows(plan, steps, u)[k] == Need(steps[i].recipe, u, steps[i].repeats)
      && k in YieldRows(plan, steps, u) && YieldRows(plan, steps, u)[k] == Yield(steps[i].recipe, u, steps[i].repeats)
  {
    var n := |steps| - 1;
    if i < n {
      assert steps[..n][i] == steps[i];
      RowValues(plan, steps[..n], u, i);
    }
  }

  lemma {:induction false} RowSums(plan: int, steps: seq<Planner.Step>, u: Uid)
    requires DistinctIds(steps)
    ensures Sum(UseRows(plan, steps, u)) == Used(steps, u)
    ensures Sum(YieldRows(plan, steps, u)) == Produced(steps, u)
  {
    if steps != [] {
      var n := |steps| - 1;
      var init, last := steps[..n], steps[n];
      RowSums(plan, init, u);
      var k := StepKey(plan, last.recipe.id);
      RowKeys(plan, init, u, k);
      assert forall i :: 0 <= i < n ==> init[i].recipe.id != last.recipe.id;
      SumUpdate(UseRows(plan, init, u), k, Need(last.recipe, u, last.repeats));
      SumUpdate(YieldRows(plan, init, u), k, Yield(last.recipe, u, last.repeats));
    }
  }

  lemma IdsDistinct(book: Book, steps: seq<Planner.Step>)
    requires DistinctRecipes(steps)
    requires forall i :: 0 <= i < |steps| ==> steps[i].recipe.id in book && book[steps[i].recipe.id] == steps[i].recipe
    ensures DistinctIds(steps)
  {
    forall a, b | 0 <= a < b < |steps| ensures steps[a].recipe.id != steps[b].recipe.id {
      assert book[steps[a].recipe.id] == steps[a].recipe && book[steps[b].recipe.id] == steps[b].recipe;
    }
  }

  lemma StepRowKeys(steps: seq<Planner.Step>, planSteps: seq<PlanStep>, rows: map<int, int>, id: int)
    requires IsStepRows(steps, planSteps, rows)
    ensures id in rows <==> HasStep(steps, id)
  {
  }

  /** One written step row against the rows computed from the steps. */
  lemma WrittenRow(book: Book, plan: int, steps: seq<Planner.Step>, planSteps: seq<PlanStep>, stepRows: map<int, int>,
                   u: Uid, k: StepKey)
    requires IsStepRows(steps, planSteps, stepRows) && DistinctIds(steps)
    requires forall i :: 0 <= i < |steps| ==> steps[i].recipe.id in book && book[steps[i].recipe.id] == steps[i].recipe
    ensures k in PlanSteps(plan, stepRows) <==> k in UseRows(plan, steps, u)
    ensures k in PlanSteps(plan, stepRows) <==> k in YieldRows(plan, steps, u)
    ensures k in PlanSteps(plan, stepRows) ==>
      && UseRows(plan, steps, u)[k] == Need(RecipeOf(book, k.recipe), u, PlanSteps(plan, stepRows)[k])
      && YieldRows(plan, steps, u)[k] == Yield(RecipeOf(book, k.recipe), u, PlanSteps(plan, stepRows)[k])
  {
    RowKeys(plan, steps, u, k);
    StepRowKeys(steps, planSteps, stepRows, k.recipe);
    if k in PlanSteps(plan, stepRows) {
      var i :| 0 <= i < |steps| && steps[i].recipe.id == k.recipe;
      RowValues(plan, steps, u, i);
      assert k == StepKey(plan, steps[i].recipe.id);
    }
  }

  lemma WrittenSums(book: Book, plan: int, steps: seq<Planner.Step>, planSteps: seq<PlanStep>,
                    rows: map<Uid, Row>, stepRows: map<int, int>, t: Tables, u: Uid)
    requires IsStepRows(steps, planSteps, stepRows) && DistinctIds(steps)
    requires forall i :: 0 <= i < |steps| ==> steps[i].recipe.id in book && book[steps[i].recipe.id] == steps[i].recipe
    requires t == AfterInsertPlan(EmptyTables, plan, rows, stepRows)
    ensures Sum(StepUse(book, t, u)) == Used(steps, u) && Sum(StepYield(book, t, u)) == Produced(steps, u)
    ensures Sum(CraftYield(book, t, u)) == 0 && Sum(CraftShare(book, t, u)) == 0
  {
    hide PlanRows, PlanSteps, Sum, Need, Yield, IsStepRows;
    RowSums(plan, steps, u);
    assert t.steps == PlanSteps(plan, stepRows);
    forall k ensures
      && (k in t.steps <==> k in UseRows(plan, steps, u)) && (k in t.steps <==> k in YieldRows(plan, steps, u))
      && (k in t.steps ==> UseRows(plan, steps, u)[k] == Need(RecipeOf(book, k.recipe), u, t.steps[k]))
      && (k in t.steps ==> YieldRows(plan, steps, u)[k] == Yield(RecipeOf(book, k.recipe), u, t.steps[k]))
    {
      WrittenRow(book, plan, steps, planSteps, stepRows, u, k);
    }
    hide UseRows, YieldRows;
    assert StepUse(book, t, u) == UseRows(plan, steps, u);
    assert StepYield(book, t, u) == YieldRows(plan, steps, u);
    SumZero(CraftYield(book, t, u));
    SumZero(CraftShare(book, t, u));
  }

  lemma {:induction false} UsedNonNegative(book: Book, steps: seq<Planner.Step>, u: Uid)
    requires GoodBook(book)
    requires forall i :: 0 <= i < |steps| ==>
      steps[i].recipe.id in book && book[steps[i].recipe.id] == steps[i].recipe && steps[i].repeats > 0
    ensures Used(steps, u) >= 0
  {
    if steps != [] {
      UsedNonNegative(book, steps[..|steps| - 1], u);
      var last := steps[|steps| - 1];
      PositiveWhenMentioned(last.recipe.ingredients, u);
      assert AmountOf(last.recipe.ingredients, u) * last.repeats >= 0;
    }
  }

  lemma WrittenValid(book: Book, plan: int, goals: seq<Stack>, storage: map<Uid, int>, steps: seq<Planner.Step>,
                     planSteps: seq<PlanStep>, w: World, rows: map<Uid, Row>, stepRows: map<int, int>)
    requires Accepted(book, plan, goals, storage, steps, planSteps, w)
    requires IsItemRows(goals, storage, steps, rows) && IsStepRows(steps, planSteps, stepRows)
    requires w.t == AfterInsertPlan(EmptyTables, plan, rows, stepRows)
    ensures Valid(book, w.t) && OnePlan(book, plan, steps, w.t)
  {
    hide Valid, AllCovered, NonNegative, IsItemRows, IsStepRows, PlanWritten, DistinctRecipes, GoodRow, PlanRows,
      PlanSteps;
    WrittenRowsGood(book, goals, storage, steps, rows);
    NothingIsValid(book);
    StepRowsGood(book, steps, planSteps, stepRows);
    InsertPlanKeeps(book, EmptyTables, plan, rows, stepRows);
    forall k ensures k in w.t.steps <==> k.plan == plan && HasStep(steps, k.recipe) {
      StepRowKeys(steps, planSteps, stepRows, k.recipe);
    }
  }

  lemma WrittenRowsGood(book: Book, goals: seq<Stack>, storage: map<Uid, int>, steps: seq<Planner.Step>,
                        rows: map<Uid, Row>)
    requires GoodBook(book) && NonNegative(storage) && IsItemRows(goals, storage, steps, rows)
    requires forall i :: 0 <= i < |goals| ==> goals[i].count >= 0
    requires forall i :: 0 <= i < |steps| ==>
      steps[i].recipe.id in book && book[steps[i].recipe.id] == steps[i].recipe && steps[i].repeats > 0
    ensures forall u :: u in rows ==> GoodRow(rows[u])
  {
    forall u | u in rows ensures GoodRow(rows[u]) {
      GoalNonNegative(goals, u);
      UsedNonNegative(book, steps, u);
      assert Get(storage, u) >= 0;
    }
  }

  lemma StepRowsGood(book: Book, steps: seq<Planner.Step>, planSteps: seq<PlanStep>, stepRows: map<int, int>)
    requires IsStepRows(steps, planSteps, stepRows)
    requires forall i :: 0 <= i < |steps| ==> steps[i].repeats > 0
    ensures forall r :: r in stepRows ==> stepRows[r] >= 0
  {
  }

  /** An accepted plan starts with the invariant. */
  lemma AcceptedInv(book: Book, plan: int, goals: seq<Stack>, storage: map<Uid, int>,
                    steps: seq<Planner.Step>, planSteps: seq<PlanStep>, w: World)
    requires Accepted(book, plan, goals, storage, steps, planSteps, w)
    ensures Inv(book, plan, goals, steps, w)
  {
    IdsDistinct(book, steps);
    var rows, stepRows :| IsItemRows(goals, storage, steps, rows) && IsStepRows(steps, planSteps, stepRows)
      && w.t == AfterInsertPlan(EmptyTables, plan, rows, stepRows);
    WrittenValid(book, plan, goals, storage, steps, planSteps, w, rows, stepRows);
    hide Valid, OnePlan, ItemInv, IsItemRows, IsStepRows, DistinctRecipes, DistinctIds, PlanWritten;
    forall u ensures ItemInv(book, plan, goals, steps, w, u) {
      WrittenSums(book, plan, steps, planSteps, rows, stepRows, w.t, u);
      WrittenItem(plan, goals, storage, steps, w, rows, stepRows, u);
      StartsCovered(book, plan, goals, storage, steps, w, u);
    }
  }

  lemma StartsCovered(book: Book, plan: int, goals: seq<Stack>, storage: map<Uid, int>, steps: seq<Planner.Step>,
                      w: World, u: Uid)
    requires AllCovered(goals, storage, steps) && Get(w.phys, u) >= Get(storage, u)
    requires RequiredIn(w.t, plan, u) == Demand(goals, steps, u)
    requires Get(w.t.reserve, u) <= Get(storage, u) && Assumed(goals, storage, u) <= Get(storage, u)
    requires Sum(StepUse(book, w.t, u)) == Used(steps, u) && Sum(StepYield(book, w.t, u)) == Produced(steps, u)
    requires Sum(CraftYield(book, w.t, u)) == 0 && Sum(CraftShare(book, w.t, u)) == 0
    ensures ItemInv(book, plan, goals, steps, w, u)
  {
    assert Balance(goals, storage, steps, u) >= 0;
  }

  lemma WrittenItem(plan: int, goals: seq<Stack>, storage: map<Uid, int>, steps: seq<Planner.Step>,
                    w: World, rows: map<Uid, Row>, stepRows: map<int, int>, u: Uid)
    requires IsItemRows(goals, storage, steps, rows) && NonNegative(storage)
    requires w.t == AfterInsertPlan(EmptyTables, plan, rows, stepRows)
    ensures RequiredIn(w.t, plan, u) == Demand(goals, steps, u)
    ensures Get(w.t.reserve, u) <= Get(storage, u) && Assumed(goals, storage, u) <= Get(storage, u)
  {
    hide PlanRows, PlanSteps, Balance;
    assert Get(storage, u) >= 0;
    assert w.t.items == PlanRows(plan, rows);
  }

  lemma {:induction false} RunKeepsInv(book: Book, plan: int, goals: seq<Stack>, steps: seq<Planner.Step>,
      worlds: seq<World>, moves: seq<Move>)
    requires IsPlanRun(book, plan, worlds, moves) && Inv(book, plan, goals, steps, worlds[0])
    ensures forall i :: 0 <= i < |worlds| ==> Inv(book, plan, goals, steps, worlds[i])
    decreases |moves|
  {
    hide Inv, PlanRuns.Step;
    if moves != [] {
      var n := |moves| - 1;
      var worlds', moves' := worlds[..n + 1], moves[..n];
      assert forall i :: 0 <= i <= n ==> worlds'[i] == worlds[i];
      assert IsPlanRun(book, plan, worlds', moves') by {
        forall i | 0 <= i < n ensures PlanRuns.Step(book, plan, worlds'[i], moves'[i], worlds'[i + 1]) {
          assert PlanRuns.Step(book, plan, worlds[i], moves[i], worlds[i + 1]);
        }
      }
      RunKeepsInv(book, plan, goals, steps, worlds', moves');
      assert worlds'[n] == worlds[n];
      StepKeepsInv(book, plan, goals, steps, worlds[n], moves[n], worlds[n + 1]);
    }
  }

  // ---------------------------------------------------------------- no deadlock

  /** No step asks the scheduler for more of a catalyst than the plan keeps required to the end. */
  ghost predicate CatalystsKept(goals: seq<Stack>, steps: seq<Planner.Step>) {
    forall i, u :: 0 <= i < |steps| ==> AmountOf(steps[i].recipe.catalysts, u) <= Base(goals, steps, u)
  }

  /** Every short item was topped up: nothing of it is left beyond the reserve. */
  ghost predicate ToppedUp(plan: int, w: World) {
    forall u :: ItemKey(plan, u) in w.t.items && Short(w.t.items[ItemKey(plan, u)]) ==>
      Get(w.phys, u) <= Get(w.t.reserve, u)
  }

  /** A recipe that lists no catalyst twice asks for no more than the planner holds. */
  lemma {:induction false} HeldAtLeast(steps: seq<Planner.Step>, i: nat, u: Uid)
    requires i < |steps|
    ensures Held(steps, u) >= MaxAmountOf(steps[i].recipe.catalysts, u)
  {
    var n := |steps| - 1;
    if i < n {
      assert steps[..n][i] == steps[i];
      HeldAtLeast(steps[..n], i, u);
    }
  }

  lemma DistinctCatalystsAreKept(goals: seq<Stack>, steps: seq<Planner.Step>)
    requires forall i :: 0 <= i < |goals| ==> goals[i].count >= 0
    requires forall i :: 0 <= i < |steps| ==>
      PositiveAmounts(steps[i].recipe.catalysts) && DistinctUids(steps[i].recipe.catalysts)
    ensures CatalystsKept(goals, steps)
  {
    forall i, u | 0 <= i < |steps| ensures AmountOf(steps[i].recipe.catalysts, u) <= Base(goals, steps, u) {
      GoalNonNegative(goals, u);
      HeldAtLeast(steps, i, u);
      SumIsMaxWhenDistinct(steps[i].recipe.catalysts, u);
    }
  }

  /** The reserve of an item is what the only plan holds of it and what its crafts still take in. */
  lemma ReserveSplits(book: Book, plan: int, t: Tables, u: Uid)
    requires Balanced(book, t) && forall k :: k in t.items ==> k.plan == plan
    ensures Get(t.reserve, u) == AmountIn(t, plan, u) + Sum(CraftShare(book, t, u))
  {
    assert Get(t.reserve, u) == Claimed(book, t, u);
    var k := ItemKey(plan, u);
    if k in t.items {
      assert PlanShare(t, u) == map[k := t.items[k].amount];
      SumRemove(PlanShare(t, u), k);
      assert PlanShare(t, u) - {k} == map[];
    } else {
      assert PlanShare(t, u) == map[];
    }
  }

  /** A topped-up plan holds all it requires of an item that no remaining step or craft produces. */
  lemma FullyHeld(book: Book, plan: int, goals: seq<Stack>, steps: seq<Planner.Step>, w: World, u: Uid)
    requires Inv(book, plan, goals, steps, w) && ToppedUp(plan, w)
    requires Sum(StepYield(book, w.t, u)) == 0 == Sum(CraftYield(book, w.t, u))
    ensures AmountIn(w.t, plan, u) == RequiredIn(w.t, plan, u)
  {
    assert ItemInv(book, plan, goals, steps, w, u);
    ReserveSplits(book, plan, w.t, u);
    var k := ItemKey(plan, u);
    if k in w.t.items {
      assert GoodRow(w.t.items[k]);
    }
    hide Sum, StepYield, CraftYield, StepUse, CraftShare;
  }

  /** What a remaining step needs of an item is part of what the plan still requires. */
  lemma StepPart(book: Book, t: Tables, k: StepKey, u: Uid)
    requires Valid(book, t) && k in t.steps && k.recipe in book && (forall j :: j in t.steps ==> j.recipe in book)
    ensures Sum(StepUse(book, t, u)) >= Need(book[k.recipe], u, t.steps[k])
  {
    forall j | j in t.steps ensures StepUse(book, t, u)[j] >= 0 {
      NeedBounds(book, j.recipe, u, 0, t.steps[j]);
    }
    SumNonNegative(StepUse(book, t, u));
    assert StepUse(book, t, u)[k] <= Sum(StepUse(book, t, u));
  }

  lemma LastOpenStep(plan: int, steps: seq<Planner.Step>, t: Tables) returns (b: nat)
    requires forall k :: k in t.steps ==> t.steps[k] >= 0
    requires forall i :: 0 <= i < |steps| ==> StepKey(plan, steps[i].recipe.id) in t.steps
    requires exists i :: 0 <= i < |steps| && t.steps[StepKey(plan, steps[i].recipe.id)] > 0
    ensures b < |steps| && t.steps[StepKey(plan, steps[b].recipe.id)] > 0
    ensures forall a :: b < a < |steps| ==> t.steps[StepKey(plan, steps[a].recipe.id)] == 0
  {
    var i :| 0 <= i < |steps| && t.steps[StepKey(plan, steps[i].recipe.id)] > 0;
    b := |steps| - 1;
    while t.steps[StepKey(plan, steps[b].recipe.id)] == 0
      invariant i <= b < |steps|
      decreases b
      invariant forall a :: b < a < |steps| ==> t.steps[StepKey(plan, steps[a].recipe.id)] == 0
    {
      b := b - 1;
    }
  }

  lemma LaterStepGivesNone(steps: seq<Planner.Step>, a: nat, b: nat, u: Uid, n: int)
    requires ProducersLater(steps) && a <= b < |steps| && IsInput(steps[b].recipe, u)
    ensures Yield(steps[a].recipe, u, n) == 0
  {
    NoAmount(steps[a].recipe.results, u);
  }

  /** The inputs of the last step with repeats left are produced by no remaining step. */
  lemma InputsNotComing(book: Book, plan: int, steps: seq<Planner.Step>, t: Tables, b: nat, u: Uid)
    requires OnePlan(book, plan, steps, t) && ProducersLater(steps) && b < |steps| && IsInput(steps[b].recipe, u)
    requires forall a :: b < a < |steps| ==> t.steps[StepKey(plan, steps[a].recipe.id)] == 0
    ensures Sum(StepYield(book, t, u)) == 0
  {
    forall k | k in t.steps ensures Yield(RecipeOf(book, k.recipe), u, t.steps[k]) == 0 {
      hide ProducersLater, IsInput;
      var a :| 0 <= a < |steps| && steps[a].recipe.id == k.recipe;
      assert k == StepKey(plan, steps[a].recipe.id);
      if a <= b {
        LaterStepGivesNone(steps, a, b, u, t.steps[k]);
      }
    }
    SumZero(StepYield(book, t, u));
  }

  /** Every craft is of one of the first steps, up to step `b`. */
  ghost predicate CraftsUpTo(steps: seq<Planner.Step>, b: int, t: Tables) {
    forall c :: c in t.crafts ==> exists a :: 0 <= a <= b && a < |steps| && steps[a].recipe.id == t.crafts[c].recipe
  }

  lemma InputsNotCrafted(book: Book, plan: int, steps: seq<Planner.Step>, t: Tables, b: nat, u: Uid)
    requires OnePlan(book, plan, steps, t) && ProducersLater(steps) && b < |steps| && IsInput(steps[b].recipe, u)
    requires CraftsUpTo(steps, b, t)
    ensures Sum(CraftYield(book, t, u)) == 0
  {
    forall c | c in t.crafts ensures Yield(RecipeOf(book, t.crafts[c].recipe), u, t.crafts[c].repeats) == 0 {
      hide ProducersLater, IsInput;
      var a :| 0 <= a <= b && a < |steps| && steps[a].recipe.id == t.crafts[c].recipe;
      LaterStepGivesNone(steps, a, b, u, t.crafts[c].repeats);
    }
    SumZero(CraftYield(book, t, u));
  }

  /** The current row of a step, as a fresh read of the plan lists it. */
  function RowOf(plan: int, t: Tables, s: Planner.Step): PlanStep
    requires StepKey(plan, s.recipe.id) in t.steps
  {
    PlanStep(s.recipe.id, t.steps[StepKey(plan, s.recipe.id)])
  }

  /**
    When every short item is topped up, a step with repeats left can be submitted as soon as no
    later step has repeats left or crafts under way: its inputs are all there.
   */
  lemma LastStepFits(book: Book, plan: int, goals: seq<Stack>, steps: seq<Planner.Step>, w: World, b: nat)
    requires Inv(book, plan, goals, steps, w) && ProducersLater(steps) && CatalystsKept(goals, steps)
    requires ToppedUp(plan, w) && b < |steps| && CraftsUpTo(steps, b, w.t)
    requires forall i :: 0 <= i < |steps| ==> StepKey(plan, steps[i].recipe.id) in w.t.steps
    requires w.t.steps[StepKey(plan, steps[b].recipe.id)] > 0
    requires forall a :: b < a < |steps| ==> w.t.steps[StepKey(plan, steps[a].recipe.id)] == 0
    ensures CanSubmit(book, w.t, plan, RowOf(plan, w.t, steps[b]))
  {
    var r := steps[b].recipe;
    forall u ensures Intake(r, u) * 1 <= AmountIn(w.t, plan, u) {
      OpenStepHasInput(book, plan, goals, steps, w, b, u);
    }
    assert RecipeOf(book, r.id) == r && r.id in book;
  }

  /**
    In every state with repeats left, nothing outstanding and every short item topped up, the
    next check submits a craft.
   */
  lemma SomethingFits(book: Book, plan: int, goals: seq<Stack>, steps: seq<Planner.Step>, w: World)
    requires Inv(book, plan, goals, steps, w) && ProducersLater(steps) && CatalystsKept(goals, steps)
    requires w.t.crafts == map[] && ToppedUp(plan, w)
    requires forall i :: 0 <= i < |steps| ==> StepKey(plan, steps[i].recipe.id) in w.t.steps
    requires exists i :: 0 <= i < |steps| && w.t.steps[StepKey(plan, steps[i].recipe.id)] > 0
    ensures exists i :: 0 <= i < |steps| && CanSubmit(book, w.t, plan, RowOf(plan, w.t, steps[i]))
  {
    var b := LastOpenStep(plan, steps, w.t);
    LastStepFits(book, plan, goals, steps, w, b);
  }

  lemma OpenStepHasInput(book: Book, plan: int, goals: seq<Stack>, steps: seq<Planner.Step>, w: World, b: nat, u: Uid)
    requires Inv(book, plan, goals, steps, w) && ProducersLater(steps) && CatalystsKept(goals, steps)
    requires ToppedUp(plan, w) && b < |steps| && CraftsUpTo(steps, b, w.t)
    requires StepKey(plan, steps[b].recipe.id) in w.t.steps && w.t.steps[StepKey(plan, steps[b].recipe.id)] > 0
    requires forall a :: b < a < |steps| ==>
      StepKey(plan, steps[a].recipe.id) in w.t.steps && w.t.steps[StepKey(plan, steps[a].recipe.id)] == 0
    ensures Intake(steps[b].recipe, u) <= AmountIn(w.t, plan, u)
  {
    var r := steps[b].recipe;
    var k := StepKey(plan, r.id);
    assert RecipeOf(book, r.id) == r && r.id in book;
    IntakePositive(r, u);
    if IsInput(r, u) {
      InputsNotComing(book, plan, steps, w.t, b, u);
      InputsNotCrafted(book, plan, steps, w.t, b, u);
      FullyHeld(book, plan, goals, steps, w, u);
      StepPart(book, w.t, k, u);
      PositiveWhenMentioned(r.ingredients, u);
      ScaledMonotone(AmountOf(r.ingredients, u), 1, w.t.steps[k]);
      assert ItemInv(book, plan, goals, steps, w, u);
      assert AmountOf(r.catalysts, u) <= Base(goals, steps, u);
    } else {
      AmountsNonNegative(book, w.t, plan);
    }
  }

  // ---------------------------------------------------------------- termination

  ghost function CraftRepeats(t: Tables): map<int, int> {
    map c | c in t.crafts :: t.crafts[c].repeats
  }

  /** Twice the repeats still to submit plus those submitted and not yet completed. */
  ghost function Rank(t: Tables): int {
    2 * Sum(t.steps) + Sum(CraftRepeats(t))
  }

  predicate Works(m: Move) {
    m.Ledger? && (m.e.InsertCraft? || m.e.Complete? || m.e.CompleteWait?)
  }

  lemma RankNonNegative(book: Book, t: Tables)
    requires Valid(book, t)
    ensures Rank(t) >= 0
  {
    SumNonNegative(t.steps);
    forall c | c in t.crafts ensures CraftRepeats(t)[c] >= 0 {
      assert GoodCraft(book, t.crafts[c]);
    }
    SumNonNegative(CraftRepeats(t));
  }

  lemma CraftRepeatsWritten(t: Tables, t': Tables, id: int, c: Craft)
    requires t'.crafts == t.crafts[id := c]
    ensures Sum(CraftRepeats(t')) == Sum(CraftRepeats(t)) + c.repeats
      - if id in t.crafts then t.crafts[id].repeats else 0
  {
    assert CraftRepeats(t') == CraftRepeats(t)[id := c.repeats];
    SumUpdate(CraftRepeats(t), id, c.repeats);
  }

  lemma CompletionRanks(book: Book, t: Tables, t': Tables, id: int)
    requires Valid(book, t) && id in t.crafts && t.crafts[id].status.Committed?
    requires t' == AfterComplete(t, id).(waits := t'.waits)
    ensures Rank(t') < Rank(t)
  {
    assert GoodCraft(book, t.crafts[id]);
    if id in t'.crafts {
      CraftRepeatsWritten(t, t', id, t'.crafts[id]);
    } else {
      assert CraftRepeats(t') == CraftRepeats(t) - {id};
      SumRemove(CraftRepeats(t), id);
    }
  }

  /** No move raises the rank, and every submission and completion lowers it. */
  lemma RankFalls(book: Book, plan: int, w: World, m: Move, w': World)
    requires Valid(book, w.t) && PlanRuns.Step(book, plan, w, m, w')
    ensures Rank(w'.t) <= Rank(w.t) && (Works(m) ==> Rank(w'.t) < Rank(w.t))
  {
    hide Valid, Fits, CanInsertCraft, Allocates;
    match m
    case Deposit(u, n) =>
    case Ledger(e) =>
      match e
      case InsertCraft(id, p, recipe, n) =>
        InsertFacts(w.t, plan, book[recipe], n);
        SumUpdate(w.t.steps, StepKey(plan, recipe), w'.t.steps[StepKey(plan, recipe)]);
        CraftRepeatsWritten(w.t, w'.t, id, w'.t.crafts[id]);
      case Assign(id, worker) =>
        if w.t.crafts[id].worker.None? { CraftRepeatsWritten(w.t, w'.t, id, w'.t.crafts[id]); }
      case Commit(id, n) => CraftRepeatsWritten(w.t, w'.t, id, w'.t.crafts[id]);
      case CommitAndWait(id, worker) => CraftRepeatsWritten(w.t, w'.t, id, w'.t.crafts[id]);
      case Complete(id) => CompletionRanks(book, w.t, w'.t, id);
      case CompleteWait(id, worker) =>
        WaitIsCommitted(book, w.t, id, worker);
        CompletionRanks(book, w.t, w'.t, id);
      case Cleanup(p) =>
      case UpdateCount(u, count) => AllocateFacts(w.t, w'.t, u, count);
  }

  lemma InsertFacts(t: Tables, plan: int, r: Recipe, n: int)
    requires CanInsertCraft(t, plan, r, n)
    ensures StepKey(plan, r.id) in t.steps
  {
  }

  lemma AllocateFacts(t: Tables, t': Tables, u: Uid, count: int)
    requires Allocates(t, t', u, count)
    ensures t'.steps == t.steps && t'.crafts == t.crafts
  {
  }

  function WorkDone(moves: seq<Move>): nat {
    if moves == [] then 0 else WorkDone(moves[..|moves| - 1]) + if Works(moves[|moves| - 1]) then 1 else 0
  }

  /** However long a run is, it holds no more submissions and completions than the rank it started with. */
  lemma {:induction false} WorkIsBounded(book: Book, plan: int, goals: seq<Stack>, steps: seq<Planner.Step>,
      worlds: seq<World>, moves: seq<Move>)
    requires IsPlanRun(book, plan, worlds, moves) && Inv(book, plan, goals, steps, worlds[0])
    ensures WorkDone(moves) + Rank(worlds[|moves|].t) <= Rank(worlds[0].t) && Rank(worlds[|moves|].t) >= 0
    decreases |moves|
  {
    hide PlanRuns.Step, Rank;
    RunKeepsInv(book, plan, goals, steps, worlds, moves);
    var n := |moves|;
    if n == 0 {
      RankNonNegative(book, worlds[0].t);
    } else {
      var worlds', moves' := worlds[..n], moves[..n - 1];
      assert IsPlanRun(book, plan, worlds', moves') by {
        forall i | 0 <= i < n - 1 ensures PlanRuns.Step(book, plan, worlds'[i], moves'[i], worlds'[i + 1]) {
          assert PlanRuns.Step(book, plan, worlds[i], moves[i], worlds[i + 1]);
        }
      }
      WorkIsBounded(book, plan, goals, steps, worlds', moves');
      assert PlanRuns.Step(book, plan, worlds[n - 1], moves[n - 1], worlds[n - 1 + 1]);
      RankFalls(book, plan, worlds[n - 1], moves[n - 1], worlds[n]);
      RankNonNegative(book, worlds[n].t);
    }
  }

  // ---------------------------------------------------------------- the theorem

  /** Somewhere to go: a craft whose ingredients are in storage, a step that can be submitted, or the end. */
  ghost predicate NotStuck(book: Book, plan: int, goals: seq<Stack>, steps: seq<Planner.Step>, w: World) {
    && (forall id :: id in w.t.crafts && w.t.crafts[id].status.Pending? ==>
        CanCommit(w.t, id) && forall u ::
          Get(w.phys, u) >= Need(RecipeOf(book, w.t.crafts[id].recipe), u, w.t.crafts[id].repeats))
    && (w.t.crafts == map[] && Unfinished(plan, steps, w.t) && ToppedUp(plan, w) ==>
        exists i ::
          0 <= i < |steps| && StepKey(plan, steps[i].recipe.id) in w.t.steps
            && CanSubmit(book, w.t, plan, RowOf(plan, w.t, steps[i])))
    && (w.t.crafts == map[] && !Unfinished(plan, steps, w.t) ==>
        forall u :: Get(w.phys, u) >= GoalOf(goals, u) + Held(steps, u))
  }

  ghost predicate Unfinished(plan: int, steps: seq<Planner.Step>, t: Tables) {
    exists i ::
      0 <= i < |steps| && StepKey(plan, steps[i].recipe.id) in t.steps && t.steps[StepKey(plan, steps[i].recipe.id)] > 0
  }

  lemma PendingIsBacked(book: Book, plan: int, goals: seq<Stack>, steps: seq<Planner.Step>, w: World, id: int, u: Uid)
    requires Inv(book, plan, goals, steps, w) && id in w.t.crafts && w.t.crafts[id].status.Pending?
    ensures CanCommit(w.t, id)
    ensures Get(w.phys, u) >= Need(RecipeOf(book, w.t.crafts[id].recipe), u, w.t.crafts[id].repeats)
  {
    assert GoodCraft(book, w.t.crafts[id]);
    assert ItemInv(book, plan, goals, steps, w, u);
    assert Get(w.t.reserve, u) == Claimed(book, w.t, u);
    SharesNonNegative(book, w.t, u);
  }

  lemma FinishedHoldsGoals(book: Book, plan: int, goals: seq<Stack>, steps: seq<Planner.Step>, w: World, u: Uid)
    requires Inv(book, plan, goals, steps, w) && w.t.crafts == map[] && !Unfinished(plan, steps, w.t)
    ensures Get(w.phys, u) >= GoalOf(goals, u) + Held(steps, u)
  {
    forall k | k in w.t.steps ensures StepUse(book, w.t, u)[k] == 0 && StepYield(book, w.t, u)[k] == 0 {
      var i :| 0 <= i < |steps| && steps[i].recipe.id == k.recipe;
      assert k == StepKey(plan, steps[i].recipe.id);
      assert w.t.steps[k] == 0;
    }
    SumZero(StepUse(book, w.t, u));
    SumZero(StepYield(book, w.t, u));
    SumZero(CraftYield(book, w.t, u));
    SumZero(CraftShare(book, w.t, u));
    assert ItemInv(book, plan, goals, steps, w, u);
  }

  lemma InvNotStuck(book: Book, plan: int, goals: seq<Stack>, steps: seq<Planner.Step>, w: World)
    requires Inv(book, plan, goals, steps, w) && ProducersLater(steps) && CatalystsKept(goals, steps)
    ensures NotStuck(book, plan, goals, steps, w)
  {
    forall id, u | id in w.t.crafts && w.t.crafts[id].status.Pending?
      ensures CanCommit(w.t, id) && Get(w.phys, u)
        >= Need(RecipeOf(book, w.t.crafts[id].recipe), u, w.t.crafts[id].repeats)
    {
      PendingIsBacked(book, plan, goals, steps, w, id, u);
    }
    forall i | 0 <= i < |steps| ensures StepKey(plan, steps[i].recipe.id) in w.t.steps {
    }
    if w.t.crafts == map[] && Unfinished(plan, steps, w.t) && ToppedUp(plan, w) {
      SomethingFits(book, plan, goals, steps, w);
    }
    if w.t.crafts == map[] && !Unfinished(plan, steps, w.t) {
      forall u ensures Get(w.phys, u) >= GoalOf(goals, u) + Held(steps, u) {
        FinishedHoldsGoals(book, plan, goals, steps, w, u);
      }
    }
  }

  /** The planner's step list runs producers after consumers. */
  lemma PlanIsOrdered(goals: seq<Stack>, storage: map<Uid, int>, table: seq<Recipe>, plan: Plan,
                      choice: map<Uid, Recipe>, counts: seq<int>)
    requires IsPlan(goals, storage, table, plan, choice, counts) && SingleResults(table)
    requires forall r :: r in table ==> WellFormed(r)
    ensures ProducersLater(plan.steps)
  {
    var n := |plan.items|;
    assert plan.items[..n] == plan.items && counts[..n] == counts;
    StepsOfProducersLater(table, plan.items, choice, counts, n);
  }

  /**
    Take any plan the planner makes from single-result recipes that list no catalyst twice, and
    that covers every item. Written to empty tables and run in any way, with no outside
    withdrawals, it never deadlocks: every state reached has a backed craft, or a step that the
    next check submits, or is finished with the goals in storage. And no run can go on working
    forever.
   */
  lemma PlanNeverDeadlocks(book: Book, table: seq<Recipe>, goals: seq<Stack>, storage: map<Uid, int>,
                           plan: Plan, choice: map<Uid, Recipe>, counts: seq<int>, planSteps: seq<PlanStep>,
                           id: int, worlds: seq<World>, moves: seq<Move>)
    requires IsPlan(goals, storage, table, plan, choice, counts) && SingleResults(table) && TableBook(table, book)
      && GoodBook(book)
    requires forall r :: r in table ==> DistinctUids(r.catalysts)
    requires forall i :: 0 <= i < |goals| ==> goals[i].count >= 0
    requires NonNegative(storage) && AllCovered(goals, storage, plan.steps)
    requires IsPlanRun(book, id, worlds, moves)
    requires PlanWritten(EmptyTables, worlds[0].t, id, goals, storage, plan.steps, planSteps)
    requires forall u :: Get(worlds[0].phys, u) >= Get(storage, u)
    ensures forall i :: 0 <= i < |worlds| ==> NotStuck(book, id, goals, plan.steps, worlds[i])
    ensures WorkDone(moves) <= Rank(worlds[0].t)
  {
    assert |worlds| > 0;
    PlanStarts(book, table, goals, storage, plan, choice, counts, planSteps, id, worlds[0]);
    hide *;
    RunKeepsInv(book, id, goals, plan.steps, worlds, moves);
    forall i | 0 <= i < |worlds| ensures NotStuck(book, id, goals, plan.steps, worlds[i]) {
      InvNotStuck(book, id, goals, plan.steps, worlds[i]);
    }
    WorkIsBounded(book, id, goals, plan.steps, worlds, moves);
  }

  /** The tables such a plan is written to satisfy the invariant of its runs. */
  lemma PlanStarts(book: Book, table: seq<Recipe>, goals: seq<Stack>, storage: map<Uid, int>,
                   plan: Plan, choice: map<Uid, Recipe>, counts: seq<int>, planSteps: seq<PlanStep>, id: int, w: World)
    requires IsPlan(goals, storage, table, plan, choice, counts) && SingleResults(table) && TableBook(table, book)
      && GoodBook(book)
    requires forall r :: r in table ==> DistinctUids(r.catalysts)
    requires forall i :: 0 <= i < |goals| ==> goals[i].count >= 0
    requires NonNegative(storage) && AllCovered(goals, storage, plan.steps)
    requires PlanWritten(EmptyTables, w.t, id, goals, storage, plan.steps, planSteps)
    requires forall u :: Get(w.phys, u) >= Get(storage, u)
    ensures Inv(book, id, goals, plan.steps, w) && ProducersLater(plan.steps) && CatalystsKept(goals, plan.steps)
  {
    hide PlanWritten, IsPlan, AllCovered, Inv, ProducersLater, CatalystsKept, StepsFrom;
    PlanFacts(goals, storage, table, plan, choice, counts);
    PlanIsOrdered(goals, storage, table, plan, choice, counts);
    StepsAreListed(book, table, Closure(table, GoalUids(goals)), plan.steps);
    DistinctCatalystsAreKept(goals, plan.steps);
    AcceptedInv(book, id, goals, storage, plan.steps, planSteps, w);
  }

  lemma StepsAreListed(book: Book, table: seq<Recipe>, items: set<Uid>, steps: seq<Planner.Step>)
    requires TableBook(table, book) && StepsFrom(table, items, steps)
    requires forall r :: r in table ==> DistinctUids(r.catalysts)
    ensures forall i :: 0 <= i < |steps| ==>
      steps[i].recipe.id in book && book[steps[i].recipe.id] == steps[i].recipe && steps[i].repeats > 0
    ensures forall i :: 0 <= i < |steps| ==>
      PositiveAmounts(steps[i].recipe.catalysts) && DistinctUids(steps[i].recipe.catalysts)
  {
  }

  // ---------------------------------------------------------------- where it does deadlock

  /**
    The planner holds the largest line of a catalyst, the scheduler waits for the sum of its
    lines. A step whose recipe sums to more than the plan keeps required, of an item that is no
    step's ingredient, is never submitted, whatever is delivered.
   */
  lemma OverlistedCatalystNeverStarts(book: Book, plan: int, goals: seq<Stack>, steps: seq<Planner.Step>,
                                      b: nat, u: Uid, w: World, m: Move, w': World)
    requires Inv(book, plan, goals, steps, w) && PlanRuns.Step(book, plan, w, m, w') && b < |steps|
    requires AmountOf(steps[b].recipe.catalysts, u) > Base(goals, steps, u)
    requires forall i :: 0 <= i < |steps| ==> !Mentions(steps[i].recipe.ingredients, u)
    ensures !(m.Ledger? && m.e.InsertCraft? && m.e.recipe == steps[b].recipe.id)
  {
    var r := steps[b].recipe;
    forall k | k in w.t.steps ensures StepUse(book, w.t, u)[k] == 0 {
      var i :| 0 <= i < |steps| && steps[i].recipe.id == k.recipe;
      NoAmount(steps[i].recipe.ingredients, u);
    }
    SumZero(StepUse(book, w.t, u));
    assert ItemInv(book, plan, goals, steps, w, u);
    assert AmountIn(w.t, plan, u) <= RequiredIn(w.t, plan, u) by {
      assert ItemKey(plan, u) in w.t.items ==> GoodRow(w.t.items[ItemKey(plan, u)]);
    }
    RequiredNonNegative(book, plan, w.t, u);
    NoAmount(r.ingredients, u);
    assert Intake(r, u) > AmountIn(w.t, plan, u) >= 0;
    assert RecipeOf(book, r.id) == r && r.id in book;
    if m.Ledger? && m.e.InsertCraft? && m.e.recipe == r.id {
      ScaledMonotone(Intake(r, u), 1, m.e.n);
    }
  }

  lemma RequiredNonNegative(book: Book, plan: int, t: Tables, u: Uid)
    requires Valid(book, t)
    ensures RequiredIn(t, plan, u) >= AmountIn(t, plan, u) >= 0
  {
  }

  // ---------------------------------------------------------------- catalysts that nothing uses up

  /** No catalyst of a step is an ingredient of any step. */
  ghost predicate CatalystsApart(steps: seq<Planner.Step>) {
    forall i, j, u :: 0 <= i < |steps| && 0 <= j < |steps| && Mentions(steps[i].recipe.catalysts, u) ==>
      !Mentions(steps[j].recipe.ingredients, u)
  }

  /** No catalyst of the recipe's step is an ingredient of any step. */
  ghost predicate Uncontested(steps: seq<Planner.Step>, recipe: int) {
    forall i, j, u ::
      0 <= i < |steps| && 0 <= j < |steps| && steps[i].recipe.id == recipe && Mentions(steps[i].recipe.catalysts, u) ==>
        !Mentions(steps[j].recipe.ingredients, u)
  }

  /** The plan holds the catalysts of the craft. */
  ghost predicate CatalystsHeld(book: Book, plan: int, t: Tables, c: int)
    requires c in t.crafts
  {
    forall u :: AmountOf(RecipeOf(book, t.crafts[c].recipe).catalysts, u) <= AmountIn(t, plan, u)
  }

  ghost predicate AllCatalystsHeld(book: Book, plan: int, steps: seq<Planner.Step>, t: Tables) {
    forall c :: c in t.crafts && Uncontested(steps, t.crafts[c].recipe) ==> CatalystsHeld(book, plan, t, c)
  }

  lemma HeldByAmounts(book: Book, plan: int, steps: seq<Planner.Step>, t: Tables, t': Tables)
    requires AllCatalystsHeld(book, plan, steps, t)
    requires forall c :: c in t'.crafts ==> c in t.crafts && t'.crafts[c].recipe == t.crafts[c].recipe
    requires forall u :: AmountIn(t', plan, u) >= AmountIn(t, plan, u)
    ensures AllCatalystsHeld(book, plan, steps, t')
  {
    hide AmountIn, RecipeOf, Uncontested;
    forall c | c in t'.crafts && Uncontested(steps, t'.crafts[c].recipe) ensures CatalystsHeld(book, plan, t', c) {
      assert CatalystsHeld(book, plan, t, c);
    }
  }

  /** A submission leaves the plan with the catalysts of its own craft. */
  lemma OwnCatalystsHeld(t: Tables, plan: int, r: Recipe, budget: int, n: int, u: Uid)
    requires PositiveAmounts(r.ingredients) && PositiveAmounts(r.catalysts)
    requires Fits(t, plan, r, budget, n) && n >= 1 && AmountIn(t, plan, u) - Need(r, u, n) >= 0
    ensures AmountOf(r.catalysts, u) <= AmountIn(t, plan, u) - Need(r, u, n)
  {
    IntakePositive(r, u);
    if r.catalysts != [] {
      assert n == 1;
      assert Need(r, u, 1) == AmountOf(r.ingredients, u);
    }
    PositiveWhenMentioned(r.catalysts, u);
    PositiveWhenMentioned(r.ingredients, u);
  }

  lemma SubmitKeepsCatalysts(book: Book, plan: int, steps: seq<Planner.Step>, t: Tables, id: int, recipe: int, n: int,
                             t': Tables)
    requires OnePlan(book, plan, steps, t) && CraftsUpTo(steps, |steps|, t)
    requires AllCatalystsHeld(book, plan, steps, t) && Valid(book, t') && recipe in book && book[recipe].id == recipe
      && n >= 1
    requires CanInsertCraft(t, plan, book[recipe], n)
      && Fits(t, plan, book[recipe], t.steps[StepKey(plan, recipe)], n) && id !in t.crafts
    requires t' == AfterInsertCraft(t, id, plan, book[recipe], n)
    ensures AllCatalystsHeld(book, plan, steps, t')
  {
    var r := book[recipe];
    LinesPositive(book, recipe);
    forall c | c in t'.crafts && Uncontested(steps, t'.crafts[c].recipe) ensures CatalystsHeld(book, plan, t', c) {
      forall u ensures AmountOf(RecipeOf(book, t'.crafts[c].recipe).catalysts, u) <= AmountIn(t', plan, u) {
        SpentAmount(t, t', plan, r, n, u);
        AmountsNonNegative(book, t', plan);
        if c == id {
          OwnCatalystsHeld(t, plan, r, t.steps[StepKey(plan, recipe)], n, u);
        } else {
          OthersUnspent(book, plan, steps, t, c, recipe, n, u);
        }
      }
    }
  }

  /** A submission spends none of the catalysts that another craft has. */
  lemma OthersUnspent(book: Book, plan: int, steps: seq<Planner.Step>, t: Tables, c: int, recipe: int, n: int, u: Uid)
    requires OnePlan(book, plan, steps, t) && CraftsUpTo(steps, |steps|, t) && GoodBook(book)
    requires StepKey(plan, recipe) in t.steps && c in t.crafts && CatalystsHeld(book, plan, t, c)
      && Uncontested(steps, t.crafts[c].recipe)
    ensures AmountOf(RecipeOf(book, t.crafts[c].recipe).catalysts, u) <= 0
      || Need(RecipeOf(book, recipe), u, n) == 0
    ensures AmountOf(RecipeOf(book, t.crafts[c].recipe).catalysts, u) <= AmountIn(t, plan, u)
  {
    var a :| 0 <= a <= |steps| && a < |steps| && steps[a].recipe.id == t.crafts[c].recipe;
    var j :| 0 <= j < |steps| && steps[j].recipe.id == StepKey(plan, recipe).recipe;
    assert RecipeOf(book, t.crafts[c].recipe) == steps[a].recipe && RecipeOf(book, recipe) == steps[j].recipe;
    if Mentions(steps[a].recipe.catalysts, u) {
      AmountOfNone(steps[j].recipe.ingredients, u);
    } else {
      AmountOfNone(steps[a].recipe.catalysts, u);
    }
  }

  /** Every move of the plan leaves each craft the catalysts that no step uses up. */
  lemma StepKeepsCatalysts(book: Book, plan: int, steps: seq<Planner.Step>, w: World, m: Move, w': World)
    requires OnePlan(book, plan, steps, w.t) && CraftsUpTo(steps, |steps|, w.t)
    requires AllCatalystsHeld(book, plan, steps, w.t) && Valid(book, w'.t) && PlanRuns.Step(book, plan, w, m, w')
    ensures AllCatalystsHeld(book, plan, steps, w'.t)
  {
    hide Valid, OnePlan, CraftsUpTo, Uncontested, Fits, CanInsertCraft, AllCatalystsHeld, Taken, Returned, Release;
    match m
    case Deposit(u, n) =>
    case Ledger(e) =>
      match e
      case InsertCraft(id, p, recipe, n) =>
        SubmitKeepsCatalysts(book, plan, steps, w.t, id, recipe, n, w'.t);
      case Cleanup(p) =>
        forall u ensures AmountIn(w'.t, plan, u) >= AmountIn(w.t, plan, u) {
          CleanedAmount(w.t, p, plan, u);
        }
        HeldByAmounts(book, plan, steps, w.t, w'.t);
      case _ => HeldByAmounts(book, plan, steps, w.t, w'.t);
  }
}
