/** Accepting a plan: the coverage check, the plan rows, and the first submissions (SchedulePlanForItem). */
module PlanAcceptance {
  import opened Recipes
  import opened RecipeClosure
  import opened Planner
  import opened PlanTheorems
  import opened Ledger
  import opened LedgerInvariant
  import opened Database
  import opened Scheduler

  /** The book lists every recipe of the table under its id. */
  ghost predicate TableBook(table: seq<Recipe>, book: Book) {
    forall r :: r in table ==> WellFormed(r) && r.id in book && book[r.id] == r
  }

  function Min(a: int, b: int): int {
    if a <= b then a else b
  }

  /** A row for each related item: what the plan takes from stock, and what it needs in all. */
  ghost predicate IsItemRows(goals: seq<Stack>, storage: map<Uid, int>, steps: seq<Step>, rows: map<Uid, Row>) {
    && (forall u :: u in rows ==>
        rows[u] == Row(Min(Assumed(goals, storage, u), Demand(goals, steps, u)), Demand(goals, steps, u)))
    && (forall u :: u !in rows ==> Demand(goals, steps, u) == 0)
  }

  ghost predicate IsStepRows(steps: seq<Step>, planSteps: seq<PlanStep>, rows: map<int, int>) {
    && |planSteps| == |steps|
    && (forall i :: 0 <= i < |steps| ==> planSteps[i] == PlanStep(steps[i].recipe.id, steps[i].repeats))
    && (forall i :: 0 <= i < |steps| ==> steps[i].recipe.id in rows && rows[steps[i].recipe.id] == steps[i].repeats)
    && (forall id :: id in rows ==> exists i :: 0 <= i < |steps| && steps[i].recipe.id == id)
  }

  ghost predicate DistinctRecipes(steps: seq<Step>) {
    forall a, b :: 0 <= a < b < |steps| ==> steps[a].recipe != steps[b].recipe
  }

  /** Each crafted item has its own step, so no recipe appears twice. */
  lemma {:induction false} StepsOfDistinct(table: seq<Recipe>, order: seq<Uid>, choice: map<Uid, Recipe>,
      counts: seq<int>, j: nat)
    requires Ready(table, order, choice) && |counts| == |order| && j <= |order|
    ensures DistinctRecipes(Prefix(order, choice, counts, j))
  {
    if j > 0 {
      var k := j - 1;
      StepsOfDistinct(table, order, choice, counts, k);
      assert counts[..j] == counts[..k] + [counts[k]];
      StepsOfGrow(order, choice, counts[..k], k, counts[k]);
      var init, steps := Prefix(order, choice, counts, k), Prefix(order, choice, counts, j);
      if order[k] in choice && counts[k] > 0 {
        forall a, b | 0 <= a < b < |steps| ensures steps[a].recipe != steps[b].recipe {
          assert steps[a] == init[a];
          if b < |init| {
            assert steps[b] == init[b];
          } else {
            var p := StepsOfPlaces(order[..k], choice, counts[..k], a);
            assert order[..k][p] == order[p];
            assert Crafts(choice[order[p]], order[p]) && Crafts(choice[order[k]], order[k]);
          }
        }
      }
    }
  }

  lemma PlanStepsDistinct(goals: seq<Stack>, storage: map<Uid, int>, table: seq<Recipe>, plan: Plan,
                          choice: map<Uid, Recipe>, counts: seq<int>)
    requires IsPlan(goals, storage, table, plan, choice, counts)
    requires forall r :: r in table ==> WellFormed(r)
    ensures DistinctRecipes(plan.steps)
    ensures StepsFrom(table, Closure(table, GoalUids(goals)), plan.steps)
  {
    var n := |plan.items|;
    assert plan.items[..n] == plan.items && counts[..n] == counts;
    StepsOfDistinct(table, plan.items, choice, counts, n);
    StepsOfAreFrom(table, Closure(table, GoalUids(goals)), plan.items, choice, counts);
  }

  /** The loop over the related items: stops at the first one that is not covered. */
  method ItemRows(goals: seq<Stack>, storage: map<Uid, int>, steps: seq<Step>, related: map<Uid, Related>)
    returns (rows: Option<map<Uid, Row>>)
    requires Totals(goals, storage, steps, related) && NonNegative(storage)
    ensures rows.Some? <==> AllCovered(goals, storage, steps)
    ensures rows.Some? ==> IsItemRows(goals, storage, steps, rows.value)
  {
    hide Balance, Assumed, Demand, Produced;
    RelatedTotals(goals, storage, steps, related);
    var built: map<Uid, Row> := map[];
    var rest := related.Keys;
    while rest != {}
      invariant rest <= related.Keys && built.Keys == related.Keys - rest
      invariant forall u :: u in built ==> Balance(goals, storage, steps, u) >= 0
      invariant forall u :: u in built ==>
        built[u] == Row(Min(Assumed(goals, storage, u), Demand(goals, steps, u)), Demand(goals, steps, u))
    {
      var u :| u in rest;
      var rel := related[u];
      if rel.storageAmount + rel.produced - rel.consumed < 0 {
        assert Balance(goals, storage, steps, u) < 0;
        return None;
      }
      built := built[u := Row(Min(rel.storageAmount, rel.consumed), rel.consumed)];
      rest := rest - {u};
    }
    rows := Some(built);
  }

  lemma RelatedTotals(goals: seq<Stack>, storage: map<Uid, int>, steps: seq<Step>, related: map<Uid, Related>)
    requires Totals(goals, storage, steps, related) && NonNegative(storage)
    ensures forall u :: u in related ==>
      && related[u].storageAmount == Assumed(goals, storage, u) && related[u].consumed == Demand(goals, steps, u)
      && related[u].storageAmount + related[u].produced - related[u].consumed == Balance(goals, storage, steps, u)
    ensures forall u :: u !in related ==> Demand(goals, steps, u) == 0 && Balance(goals, storage, steps, u) >= 0
  {
    forall u ensures
      && (u in related ==>
        && related[u].storageAmount == Assumed(goals, storage, u) && related[u].consumed == Demand(goals, steps, u)
        && related[u].storageAmount + related[u].produced - related[u].consumed == Balance(goals, storage, steps, u))
      && (u !in related ==> Demand(goals, steps, u) == 0 && Balance(goals, storage, steps, u) >= 0)
    {
      assert RelOf(related, storage, u) == TotalsOf(goals, storage, steps, u);
      assert Get(storage, u) >= 0;
    }
  }

  /**
    What a plan's row says: how much the plan needs of the item in all, and that it takes what is
    stored up to that, and of a goal nothing. An item without a row is not needed.
   */
  lemma RowsMean(goals: seq<Stack>, storage: map<Uid, int>, steps: seq<Step>, rows: map<Uid, Row>)
    requires IsItemRows(goals, storage, steps, rows)
    ensures forall k :: LastGoal(goals, k) ==>
      var u := goals[k].uid;
      var needed := goals[k].count + Used(steps, u) + Held(steps, u);
      if u in rows then rows[u] == Row(if needed < 0 then needed else 0, needed) else needed == 0
    ensures forall u :: (forall k :: 0 <= k < |goals| ==> goals[k].uid != u) ==>
      var needed := Used(steps, u) + Held(steps, u);
      if u in rows then rows[u] == Row(if Get(storage, u) < needed then Get(storage, u) else needed, needed)
      else needed == 0
  {
    forall k | LastGoal(goals, k)
      ensures Demand(goals, steps, goals[k].uid) == goals[k].count + Used(steps, goals[k].uid)
        + Held(steps, goals[k].uid)
      ensures Assumed(goals, storage, goals[k].uid) == 0
    {
      LastGoalCounts(goals, k);
    }
    forall u | forall k :: 0 <= k < |goals| ==> goals[k].uid != u
      ensures Demand(goals, steps, u) == Used(steps, u) + Held(steps, u)
      ensures Assumed(goals, storage, u) == Get(storage, u)
    {
      NoGoal(goals, u);
    }
    hide Demand, Assumed, Used, Held;
  }

  method StepRows(steps: seq<Step>) returns (planSteps: seq<PlanStep>, rows: map<int, int>)
    requires forall a, b :: 0 <= a < b < |steps| ==> steps[a].recipe.id != steps[b].recipe.id
    ensures IsStepRows(steps, planSteps, rows)
  {
    planSteps, rows := [], map[];
    for i := 0 to |steps|
      invariant IsStepRows(steps[..i], planSteps, rows)
    {
      planSteps := planSteps + [PlanStep(steps[i].recipe.id, steps[i].repeats)];
      rows := rows[steps[i].recipe.id := steps[i].repeats];
      assert steps[..i + 1] == steps[..i] + [steps[i]];
      assert steps[..i + 1][i].recipe.id == steps[i].recipe.id;
      assert forall k :: 0 <= k < i ==> steps[..i + 1][k] == steps[..i][k];
    }
    assert steps[..|steps|] == steps;
  }

  /** A plan's item rows are good exactly if no item's planned demand is negative. */
  lemma RowsGoodIff(goals: seq<Stack>, storage: map<Uid, int>, steps: seq<Step>, rows: map<Uid, Row>)
    requires IsItemRows(goals, storage, steps, rows) && NonNegative(storage)
    ensures (forall u :: u in rows ==> GoodRow(rows[u])) <==> forall u :: Demand(goals, steps, u) >= 0
  {
    hide Demand;
    forall u | u in rows ensures GoodRow(rows[u]) <==> Demand(goals, steps, u) >= 0 {
      assert Get(storage, u) >= 0;
    }
  }

  /** Goals that ask for nothing negative lead to no negative demand. */
  lemma DemandNonNegative(goals: seq<Stack>, table: seq<Recipe>, items: set<Uid>, steps: seq<Step>, u: Uid)
    requires StepsFrom(table, items, steps) && forall r :: r in table ==> WellFormed(r)
    requires forall i :: 0 <= i < |goals| ==> goals[i].count >= 0
    ensures Demand(goals, steps, u) >= 0
  {
    GoalNonNegative(goals, u);
    ProducedNonNegative(table, items, steps, u);
  }

  /** The first write of an accepted plan: its rows, as a function of the plan. */
  ghost predicate PlanWritten(t: Tables, t': Tables, id: int, goals: seq<Stack>, storage: map<Uid, int>,
                              steps: seq<Step>, planSteps: seq<PlanStep>) {
    exists rows, stepRows ::
      IsItemRows(goals, storage, steps, rows) && IsStepRows(steps, planSteps, stepRows)
      && t' == AfterInsertPlan(t, id, rows, stepRows)
  }

  lemma InsertedIsFresh(book: Book, table: seq<Recipe>, items: set<Uid>, t: Tables, t': Tables, id: int,
                        steps: seq<Step>, planSteps: seq<PlanStep>, rows: map<Uid, Row>, stepRows: map<int, int>)
    requires TableBook(table, book) && StepsFrom(table, items, steps) && DistinctRecipes(steps)
    requires IsStepRows(steps, planSteps, stepRows)
    requires t' == AfterInsertPlan(t, id, rows, stepRows)
    ensures Fresh(book, t', id, planSteps)
    ensures forall r :: r in stepRows ==> stepRows[r] >= 0
  {
    forall i | 0 <= i < |planSteps| ensures FreshStep(book, t', id, planSteps[i]) {
      assert steps[i].recipe in table;
      assert StepKey(id, planSteps[i].recipe) in PlanSteps(id, stepRows);
    }
    forall i, j | 0 <= i < j < |planSteps| ensures planSteps[i].recipe != planSteps[j].recipe {
      assert steps[i].recipe in table && steps[j].recipe in table;
    }
  }

  /**
    Plans, checks coverage, writes the plan and submits what can run at once. A request is
    refused without any change exactly when it cannot be planned or leaves an item uncovered;
    goal counts of any sign are taken as they come.
   */
  method SchedulePlanForItem(db: Database, goals: seq<Stack>, table: seq<Recipe>, storage: map<Uid, int>)
    returns (accepted: bool, id: int, ghost plan: Option<Plan>, ghost choice: map<Uid, Recipe>, ghost counts: seq<int>,
             ghost planSteps: seq<PlanStep>, ghost written: Tables, ghost trace: seq<Tables>)
    requires GoodBook(db.book) && TableBook(table, db.book) && NonNegative(storage)
    modifies db`tables
    ensures plan.None? <==> goals == [] || HasRecipeCycle(table, Closure(table, GoalUids(goals)))
    ensures plan.Some? ==> IsPlan(goals, storage, table, plan.value, choice, counts)
    ensures accepted <==> plan.Some? && AllCovered(goals, storage, plan.value.steps)
    ensures accepted <==> plan.Some? && Enough(goals, storage, plan.value.steps)
    ensures !accepted ==> db.tables == old(db.tables)
    ensures accepted ==>
      && id !in old(db.tables).plans
      && PlanWritten(old(db.tables), written, id, goals, storage, plan.value.steps, planSteps)
      && Checked(db.book, written, id, planSteps, trace, db.tables)
    ensures accepted && Valid(db.book, old(db.tables)) && (forall u :: Demand(goals, plan.value.steps, u) >= 0) ==>
      Valid(db.book, db.tables)
  {
    hide Valid, IsPlan, AllCovered, Enough, IsItemRows, IsStepRows, PlanWritten, Checked, StepsFrom, DistinctRecipes,
      Fresh, AfterInsertPlan, HasRecipeCycle, Demand, GoodBook;
    accepted, id, planSteps, written, trace := false, 0, [], db.tables, [];
    var p;
    p, choice, counts := GetPlanForItem(goals, table, storage);
    plan := p;
    if p.None? {
      return;
    }
    PlanFacts(goals, storage, table, p.value, choice, counts);
    CoveredIffEnough(goals, storage, p.value.steps);
    var rows := ItemRows(goals, storage, p.value.steps, p.value.related);
    if rows.None? {
      return;
    }
    StepIdsDistinct(db.book, table, Closure(table, GoalUids(goals)), p.value.steps);
    var steps, stepRows := StepRows(p.value.steps);
    planSteps := steps;
    ghost var items := Closure(table, GoalUids(goals));
    ghost var t := db.tables;
    id := db.InsertPlan(rows.value, stepRows);
    written := db.tables;
    InsertedIsFresh(db.book, table, items, t, written, id, p.value.steps, steps, rows.value, stepRows);
    WrittenBy(t, id, goals, storage, p.value.steps, planSteps, rows.value, stepRows);
    if Valid(db.book, t) && forall u :: Demand(goals, p.value.steps, u) >= 0 {
      WrittenIsValid(db.book, t, id, goals, storage, p.value.steps, rows.value, stepRows);
    }
    accepted := true;
    var submitted;
    submitted, trace := CheckNextSteps(db, id, steps);
  }

  lemma WrittenIsValid(book: Book, t: Tables, id: int, goals: seq<Stack>, storage: map<Uid, int>,
                       steps: seq<Step>, rows: map<Uid, Row>, stepRows: map<int, int>)
    requires Valid(book, t) && id !in t.plans && NonNegative(storage) && IsItemRows(goals, storage, steps, rows)
    requires (forall u :: Demand(goals, steps, u) >= 0) && forall r :: r in stepRows ==> stepRows[r] >= 0
    ensures Valid(book, AfterInsertPlan(t, id, rows, stepRows))
  {
    hide Valid, IsItemRows, Demand, NonNegative;
    RowsGoodIff(goals, storage, steps, rows);
    InsertPlanKeeps(book, t, id, rows, stepRows);
  }

  /** The tables an accepted plan is written to stay consistent exactly if no planned demand is negative. */
  lemma WrittenValidIff(book: Book, t: Tables, t': Tables, id: int, goals: seq<Stack>, storage: map<Uid, int>,
                        table: seq<Recipe>, items: set<Uid>, steps: seq<Step>, planSteps: seq<PlanStep>)
    requires Valid(book, t) && id !in t.plans && NonNegative(storage)
    requires StepsFrom(table, items, steps) && PlanWritten(t, t', id, goals, storage, steps, planSteps)
    ensures Valid(book, t') <==> forall u :: Demand(goals, steps, u) >= 0
  {
    hide IsStepRows, NonNegative, IsItemRows, Balanced, Demand, PlanRows, StepsFrom;
    var rows, stepRows :| IsItemRows(goals, storage, steps, rows) && IsStepRows(steps, planSteps, stepRows)
      && t' == AfterInsertPlan(t, id, rows, stepRows);
    RowsGoodIff(goals, storage, steps, rows);
    if forall u :: Demand(goals, steps, u) >= 0 {
      StepRowsPositive(table, items, steps, planSteps, stepRows);
      WrittenIsValid(book, t, id, goals, storage, steps, rows, stepRows);
    } else {
      var u :| u in rows && !GoodRow(rows[u]);
      assert ItemKey(id, u) in PlanRows(id, rows);
      assert t'.items[ItemKey(id, u)] == rows[u];
    }
  }

  lemma StepRowsPositive(table: seq<Recipe>, items: set<Uid>, steps: seq<Step>, planSteps: seq<PlanStep>,
                         stepRows: map<int, int>)
    requires StepsFrom(table, items, steps) && IsStepRows(steps, planSteps, stepRows)
    ensures forall r :: r in stepRows ==> stepRows[r] >= 0
  {
    forall r | r in stepRows ensures stepRows[r] >= 0 {
      var i :| 0 <= i < |steps| && steps[i].recipe.id == r;
    }
  }

  const Coal := Uid("coal")

  /** With no recipes a goal of -5 is planned and covered, and leaves a row that holds and requires -5. */
  lemma NegativeGoalIsAccepted(storage: map<Uid, int>, plan: Plan, choice: map<Uid, Recipe>, counts: seq<int>,
                               t: Tables, t': Tables, id: int, planSteps: seq<PlanStep>)
    requires NonNegative(storage) && IsPlan([Stack(Coal, -5)], storage, [], plan, choice, counts)
    requires PlanWritten(t, t', id, [Stack(Coal, -5)], storage, plan.steps, planSteps)
    ensures AllCovered([Stack(Coal, -5)], storage, plan.steps)
    ensures ItemKey(id, Coal) in t'.items && t'.items[ItemKey(id, Coal)] == Row(-5, -5)
  {
    var goals := [Stack(Coal, -5)];
    PlanFacts(goals, storage, [], plan, choice, counts);
    assert plan.steps == [];
    assert goals[..0] == [] && goals[0].uid == Coal;
    hide IsPlan, IsStepRows;
    forall u ensures GoalOf(goals, u) == (if u == Coal then -5 else 0) && Balance(goals, storage, [], u) >= 0 {
      assert GoalOf(goals[..0], u) == 0;
      assert Get(storage, u) >= 0;
    }
    var rows, stepRows :| IsItemRows(goals, storage, plan.steps, rows) && IsStepRows(plan.steps, planSteps, stepRows)
      && t' == AfterInsertPlan(t, id, rows, stepRows);
    assert Coal in rows && rows[Coal] == Row(-5, -5);
    assert ItemKey(id, Coal) in PlanRows(id, rows);
  }

  lemma WrittenBy(t: Tables, id: int, goals: seq<Stack>, storage: map<Uid, int>, steps: seq<Step>,
                  planSteps: seq<PlanStep>, rows: map<Uid, Row>, stepRows: map<int, int>)
    requires IsItemRows(goals, storage, steps, rows) && IsStepRows(steps, planSteps, stepRows)
    ensures PlanWritten(t, AfterInsertPlan(t, id, rows, stepRows), id, goals, storage, steps, planSteps)
  {
  }

  lemma PlanFacts(goals: seq<Stack>, storage: map<Uid, int>, table: seq<Recipe>, plan: Plan,
                  choice: map<Uid, Recipe>, counts: seq<int>)
    requires IsPlan(goals, storage, table, plan, choice, counts)
    requires forall r :: r in table ==> WellFormed(r)
    ensures DistinctRecipes(plan.steps) && StepsFrom(table, Closure(table, GoalUids(goals)), plan.steps)
    ensures Totals(goals, storage, plan.steps, plan.related)
  {
    PlanStepsDistinct(goals, storage, table, plan, choice, counts);
  }

  lemma StepIdsDistinct(book: Book, table: seq<Recipe>, items: set<Uid>, steps: seq<Step>)
    requires TableBook(table, book) && StepsFrom(table, items, steps) && DistinctRecipes(steps)
    ensures forall a, b :: 0 <= a < b < |steps| ==> steps[a].recipe.id != steps[b].recipe.id
  {
    forall a, b | 0 <= a < b < |steps| ensures steps[a].recipe.id != steps[b].recipe.id {
      assert steps[a].recipe in table && steps[b].recipe in table;
    }
  }
}
