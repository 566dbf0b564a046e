/** Runs of ledger transactions from empty tables. */
module LedgerRuns {
  import opened Recipes
  import opened Sums
  import opened Ledger
  import opened LedgerInvariant

  datatype Event =
    | InsertPlan(plan: int, items: map<Uid, Row>, steps: map<int, int>)
    | InsertCraft(id: int, plan: int, recipe: int, n: int)
    | Assign(id: int, worker: string)
    | Commit(id: int, n: int)
    | CommitAndWait(id: int, worker: string)
    | Complete(id: int)
    | CompleteWait(id: int, worker: string)
    | Cancel(id: int, read: Craft)
    | RemovePlan(plan: int)
    | Cleanup(plan: int)
    | UpdateCount(uid: Uid, count: int)

  function AfterAssign(t: Tables, id: int, worker: string): Tables
    requires id in t.crafts
  {
    if t.crafts[id].worker.None? then t.(crafts := t.crafts[id := t.crafts[id].(worker := Some(worker))]) else t
  }

  function AddWait(t: Tables, id: int, worker: string): Tables {
    t.(waits := t.waits + {Wait(worker, id)})
  }

  function DropWait(t: Tables, id: int, worker: string): Tables {
    t.(waits := t.waits - {Wait(worker, id)})
  }

  /**
    A transaction that goes through. One that is refused leaves the tables as they are.
    Committing takes one to all open repeats; a craft is completed either by the worker that
    waits for it or, without a wait row, as a committed craft; a cancel reads the current row.
   */
  ghost predicate Next(book: Book, t: Tables, e: Event, t': Tables) {
    match e
    case InsertPlan(plan, items, steps) =>
      && plan !in t.plans && (forall u :: u in items ==> GoodRow(items[u]))
          && (forall r :: r in steps ==> steps[r] >= 0)
      && t' == AfterInsertPlan(t, plan, items, steps)
    case InsertCraft(id, plan, recipe, n) =>
      && recipe in book && book[recipe].id == recipe && id !in t.crafts && n >= 1
      && CanInsertCraft(t, plan, book[recipe], n)
      && t' == AfterInsertCraft(t, id, plan, book[recipe], n)
    case Assign(id, worker) =>
      id in t.crafts && t' == AfterAssign(t, id, worker)
    case Commit(id, n) =>
      CanCommit(t, id) && 1 <= n <= t.crafts[id].repeats
        && t' == AfterCommit(t, id, RecipeOf(book, t.crafts[id].recipe), n)
    case CommitAndWait(id, worker) =>
      && CanCommit(t, id) && 1 <= t.crafts[id].repeats
      && t' == AddWait(AfterCommit(t, id, RecipeOf(book, t.crafts[id].recipe), 1), id, worker)
    case Complete(id) =>
      && id in t.crafts && t.crafts[id].status.Committed? && (forall w :: w in t.waits ==> w.craft != id)
      && t' == AfterComplete(t, id)
    case CompleteWait(id, worker) =>
      && Wait(worker, id) in t.waits && (forall w :: w in t.waits && w.craft == id ==> w.worker == worker)
      && id in t.crafts && t' == AfterComplete(DropWait(t, id, worker), id)
    case Cancel(id, read) =>
      && CanCancel(t, id, read) && read == t.crafts[id]
      && t' == AfterCancel(t, id, read, RecipeOf(book, t.crafts[id].recipe))
    case RemovePlan(plan) => t' == AfterRemovePlan(t, plan)
    case Cleanup(plan) => t' == AfterCleanup(t, plan)
    case UpdateCount(uid, count) => Allocates(t, t', uid, count)
  }

  ghost predicate IsRun(book: Book, states: seq<Tables>, events: seq<Event>) {
    && |states| == |events| + 1
    && forall i :: 0 <= i < |events| ==> Next(book, states[i], events[i], states[i + 1])
  }

  lemma SameShares(book: Book, t: Tables, t': Tables)
    requires Balanced(book, t) && t'.reserve == t.reserve && t'.items == t.items
    requires t'.crafts.Keys == t.crafts.Keys
    requires forall c :: c in t.crafts ==>
      t'.crafts[c].recipe == t.crafts[c].recipe && Open(t'.crafts[c]) == Open(t.crafts[c])
    ensures Balanced(book, t')
  {
    forall u ensures Get(t'.reserve, u) == Claimed(book, t', u) {
      assert Get(t.reserve, u) == Claimed(book, t, u);
      forall c | c in t.crafts ensures c in t'.crafts && CraftShare(book, t', u)[c] == CraftShare(book, t, u)[c] {
        assert t'.crafts[c].recipe == t.crafts[c].recipe && Open(t'.crafts[c]) == Open(t.crafts[c]);
      }
      assert CraftShare(book, t', u) == CraftShare(book, t, u);
      assert PlanShare(t', u) == PlanShare(t, u);
    }
  }

  lemma NextKeepsValid(book: Book, t: Tables, e: Event, t': Tables)
    requires Valid(book, t) && Next(book, t, e, t')
    ensures Valid(book, t')
  {
    hide Balanced, AfterInsertPlan, AfterInsertCraft, AfterCommit, AfterCancel, AfterRemovePlan, AfterCleanup,
      Allocates;
    match e
    case InsertPlan(plan, items, steps) => InsertPlanKeeps(book, t, plan, items, steps);
    case InsertCraft(id, plan, recipe, n) => InsertCraftKeeps(book, t, id, plan, recipe, n);
    case Assign(id, worker) => SameShares(book, t, t');
    case Commit(id, n) => CommitKeeps(book, t, id, n);
    case CommitAndWait(id, worker) => CommitWaitKeeps(book, t, id, worker);
    case Complete(id) => CompleteKeepsIff(book, t, id);
    case CompleteWait(id, worker) =>
      SameShares(book, t, DropWait(t, id, worker));
      CompleteKeepsIff(book, DropWait(t, id, worker), id);
    case Cancel(id, read) => CancelKeeps(book, t, id, read);
    case RemovePlan(plan) => RemovePlanKeeps(book, t, plan);
    case Cleanup(plan) => CleanupKeeps(book, t, plan);
    case UpdateCount(uid, count) => AllocateKeeps(book, t, t', uid, count);
  }

  lemma CommitWaitKeeps(book: Book, t: Tables, id: int, worker: string)
    requires Valid(book, t) && CanCommit(t, id)
    ensures Valid(book, AddWait(AfterCommit(t, id, RecipeOf(book, t.crafts[id].recipe), 1), id, worker))
  {
    CommitKeeps(book, t, id, 1);
    var mid := AfterCommit(t, id, RecipeOf(book, t.crafts[id].recipe), 1);
    SameShares(book, mid, AddWait(mid, id, worker));
  }

  /**
    In every state of every run from empty tables, each item's reserve is exactly the sum of
    the plan amounts and of the ingredients of all open craft repeats, and never negative.
   */
  lemma {:induction false} LedgerExactOnEveryRun(book: Book, states: seq<Tables>, events: seq<Event>, u: Uid)
    requires GoodBook(book) && IsRun(book, states, events) && states[0] == EmptyTables
    ensures forall i :: 0 <= i < |states| ==> Get(states[i].reserve, u) == Claimed(book, states[i], u) >= 0
  {
    RunKeepsValid(book, states, events);
    forall i | 0 <= i < |states| ensures Get(states[i].reserve, u) == Claimed(book, states[i], u) >= 0 {
      ReserveNeverNegative(book, states[i], u);
    }
  }

  lemma NothingIsValid(book: Book)
    requires GoodBook(book)
    ensures Valid(book, EmptyTables)
  {
    forall u ensures Claimed(book, EmptyTables, u) == 0 {
      SumZero(PlanShare(EmptyTables, u));
      SumZero(CraftShare(book, EmptyTables, u));
    }
  }

  lemma {:induction false} RunKeepsValid(book: Book, states: seq<Tables>, events: seq<Event>)
    requires GoodBook(book) && IsRun(book, states, events) && states[0] == EmptyTables
    ensures forall i :: 0 <= i < |states| ==> Valid(book, states[i])
    decreases |events|
  {
    hide Valid, Next, GoodBook;
    if events == [] {
      NothingIsValid(book);
    } else {
      var n := |events| - 1;
      assert forall i :: 0 <= i <= n ==> states[..n + 1][i] == states[i];
      RunKeepsValid(book, states[..n + 1], events[..n]);
      assert Valid(book, states[..n + 1][n]);
      NextKeepsValid(book, states[n], events[n], states[n + 1]);
    }
  }

  // ---------------------------------------------------------------- where the guards are too weak

  const Ore := Uid("ore")
  const Plate := Uid("plate")
  const PlateRecipe := Recipe(1, None, [RecipeItem(Plate, 1, None)], [RecipeItem(Ore, 1, None)], [])
  const PlateBook: Book := map[1 := PlateRecipe]

  /** A plan for four plates with the ore for them, a craft of two of them, and one of the two made. */
  const PlatePlan := AfterInsertPlan(EmptyTables, 1, map[Ore := Row(4, 4)], map[1 := 4])
  const PlateCraft := Craft(1, 1, None, Pending, 2, 0)
  const PlateSubmitted := PlatePlan.(crafts := map[1 := PlateCraft], steps := PlatePlan.steps[StepKey(1, 1) := 2],
                                     items := Spend(PlatePlan.items, 1, PlateRecipe, 2))
  const PlateStarted := AfterCommit(PlateSubmitted, 1, PlateRecipe, 1)
  const PlateMade := AfterComplete(PlateStarted, 1)
  const PlateStates := [EmptyTables, PlatePlan, PlateSubmitted, PlateStarted, PlateMade]
  const PlateEvents := [InsertPlan(1, map[Ore := Row(4, 4)], map[1 := 4]), InsertCraft(1, 1, 1, 2), Commit(1, 1),
    Complete(1)]

  lemma PlateNeeds(u: Uid, n: int)
    ensures Mentions(PlateRecipe.ingredients, u) <==> u == Ore
    ensures Need(PlateRecipe, u, n) == if u == Ore then n else 0
  {
    assert PlateRecipe.ingredients[0].uid == Ore && PlateRecipe.ingredients[..0] == [];
    assert AmountOf(PlateRecipe.ingredients[..0], u) == 0;
    assert AmountOf(PlateRecipe.ingredients, u) == if u == Ore then 1 else 0;
  }

  lemma PlateRows()
    ensures StepKey(1, 1) in PlatePlan.steps && PlatePlan.steps[StepKey(1, 1)] == 4
    ensures ItemKey(1, Ore) in PlatePlan.items && PlatePlan.items[ItemKey(1, Ore)] == Row(4, 4)
    ensures PlatePlan.crafts == map[] && PlatePlan.waits == {} && Ore in PlatePlan.reserve && GoodBook(PlateBook)
  {
  }

  lemma PlateFits()
    ensures CanInsertCraft(PlatePlan, 1, PlateRecipe, 2)
  {
    PlateRows();
    forall u | Mentions(PlateRecipe.ingredients, u)
      ensures ItemKey(1, u) in PlatePlan.items && PlatePlan.items[ItemKey(1, u)].amount >= Need(PlateRecipe, u, 2)
    {
      PlateNeeds(u, 2);
    }
  }

  lemma PlateInserts()
    ensures Next(PlateBook, EmptyTables, PlateEvents[0], PlatePlan)
    ensures Next(PlateBook, PlatePlan, PlateEvents[1], PlateSubmitted)
  {
    PlateFits();
    PlateRows();
    assert PlatePlan.crafts[1 := PlateCraft] == map[1 := PlateCraft];
    assert PlateSubmitted == AfterInsertCraft(PlatePlan, 1, 1, PlateRecipe, 2);
    hide Spend, CanInsertCraft, PlanRows, PlanSteps;
  }

  lemma PlateCrafts()
    ensures Next(PlateBook, PlateSubmitted, PlateEvents[2], PlateStarted)
    ensures Next(PlateBook, PlateStarted, PlateEvents[3], PlateMade)
    ensures PlateMade.crafts == map[1 := PlateCraft.(repeats := 1)] && Ore in PlateMade.reserve && PlateMade.waits == {}
  {
    PlateRows();
    hide Spend, PlanRows, PlanSteps;
  }

  lemma PlateRun()
    ensures IsRun(PlateBook, PlateStates, PlateEvents)
    ensures forall i :: 0 <= i < |PlateStates| ==> Valid(PlateBook, PlateStates[i])
  {
    PlateInserts();
    PlateCrafts();
    PlateRows();
    hide Next, PlatePlan, PlateSubmitted, PlateStarted, PlateMade;
    forall i | 0 <= i < |PlateEvents| ensures Next(PlateBook, PlateStates[i], PlateEvents[i], PlateStates[i + 1]) {
      assert i == 0 || i == 1 || i == 2 || i == 3;
    }
    RunKeepsValid(PlateBook, PlateStates, PlateEvents);
  }

  lemma PlateUncommitted()
    ensures 1 in PlateSubmitted.crafts && PlateSubmitted.crafts[1] == PlateCraft && PlateBook[1].ingredients != []
  {
    hide PlatePlan;
  }

  /** A run leads to a pending craft whose completion deletes it and leaves its ore reserved for good. */
  lemma UncommittedCompletionBreaks()
    ensures IsRun(PlateBook, PlateStates[..3], PlateEvents[..2]) && Valid(PlateBook, PlateSubmitted)
    ensures 1 in PlateSubmitted.crafts && !Valid(PlateBook, AfterComplete(PlateSubmitted, 1))
  {
    PlateRun();
    PlateUncommitted();
    hide Next, PlatePlan, PlateSubmitted, PlateStarted, PlateMade;
    assert Valid(PlateBook, PlateStates[2]);
    assert forall i :: 0 <= i < 2 ==> Next(PlateBook, PlateStates[i], PlateEvents[i], PlateStates[i + 1]);
    hide Valid, AfterComplete;
    CompleteKeepsIff(PlateBook, PlateSubmitted, 1);
  }

  /**
    A copy of the craft read before its first repeat was made passes the guard of a cancel after it
    was made, and the cancel then releases ore that is no longer the craft's.
   */
  lemma StaleCancelBreaks()
    ensures IsRun(PlateBook, PlateStates, PlateEvents) && PlateStates[2].crafts == map[1 := PlateCraft]
    ensures Valid(PlateBook, PlateMade) && CanCancel(PlateMade, 1, PlateCraft)
    ensures !Valid(PlateBook, AfterCancel(PlateMade, 1, PlateCraft, PlateRecipe))
  {
    PlateRun();
    PlateCrafts();
    PlateNeeds(Ore, 1);
    assert PlateMade == PlateStates[4];
    hide Valid, Next, AfterCancel, PlatePlan;
    CancelKeepsIff(PlateBook, PlateMade, 1, PlateCraft);
  }
}
