/**
  A plan can end although it keeps less than a step's catalyst lines sum to, where another step uses
  the catalyst up: for such plans keeping enough is sufficient, but not needed.
 */
module Contested {
  import opened Recipes
  import opened Planner
  import opened PlanTheorems
  import opened Sums
  import opened Ledger
  import opened Scheduler
  import opened PlanAcceptance
  import opened PlanRuns
  import opened Progress
  import opened ProcessingRequest
  import opened CodeRuns
  import opened Completion
  import opened Deadlock
  import opened Queues

  const Scrap := Uid("scrap")

  /** The lamp is made with two tools, and scrap of a tool. */
  const ScrapRecipe := Recipe(2, None, [RecipeItem(Scrap, 1, None)], [RecipeItem(Tool, 1, None)], [])
  const YardGoals := [Stack(Lamp, 1), Stack(Scrap, 1)]
  const YardSteps := [Planner.Step(LampRecipe, 1), Planner.Step(ScrapRecipe, 1)]

  lemma YardNames()
    ensures Lamp != Scrap && Tool != Scrap && Lamp != Tool
  {
    assert "lamp"[0] == 'l' && "tool"[0] == 't' && "scrap"[0] == 's';
  }

  lemma YardAmounts(u: Uid)
    ensures AmountOf(LampRecipe.results, u) == One(u, Lamp) && AmountOf(LampRecipe.ingredients, u) == 0
    ensures AmountOf(LampRecipe.catalysts, u) == 2 * One(u, Tool)
      && MaxAmountOf(LampRecipe.catalysts, u) == One(u, Tool)
    ensures AmountOf(ScrapRecipe.results, u) == One(u, Scrap) && AmountOf(ScrapRecipe.ingredients, u) == One(u, Tool)
    ensures AmountOf(ScrapRecipe.catalysts, u) == 0 == MaxAmountOf(ScrapRecipe.catalysts, u)
  {
    LampAmounts(u);
    OneLine(Scrap, u);
    OneLine(Tool, u);
    NoLine(u);
  }

  lemma YardGoalCounts(u: Uid)
    ensures GoalOf(YardGoals, u) == One(u, Lamp) + One(u, Scrap) && (IsGoal(YardGoals, u) <==> u == Lamp || u == Scrap)
  {
    YardNames();
    assert YardGoals[..1] == [Stack(Lamp, 1)] && YardGoals[..1][..0] == [];
    assert GoalOf(YardGoals[..1], u) == One(u, Lamp);
    assert YardGoals[0].uid == Lamp && YardGoals[1].uid == Scrap;
  }

  lemma YardTotals(u: Uid)
    ensures Used(YardSteps, u) == One(u, Tool) == Held(YardSteps, u)
    ensures Produced(YardSteps, u) == One(u, Lamp) + One(u, Scrap)
  {
    YardAmounts(u);
    assert YardSteps[..1] == [YardSteps[0]] && YardSteps[..1][..0] == [];
    hide AmountOf, MaxAmountOf;
    assert Used(YardSteps[..1], u) == 0 && Held(YardSteps[..1], u) == One(u, Tool)
      && Produced(YardSteps[..1], u) == One(u, Lamp);
  }

  /** The plan covers everything, and keeps one tool of the two that the lamp is made with. */
  lemma YardPlan()
    ensures AllCovered(YardGoals, LampStock, YardSteps) && NonNegative(LampStock)
    ensures forall i :: 0 <= i < |YardGoals| ==> YardGoals[i].count >= 0
    ensures !CatalystsKept(YardGoals, YardSteps) && DistinctIds(YardSteps) && DistinctRecipes(YardSteps)
    ensures Uncontested(YardSteps, 2)
  {
    YardNames();
    forall u ensures Balance(YardGoals, LampStock, YardSteps, u) >= 0 {
      YardTotals(u);
      YardGoalCounts(u);
      hide GoalOf, Used, Held, Produced, IsGoal;
    }
    YardTotals(Tool);
    YardGoalCounts(Tool);
    YardAmounts(Tool);
    assert AmountOf(YardSteps[0].recipe.catalysts, Tool) > Base(YardGoals, YardSteps, Tool);
  }

  lemma YardListed(book: Book)
    requires TableBook([LampRecipe, ScrapRecipe], book)
    ensures book.Keys >= {1, 2} && book[1] == LampRecipe && book[2] == ScrapRecipe
    ensures forall i :: 0 <= i < |YardSteps| ==>
      && YardSteps[i].recipe.id in book && book[YardSteps[i].recipe.id] == YardSteps[i].recipe
      && YardSteps[i].repeats > 0
  {
    var table := [LampRecipe, ScrapRecipe];
    assert table[0] in table && table[1] in table;
  }

  lemma YardStarts(book: Book, services: Services, plan: int, planSteps: seq<PlanStep>, s: Code)
    requires TableBook([LampRecipe, ScrapRecipe], book) && GoodBook(book)
    requires JustWritten(plan, YardGoals, LampStock, YardSteps, planSteps, s)
    ensures CodeInv(book, services, plan, YardGoals, YardSteps, s)
  {
    YardListed(book);
    YardPlan();
    hide *;
    JustAccepted(book, plan, YardGoals, LampStock, YardSteps, planSteps, s);
    AcceptedInv(book, plan, YardGoals, LampStock, YardSteps, planSteps, s.w);
    WrittenInv(book, services, plan, YardGoals, LampStock, YardSteps, planSteps, s);
  }

  lemma YardRows(plan: int, planSteps: seq<PlanStep>, t: Tables, u: Uid)
    requires PlanWritten(EmptyTables, t, plan, YardGoals, LampStock, YardSteps, planSteps)
    ensures AmountIn(t, plan, u) == 2 * One(u, Tool)
  {
    YardNames();
    YardTotals(u);
    YardGoalCounts(u);
    hide PlanWritten, GoalOf, Used, IsGoal, AmountIn;
    WrittenAmount(plan, YardGoals, LampStock, YardSteps, planSteps, t, u);
  }

  // ---------------------------------------------------------------- the check that submits both steps

  ghost predicate YardOpen(plan: int, t: Tables) {
    && StepKey(plan, 1) in t.steps && t.steps[StepKey(plan, 1)] == 1
    && StepKey(plan, 2) in t.steps && t.steps[StepKey(plan, 2)] == 1
    && (forall k :: k in t.steps ==> k.plan == plan && (k.recipe == 1 || k.recipe == 2))
    && t.crafts == map[] && t.waits == {}
    && forall u :: AmountIn(t, plan, u) == 2 * One(u, Tool)
  }

  function LampSubmitted(t: Tables, plan: int): Tables
    requires StepKey(plan, 1) in t.steps
  {
    AfterInsertCraft(t, 1, plan, LampRecipe, 1)
  }

  function BothSubmitted(t: Tables, plan: int): Tables
    requires StepKey(plan, 1) in t.steps && StepKey(plan, 2) in t.steps
  {
    AfterInsertCraft(LampSubmitted(t, plan), 2, plan, ScrapRecipe, 1)
  }

  const YardListing := [PlanStep(1, 1), PlanStep(2, 1)]

  lemma LampChecked(book: Book, plan: int, t: Tables)
    requires GoodBook(book) && 1 in book && book[1] == LampRecipe && YardOpen(plan, t)
    ensures StepChecked(book, t, plan, PlanStep(1, 1), LampSubmitted(t, plan))
    ensures forall u :: AmountIn(LampSubmitted(t, plan), plan, u) == 2 * One(u, Tool)
  {
    forall u ensures Intake(LampRecipe, u) <= AmountIn(t, plan, u) && Need(LampRecipe, u, 1) == 0 {
      YardAmounts(u);
      hide AmountOf;
    }
    hide AmountOf, Intake, AmountIn, GoodBook;
    SubmitsOne(book, plan, t, 1, 1);
    hide CanInsertCraft, StepChecked, Need;
    var after := LampSubmitted(t, plan);
    forall u ensures AmountIn(after, plan, u) == 2 * One(u, Tool) {
      SpentAmount(t, after, plan, LampRecipe, 1, u);
    }
  }

  lemma ScrapChecked(book: Book, plan: int, t: Tables)
    requires GoodBook(book) && 2 in book && book[2] == ScrapRecipe && YardOpen(plan, t)
    requires forall u :: AmountIn(LampSubmitted(t, plan), plan, u) == 2 * One(u, Tool)
    ensures StepChecked(book, LampSubmitted(t, plan), plan, PlanStep(2, 1), BothSubmitted(t, plan))
  {
    var before := LampSubmitted(t, plan);
    forall u ensures Intake(ScrapRecipe, u) <= AmountIn(before, plan, u) {
      YardAmounts(u);
      hide AmountOf;
    }
    hide AmountOf, Intake, AmountIn, GoodBook, Spend;
    SubmitsOne(book, plan, before, 2, 2);
  }

  lemma YardSubmitted(plan: int, t: Tables)
    requires YardOpen(plan, t)
    ensures var t' := BothSubmitted(t, plan);
      && t'.crafts == map[1 := ShopCraft(plan, 1), 2 := ShopCraft(plan, 2)] && t'.waits == {}
      && forall k :: k in t'.steps ==> t'.steps[k] == 0
  {
    hide Spend;
  }

  lemma YardChecked(book: Book, plan: int, t: Tables)
    requires GoodBook(book) && book.Keys >= {1, 2} && book[1] == LampRecipe && book[2] == ScrapRecipe
      && YardOpen(plan, t)
    ensures Lists(plan, t, YardListing) && Fresh(book, t, plan, YardListing)
    ensures Checked(book, t, plan, YardListing, [t, LampSubmitted(t, plan), BothSubmitted(t, plan)],
              AfterCleanup(BothSubmitted(t, plan), plan))
  {
    LampChecked(book, plan, t);
    ScrapChecked(book, plan, t);
    YardSubmitted(plan, t);
    assert YardListing[0].recipe == 1 && YardListing[1].recipe == 2;
    assert forall k :: k in t.steps ==> k == StepKey(plan, k.recipe);
    assert BothSubmitted(t, plan) != t by { assert 1 in BothSubmitted(t, plan).crafts; }
    hide LampSubmitted, BothSubmitted, StepChecked, GoodBook, AmountIn;
  }

  // ---------------------------------------------------------------- to the end

  /** With no work left nothing is left to do. */
  lemma NoRankLeft(book: Book, plan: int, steps: seq<Planner.Step>, t: Tables)
    requires Valid(book, t) && Rank(t) <= 0
    ensures NothingLeft(plan, steps, t)
  {
    forall c | c in t.crafts ensures CraftRepeats(t)[c] >= 1 {
      assert GoodCraft(book, t.crafts[c]);
    }
    SumNonNegative(t.steps);
    SumNonNegative(CraftRepeats(t));
    if t.crafts != map[] {
      var c := SomeKey(t.crafts);
      assert false;
    }
  }

  ghost predicate YardBusy(plan: int, s: Code) {
    && s.w.t.crafts == map[1 := ShopCraft(plan, 1), 2 := ShopCraft(plan, 2)]
    && (forall k :: k in s.w.t.steps ==> s.w.t.steps[k] == 0)
    && Home(s) && forall u :: Get(s.stored, u) == Get(LampStock, u)
  }

  lemma YardRank(plan: int, s: Code)
    requires YardBusy(plan, s)
    ensures Rank(s.w.t) == 2 && AllPending(s.w.t)
  {
    hide Home;
    SumZero(s.w.t.steps);
    var none: map<int, int> := map[];
    assert CraftRepeats(s.w.t) == none[1 := 1][2 := 1];
    SumUpdate(none[1 := 1], 2, 1);
    SumUpdate(none, 1, 1);
    SumZero(none);
  }

  function YardAccepted(plan: int, s: Code): Code
    requires StepKey(plan, 1) in s.w.t.steps && StepKey(plan, 2) in s.w.t.steps
  {
    s.(w := World(AfterCleanup(BothSubmitted(s.w.t, plan), plan), s.w.phys), dirty := true && s.dirty)
  }

  lemma YardGetsBusy(plan: int, s: Code)
    requires YardOpen(plan, s.w.t) && Home(s) && forall u :: Get(s.stored, u) == Get(LampStock, u)
    ensures YardBusy(plan, YardAccepted(plan, s)) && s.w.t.crafts.Keys < YardAccepted(plan, s).w.t.crafts.Keys
  {
    YardSubmitted(plan, s.w.t);
    assert 1 in YardAccepted(plan, s).w.t.crafts;
    hide BothSubmitted, LampStock;
  }

  lemma YardOpens(plan: int, planSteps: seq<PlanStep>, t: Tables)
    requires PlanWritten(EmptyTables, t, plan, YardGoals, LampStock, YardSteps, planSteps)
    requires t.crafts == map[] && t.waits == {}
    requires forall i :: 0 <= i < |YardSteps| ==>
      StepKey(plan, YardSteps[i].recipe.id) in t.steps
        && t.steps[StepKey(plan, YardSteps[i].recipe.id)] == YardSteps[i].repeats
    requires forall k :: k in t.steps ==>
      k.plan == plan && exists i :: 0 <= i < |YardSteps| && YardSteps[i].recipe.id == k.recipe
    ensures YardOpen(plan, t)
  {
    hide PlanWritten;
    assert |YardSteps| == 2 && YardSteps[0].recipe.id == 1 && YardSteps[1].recipe.id == 2;
    forall u ensures AmountIn(t, plan, u) == 2 * One(u, Tool) {
      YardRows(plan, planSteps, t, u);
    }
  }

  lemma YardAccepts(book: Book, services: Services, plan: int, planSteps: seq<PlanStep>, s: Code) returns (s': Code)
    requires JustWritten(plan, YardGoals, LampStock, YardSteps, planSteps, s) && GoodBook(book)
    requires AtWork(book, services, plan, YardGoals, YardSteps, s) && book.Keys >= {1, 2}
    requires book[1] == LampRecipe && book[2] == ScrapRecipe
    requires forall u :: Get(s.stored, u) == Get(LampStock, u)
    ensures YardBusy(plan, s') && Gets(book, services, plan, YardGoals, YardSteps, ANY_TURN, s, s', true)
  {
    assert Home(s) && ANY_TURN.pings;
    hide *;
    RankAtWork(book, services, plan, YardGoals, YardSteps, s);
    WrittenSteps(book, services, plan, YardGoals, LampStock, YardSteps, planSteps, s);
    YardOpens(plan, planSteps, s.w.t);
    YardOpenRows(plan, s.w.t);
    YardChecked(book, plan, s.w.t);
    YardGetsBusy(plan, s);
    s' := YardAccepted(plan, s);
    YardAcceptedIs(plan, s);
    var t', trace := s'.w.t, [s.w.t, LampSubmitted(s.w.t, plan), BothSubmitted(s.w.t, plan)];
    WalkIsStep(book, services, plan, s, true, YardListing, trace, t');
    WalkAllowed(ANY_TURN, services, s, YardListing, trace);
    WalkWorks(services, s, true, YardListing, trace, s');
    GetsByMove(book, services, plan, YardGoals, YardSteps, ANY_TURN, s, Walk(true, YardListing, trace), s');
  }

  lemma YardOpenRows(plan: int, t: Tables)
    requires YardOpen(plan, t)
    ensures StepKey(plan, 1) in t.steps && StepKey(plan, 2) in t.steps
  {
  }

  lemma YardAcceptedIs(plan: int, s: Code)
    requires StepKey(plan, 1) in s.w.t.steps && StepKey(plan, 2) in s.w.t.steps
    ensures var s' := YardAccepted(plan, s);
      && s'.w.t == AfterCleanup(BothSubmitted(s.w.t, plan), plan)
      && s' == s.(w := World(s'.w.t, s.w.phys), dirty := true && s.dirty)
  {
  }

  /** Both tools are there for the lamp. */
  lemma LampHasTools(book: Book, services: Services, plan: int, s: Code)
    requires YardBusy(plan, s) && Served(book, services, 1) && 1 in book && book[1] == LampRecipe
    ensures InputsStored(book, services, s, 1)
  {
    forall u | Intake(LampRecipe, u) > 0 ensures Intake(LampRecipe, u) * 1 <= Get(s.stored, u) {
      YardNames();
      YardAmounts(u);
      hide AmountOf;
    }
    hide Intake, LampStock, TakesOn, CraftBatch.Portions, Home;
    assert RecipeOf(book, 1) == LampRecipe;
  }

  lemma AnyWorker(services: Services, t: Tables, id: int) returns (worker: string)
    requires id in t.crafts && t.crafts[id].recipe in services && HiredMatches(services, t)
    requires services[t.crafts[id].recipe].Crafting? ==> services[t.crafts[id].recipe].clients != {}
    ensures services[t.crafts[id].recipe].Crafting? ==> Employs(services, t.crafts[id].recipe, worker)
  {
    worker := "";
    if services[t.crafts[id].recipe].Crafting? {
      worker := SomeClient(services, t, id);
    }
  }

  /** A batch of a craft with its inputs stored, in any order. */
  lemma RunOne(book: Book, services: Services, plan: int, goals: seq<Stack>, steps: seq<Planner.Step>, s: Code, id: int)
    returns (s': Code)
    requires AtWork(book, services, plan, goals, steps, s) && Home(s) && AllPending(s.w.t) && id in s.w.t.crafts
    requires Served(book, services, s.w.t.crafts[id].recipe) && InputsStored(book, services, s, id)
    ensures Gets(book, services, plan, goals, steps, ANY_TURN, s, s', true) && OthersStay(s.w.t, s'.w.t, id)
  {
    CraftsServed(book, services, plan, goals, steps, s);
    CraftIsServed(book, services, plan, goals, steps, s, id);
    var recipe := s.w.t.crafts[id].recipe;
    assert services[recipe].Crafting? ==> services[recipe].clients != {};
    assert ANY_TURN.anyTurn;
    hide *;
    var worker := AnyWorker(services, s.w.t, id);
    s' := RunCraft(book, services, plan, goals, steps, ANY_TURN, s, id, worker);
  }

  /** The last craft needs no more than its ingredients. */
  lemma RunLastOne(book: Book, services: Services, plan: int, goals: seq<Stack>, steps: seq<Planner.Step>, s: Code,
                   id: int)
    returns (s': Code)
    requires AtWork(book, services, plan, goals, steps, s) && id in s.w.t.crafts
    requires Uncontested(steps, s.w.t.crafts[id].recipe)
    ensures Gets(book, services, plan, goals, steps, ANY_TURN, s, s', true)
  {
    hide *;
    if AllPending(s.w.t) {
      var home := BringHome(book, services, plan, goals, steps, ANY_TURN, s);
      GetsFacts(book, services, plan, goals, steps, ANY_TURN, s, home, false);
      AnyCraftStored(book, services, plan, goals, steps, home, id);
      s' := RunOne(book, services, plan, goals, steps, home, id);
      GetsJoins(book, services, plan, goals, steps, ANY_TURN, s, home, s', false, true);
    } else {
      var c := AnyCommitted(s.w.t);
      s' := FinishOne(book, services, plan, goals, steps, ANY_TURN, s, c);
    }
  }

  lemma TheOtherStays(t: Tables, t': Tables, id: int, c: int)
    requires OthersStay(t, t', id) && c in t.crafts && c != id
    ensures c in t'.crafts && t'.crafts[c].recipe == t.crafts[c].recipe
  {
  }

  /**
    The lamp's plan with scrap to be made of a tool: the plan keeps one tool of the two that the
    lamp is made with, and the server can bring it to its end all the same, for the second one is
    still planned for the scrap when the lamp is submitted.
   */
  lemma NotKeptCanFinish(book: Book, services: Services, plan: int, planSteps: seq<PlanStep>, s: Code)
    returns (end: Code)
    requires TableBook([LampRecipe, ScrapRecipe], book) && GoodBook(book)
    requires JustWritten(plan, YardGoals, LampStock, YardSteps, planSteps, s)
    requires forall u :: Get(s.stored, u) == Get(LampStock, u)
    requires AllServed(book, services, YardSteps)
    ensures AllCovered(YardGoals, LampStock, YardSteps) && !CatalystsKept(YardGoals, YardSteps)
    ensures CodeReach(book, services, plan, ANY_TURN, s, end) && CodeFinished(plan, YardGoals, YardSteps, end)
  {
    YardListed(book);
    YardPlan();
    YardStarts(book, services, plan, planSteps, s);
    assert YardSteps[0].recipe.id == 1 && Served(book, services, 1);
    hide *;
    AtWorkFrom(book, services, plan, YardGoals, YardSteps, s);
    var busy := YardAccepts(book, services, plan, planSteps, s);
    GetsFacts(book, services, plan, YardGoals, YardSteps, ANY_TURN, s, busy, true);
    YardCrafts(plan, busy);
    YardRank(plan, busy);
    LampHasTools(book, services, plan, busy);
    var lit := RunOne(book, services, plan, YardGoals, YardSteps, busy, 1);
    GetsFacts(book, services, plan, YardGoals, YardSteps, ANY_TURN, busy, lit, true);
    TheOtherStays(busy.w.t, lit.w.t, 1, 2);
    var done := RunLastOne(book, services, plan, YardGoals, YardSteps, lit, 2);
    GetsFacts(book, services, plan, YardGoals, YardSteps, ANY_TURN, lit, done, true);
    RankAtWork(book, services, plan, YardGoals, YardSteps, done);
    InvParts(book, services, plan, YardGoals, YardSteps, done);
    NoRankLeft(book, plan, YardSteps, done.w.t);
    end := BringHome(book, services, plan, YardGoals, YardSteps, ANY_TURN, done);
    GetsFacts(book, services, plan, YardGoals, YardSteps, ANY_TURN, done, end, false);
    EndsFinished(book, services, plan, YardGoals, YardSteps, end);
    CodeReachJoins(book, services, plan, ANY_TURN, lit, done, end);
    CodeReachJoins(book, services, plan, ANY_TURN, busy, lit, end);
    CodeReachJoins(book, services, plan, ANY_TURN, s, busy, end);
  }

  lemma YardCrafts(plan: int, s: Code)
    requires YardBusy(plan, s)
    ensures 1 in s.w.t.crafts && s.w.t.crafts[1].recipe == 1 && 2 in s.w.t.crafts && s.w.t.crafts[2].recipe == 2
    ensures Home(s)
  {
  }
}
