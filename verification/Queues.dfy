/** A machine takes its crafts in the order of their rows: a first craft that cannot start holds up those behind it. */
module Queues {
  import opened Recipes
  import opened Planner
  import opened PlanTheorems
  import opened Ledger
  import opened LedgerRuns
  import opened Scheduler
  import opened PlanAcceptance
  import opened PlanRuns
  import opened Progress
  import opened ProcessingRequest
  import opened CodeRuns
  import opened Completion
  import opened Deadlock

  // ---------------------------------------------------------------- the first craft of a machine

  predicate OnMachine(services: Services, t: Tables, c: int, m: Machine)
    requires c in t.crafts
  {
    && t.crafts[c].recipe in services && services[t.crafts[c].recipe].Processing?
    && services[t.crafts[c].recipe].machine == m
  }

  /** A craft of the machine waits behind the first; any other craft does not make the item. */
  ghost predicate WaitsBehind(book: Book, services: Services, s: Code, id: int, m: Machine, u: Uid, c: int)
    requires c in s.w.t.crafts
  {
    if OnMachine(services, s.w.t, c, m) then s.w.t.crafts[c].status.Pending? && c !in s.held && id <= c
    else AmountOf(RecipeOf(book, s.w.t.crafts[c].recipe).results, u) == 0
  }

  /** Nothing is left to submit, and the first craft of the machine lacks an item that only crafts behind it make. */
  ghost predicate FirstLacks(book: Book, services: Services, s: Code, id: int, m: Machine, u: Uid) {
    && id in s.w.t.crafts && OnMachine(services, s.w.t, id, m)
    && Get(s.w.phys, u) < Intake(RecipeOf(book, s.w.t.crafts[id].recipe), u)
    && (forall k :: k in s.w.t.steps ==> s.w.t.steps[k] <= 0)
    && forall c :: c in s.w.t.crafts ==> WaitsBehind(book, services, s, id, m, u, c)
  }

  lemma StillLacks(book: Book, services: Services, s: Code, s': Code, id: int, m: Machine, u: Uid)
    requires FirstLacks(book, services, s, id, m, u) && id in s'.w.t.crafts && s'.w.t.steps == s.w.t.steps
    requires Get(s'.w.phys, u) <= Get(s.w.phys, u)
    requires forall c :: c in s'.w.t.crafts ==>
      && c in s.w.t.crafts && s'.w.t.crafts[c].recipe == s.w.t.crafts[c].recipe
      && (OnMachine(services, s.w.t, c, m) ==>
            s'.w.t.crafts[c].status == s.w.t.crafts[c].status && (c in s'.held ==> c in s.held))
    ensures FirstLacks(book, services, s', id, m, u)
  {
    hide RecipeOf, Intake;
    forall c | c in s'.w.t.crafts ensures WaitsBehind(book, services, s', id, m, u, c) {
      assert WaitsBehind(book, services, s, id, m, u, c);
    }
  }

  /** No craft of the machine can be exported: the first lacks the item, and the others are not in turn. */
  lemma FirstHoldsUp(book: Book, services: Services, plan: int, goals: seq<Stack>, steps: seq<Planner.Step>, s: Code,
                     id: int, m: Machine, u: Uid, c: int)
    requires CodeInv(book, services, plan, goals, steps, s) && AllServed(book, services, steps)
    requires FirstLacks(book, services, s, id, m, u) && CanExport(book, services, s, c)
    requires InTurn(services, s.w.t, Export(c))
    ensures !OnMachine(services, s.w.t, c, m)
  {
    InvParts(book, services, plan, goals, steps, s);
    if OnMachine(services, s.w.t, c, m) {
      assert WaitsBehind(book, services, s, id, m, u, c) && SameQueue(services, s.w.t.crafts[c], s.w.t.crafts[id]);
      assert c == id;
      HeldNonNegative(book, services, plan, goals, steps, s);
      StoredIsThere(book, services, plan, goals, steps, s, u);
      MachineBatch(book, services, s, c);
      hide CodeInv, AllServed, Going, Orderly, Placed, Batch, Intake;
      assert false;
    }
  }

  lemma MachineBatch(book: Book, services: Services, s: Code, c: int)
    requires CanExport(book, services, s, c) && services[s.w.t.crafts[c].recipe].Processing?
    requires s.w.t.crafts[c].repeats >= 1
    ensures forall u :: Intake(RecipeOf(book, s.w.t.crafts[c].recipe), u) > 0 ==>
      Intake(RecipeOf(book, s.w.t.crafts[c].recipe), u) <= Get(s.stored, u)
  {
    hide RecipeOf, Intake, TakesOn;
  }

  lemma NothingToSubmit(book: Book, plan: int, s: Code, pinged: bool, listed: seq<PlanStep>, trace: seq<Tables>,
                        s': Code)
    requires WalkStep(book, plan, s, pinged, listed, trace, s') && forall k :: k in s.w.t.steps ==> s.w.t.steps[k] <= 0
    ensures s'.w == s.w
  {
    hide Checked, Lists;
    forall p | p in listed ensures !CanSubmit(book, s.w.t, plan, p) {
      var i :| 0 <= i < |listed| && listed[i] == p;
      assert FreshStep(book, s.w.t, plan, listed[i]);
    }
    hide Fresh, CanSubmit;
    CheckSubmitsIff(book, s.w.t, plan, listed, trace, s'.w.t);
  }

  lemma OthersLeft(t: Tables, t': Tables, c: int)
    requires t'.crafts - {c} == t.crafts - {c}
    ensures forall k :: k != c ==>
      (k in t'.crafts <==> k in t.crafts) && (k in t.crafts ==> t'.crafts[k] == t.crafts[k])
  {
    forall k | k != c
      ensures (k in t'.crafts <==> k in t.crafts) && (k in t.crafts ==> t'.crafts[k] == t.crafts[k])
    {
      assert k in t.crafts <==> k in t.crafts - {c};
      assert k in t'.crafts <==> k in t'.crafts - {c};
      assert k in t.crafts ==> (t.crafts - {c})[k] == t.crafts[k];
      assert k in t'.crafts ==> (t'.crafts - {c})[k] == t'.crafts[k];
    }
  }

  lemma StartMakesNone(book: Book, services: Services, s: Code, c: int, s': Code, u: Uid)
    requires GoodBook(book) && StartStep(book, services, s, c, s') && s.held[c] >= 1
    requires AmountOf(RecipeOf(book, s.w.t.crafts[c].recipe).results, u) == 0
    ensures Get(s'.w.phys, u) <= Get(s.w.phys, u)
  {
    StartFacts(book, services, s, c, s');
    hide StartStep, Started, Plus, PlusOutputs, RecipeOf, AmountOf, GoodBook;
    var r, n := RecipeOf(book, s.w.t.crafts[c].recipe), s.held[c];
    PlusGet(s.w.phys, r.ingredients, -n, u);
    PlusGet(Plus(s.w.phys, r.ingredients, -n), r.results, n, u);
    IngredientsTaken(book, s.w.t.crafts[c].recipe, n, u);
  }

  lemma StartChanges(book: Book, services: Services, s: Code, c: int, s': Code)
    requires StartStep(book, services, s, c, s')
    ensures c in s.held && c in s.w.t.crafts && s'.held == s.held - {c} && s'.w.t.steps == s.w.t.steps
    ensures s'.w.t.crafts - {c} == s.w.t.crafts - {c}
    ensures c in s'.w.t.crafts ==> s'.w.t.crafts[c].recipe == s.w.t.crafts[c].recipe
  {
    StartedRows(services, s.w.t, c, RecipeOf(book, s.w.t.crafts[c].recipe), s.held[c]);
    StartKeepsPlan(book, services, s, c, s');
    hide Started, Plus, PlusOutputs, RecipeOf, Unengaged, Direct;
  }

  /** A craft whose inputs are out is not the machine's, and makes none of the item. */
  lemma HeldIsElsewhere(book: Book, services: Services, s: Code, id: int, m: Machine, u: Uid, c: int)
    requires FirstLacks(book, services, s, id, m, u) && c in s.w.t.crafts
    requires c in s.held || s.w.t.crafts[c].status.Committed?
    ensures !OnMachine(services, s.w.t, c, m) && AmountOf(RecipeOf(book, s.w.t.crafts[c].recipe).results, u) == 0
  {
    assert WaitsBehind(book, services, s, id, m, u, c);
  }

  /** The start of a craft elsewhere makes none of the item. */
  lemma StartStillLacks(book: Book, services: Services, plan: int, goals: seq<Stack>, steps: seq<Planner.Step>,
                        s: Code, c: int, s': Code, id: int, m: Machine, u: Uid)
    requires CodeInv(book, services, plan, goals, steps, s) && AllServed(book, services, steps)
    requires FirstLacks(book, services, s, id, m, u) && StartStep(book, services, s, c, s')
    ensures FirstLacks(book, services, s', id, m, u)
  {
    hide *;
    InvParts(book, services, plan, goals, steps, s);
    StartChanges(book, services, s, c, s');
    HeldCounts(book, services, plan, goals, steps, s, c);
    HeldIsElsewhere(book, services, s, id, m, u, c);
    StartMakesNone(book, services, s, c, s', u);
    OthersLeft(s.w.t, s'.w.t, c);
    FirstIsFree(book, services, s, id, m, u);
    StillLacks(book, services, s, s', id, m, u);
  }

  lemma FirstIsFree(book: Book, services: Services, s: Code, id: int, m: Machine, u: Uid)
    requires FirstLacks(book, services, s, id, m, u)
    ensures id in s.w.t.crafts && id !in s.held && s.w.t.crafts[id].status.Pending?
  {
    assert WaitsBehind(book, services, s, id, m, u, id);
  }

  lemma IngredientsTaken(book: Book, recipe: int, n: int, u: Uid)
    requires GoodBook(book) && n >= 0
    ensures AmountOf(RecipeOf(book, recipe).ingredients, u) * -n <= 0
  {
    PositiveWhenMentioned(RecipeOf(book, recipe).ingredients, u);
  }

  lemma FinishMakesNone(book: Book, services: Services, s: Code, c: int, s': Code, u: Uid)
    requires FinishStep(book, services, s, c, s') && Orderly(book, services, s) && s.w.t.crafts[c].committed >= 0
    requires AmountOf(RecipeOf(book, s.w.t.crafts[c].recipe).results, u) == 0
    ensures Get(s'.w.phys, u) == Get(s.w.phys, u)
  {
    FinishFacts(book, services, s, c, s');
    hide FinishStep, Plus, PlusOutputs, RecipeOf, AmountOf, Orderly;
    PlusGet(s.w.phys, RecipeOf(book, s.w.t.crafts[c].recipe).results, s.w.t.crafts[c].committed, u);
  }

  lemma FinishChanges(book: Book, services: Services, s: Code, c: int, s': Code)
    requires FinishStep(book, services, s, c, s') && WaitsMatch(services, s.w.t)
    ensures c in s.w.t.crafts && s.w.t.crafts[c].status.Committed?
    ensures s'.held == s.held && s'.w.t.steps == s.w.t.steps && s'.w.t.crafts - {c} == s.w.t.crafts - {c}
    ensures c in s'.w.t.crafts ==> s'.w.t.crafts[c].recipe == s.w.t.crafts[c].recipe
  {
    FinishedRows(book, services, s, c, s');
    FinishKeepsPlan(book, services, s, c, s');
    hide Plus, PlusOutputs, RecipeOf, AfterComplete, DropWait, ShowsOutput, WaitsMatch;
  }

  /** So does a completion. */
  lemma FinishStillLacks(book: Book, services: Services, plan: int, goals: seq<Stack>, steps: seq<Planner.Step>,
                         s: Code, c: int, s': Code, id: int, m: Machine, u: Uid)
    requires CodeInv(book, services, plan, goals, steps, s)
    requires FirstLacks(book, services, s, id, m, u) && FinishStep(book, services, s, c, s')
    ensures FirstLacks(book, services, s', id, m, u)
  {
    hide *;
    InvParts(book, services, plan, goals, steps, s);
    FinishChanges(book, services, s, c, s');
    FinishOnward(book, services, plan, goals, steps, s, c, s');
    HeldIsElsewhere(book, services, s, id, m, u, c);
    FinishMakesNone(book, services, s, c, s', u);
    OthersLeft(s.w.t, s'.w.t, c);
    FirstIsFree(book, services, s, id, m, u);
    StillLacks(book, services, s, s', id, m, u);
  }

  lemma ReportStillLacks(book: Book, services: Services, s: Code, v: Uid, s': Code, id: int, m: Machine, u: Uid)
    requires FirstLacks(book, services, s, id, m, u) && ReportStep(s, v, s')
    ensures FirstLacks(book, services, s', id, m, u)
  {
    hide FirstLacks, Allocates;
    AllocateRows(s.w.t, s'.w.t, v, Get(s.stored, v));
    FirstIsFree(book, services, s, id, m, u);
    StillLacks(book, services, s, s', id, m, u);
  }

  lemma ExportStillLacks(book: Book, services: Services, plan: int, goals: seq<Stack>, steps: seq<Planner.Step>,
                         s: Code, c: int, s': Code, id: int, m: Machine, u: Uid)
    requires CodeInv(book, services, plan, goals, steps, s) && AllServed(book, services, steps)
    requires FirstLacks(book, services, s, id, m, u) && ExportStep(book, services, s, c, s')
    requires InTurn(services, s.w.t, Export(c))
    ensures FirstLacks(book, services, s', id, m, u)
  {
    FirstHoldsUp(book, services, plan, goals, steps, s, id, m, u, c);
    hide CodeInv, AllServed, FirstLacks, InTurn, CanExport, PlusInputs, RecipeOf, Batch;
    FirstIsFree(book, services, s, id, m, u);
    StillLacks(book, services, s, s', id, m, u);
  }

  lemma WalkStillLacks(book: Book, services: Services, plan: int, s: Code, pinged: bool, listed: seq<PlanStep>,
                       trace: seq<Tables>, s': Code, id: int, m: Machine, u: Uid)
    requires FirstLacks(book, services, s, id, m, u) && WalkStep(book, plan, s, pinged, listed, trace, s')
    ensures FirstLacks(book, services, s', id, m, u)
  {
    hide FirstLacks, WalkStep;
    FirstIsFree(book, services, s, id, m, u);
    LeftToSubmit(book, services, s, id, m, u);
    NothingToSubmit(book, plan, s, pinged, listed, trace, s');
    WalkHolds(book, plan, s, pinged, listed, trace, s');
    StillLacks(book, services, s, s', id, m, u);
  }

  lemma HireStillLacks(book: Book, services: Services, s: Code, c: int, worker: string, s': Code, id: int, m: Machine,
                       u: Uid)
    requires FirstLacks(book, services, s, id, m, u) && c in s.w.t.crafts
    requires s' == s.(w := World(AfterAssign(s.w.t, c, worker), s.w.phys))
    ensures FirstLacks(book, services, s', id, m, u)
  {
    FirstIsFree(book, services, s, id, m, u);
    hide FirstLacks;
    StillLacks(book, services, s, s', id, m, u);
  }

  /** A move that leaves tables and stock alone, and takes nothing out. */
  lemma IdleStillLacks(book: Book, services: Services, s: Code, s': Code, id: int, m: Machine, u: Uid)
    requires FirstLacks(book, services, s, id, m, u) && s'.w == s.w && s'.held.Keys <= s.held.Keys
    ensures FirstLacks(book, services, s', id, m, u)
  {
    FirstIsFree(book, services, s, id, m, u);
    hide FirstLacks;
    StillLacks(book, services, s, s', id, m, u);
  }

  /** In turn and without a delivery, no move gets the first craft what it lacks. */
  lemma MoveStillLacks(book: Book, services: Services, plan: int, goals: seq<Stack>, steps: seq<Planner.Step>,
                       s: Code, move: CodeMove, s': Code, id: int, m: Machine, u: Uid)
    requires CodeInv(book, services, plan, goals, steps, s) && AllServed(book, services, steps)
    requires FirstLacks(book, services, s, id, m, u) && CodeStep(book, services, plan, s, move, s')
    requires Allowed(IN_TURN, services, s, move)
    ensures FirstLacks(book, services, s', id, m, u)
  {
    hide CodeInv, AllServed, FirstLacks, WalkStep, ReportStep, ExportStep, StartStep, FinishStep, PlusInputs, RecipeOf,
      InTurn, AfterAssign;
    match move
    case Walk(pinged, listed, trace) =>
      WalkStillLacks(book, services, plan, s, pinged, listed, trace, s', id, m, u);
    case Report(v) => ReportStillLacks(book, services, s, v, s', id, m, u);
    case Hire(c, worker) => HireStillLacks(book, services, s, c, worker, s', id, m, u);
    case Export(c) => ExportStillLacks(book, services, plan, goals, steps, s, c, s', id, m, u);
    case Start(c) => StartStillLacks(book, services, plan, goals, steps, s, c, s', id, m, u);
    case Finish(c) => FinishStillLacks(book, services, plan, goals, steps, s, c, s', id, m, u);
    case _ => IdleStillLacks(book, services, s, s', id, m, u);
  }

  lemma LeftToSubmit(book: Book, services: Services, s: Code, id: int, m: Machine, u: Uid)
    requires FirstLacks(book, services, s, id, m, u)
    ensures forall k :: k in s.w.t.steps ==> s.w.t.steps[k] <= 0
  {
  }

  lemma WalkHolds(book: Book, plan: int, s: Code, pinged: bool, listed: seq<PlanStep>, trace: seq<Tables>, s': Code)
    requires WalkStep(book, plan, s, pinged, listed, trace, s')
    ensures s'.held == s.held
  {
    hide Checked, Fresh, Lists;
  }

  lemma {:induction false} RunStillLacks(book: Book, services: Services, plan: int, goals: seq<Stack>,
      steps: seq<Planner.Step>, states: seq<Code>, moves: seq<CodeMove>, n: nat, id: int, m: Machine, u: Uid)
    requires IsCodeRun(book, services, plan, states, moves) && n < |states|
    requires forall i :: 0 <= i < |moves| ==> Allowed(IN_TURN, services, states[i], moves[i])
    requires CodeInv(book, services, plan, goals, steps, states[0]) && AllServed(book, services, steps)
    requires FirstLacks(book, services, states[0], id, m, u)
    ensures FirstLacks(book, services, states[n], id, m, u)
  {
    hide *;
    if n > 0 {
      RunStep(book, services, plan, states, moves, n);
      RunStillLacks(book, services, plan, goals, steps, states, moves, n - 1, id, m, u);
      CodeRunOnward(book, services, plan, goals, steps, states, moves, n - 1);
      MoveStillLacks(book, services, plan, goals, steps, states[n - 1], moves[n - 1], states[n], id, m, u);
    }
  }

  /**
    A machine's first craft that lacks an item which only crafts behind it make keeps the plan from
    its end, however it is checked and counted, until some of the item is delivered.
   */
  lemma FirstHoldsUpThePlan(book: Book, services: Services, plan: int, goals: seq<Stack>, steps: seq<Planner.Step>,
                            s: Code, end: Code, id: int, m: Machine, u: Uid)
    requires CodeInv(book, services, plan, goals, steps, s) && AllServed(book, services, steps)
    requires FirstLacks(book, services, s, id, m, u) && CodeReach(book, services, plan, IN_TURN, s, end)
    ensures !NothingLeft(plan, steps, end.w.t)
  {
    var states, moves :| CodeLeads(book, services, plan, IN_TURN, s, states, moves, end);
    RunLength(book, services, plan, states, moves);
    hide CodeInv, AllServed, FirstLacks, IsCodeRun, Allowed;
    RunStillLacks(book, services, plan, goals, steps, states, moves, |moves|, id, m, u);
    FirstIsFree(book, services, end, id, m, u);
  }

  // ---------------------------------------------------------------- a plan that its queue can hold up

  const Cast := Uid("cast")
  const Tile := Uid("tile")
  const Mould := Uid("mould")
  const Clay := Uid("clay")
  const Wax := Uid("wax")

  /** A cast is made of clay with a mould, a tile of a mould, and a mould of wax. */
  const CastRecipe := Recipe(1, None, [RecipeItem(Cast, 1, None)], [RecipeItem(Clay, 1, None)],
    [RecipeItem(Mould, 1, None)])
  const TileRecipe := Recipe(2, None, [RecipeItem(Tile, 1, None)], [RecipeItem(Mould, 1, None)], [])
  const MouldRecipe := Recipe(3, None, [RecipeItem(Mould, 1, None)], [RecipeItem(Wax, 1, None)], [])
  const ShopSteps := [Planner.Step(CastRecipe, 1), Planner.Step(TileRecipe, 1), Planner.Step(MouldRecipe, 1)]
  const ShopGoals := [Stack(Cast, 1), Stack(Tile, 1)]
  const ShopStock: map<Uid, int> := map[Mould := 1, Clay := 1, Wax := 1]

  lemma ShopNames()
    ensures Cast != Tile && Cast != Mould && Tile != Mould
    ensures Cast != Clay && Cast != Wax && Tile != Clay && Tile != Wax && Mould != Clay && Mould != Wax && Clay != Wax
  {
    assert "cast"[0] == 'c' && "tile"[0] == 't' && "mould"[0] == 'm' && "clay"[1] == 'l' && "cast"[1] == 'a'
      && "wax"[0] == 'w' && "clay"[0] == 'c';
  }

  function One(u: Uid, v: Uid): int {
    if u == v then 1 else 0
  }

  lemma OneLine(v: Uid, u: Uid)
    ensures var items := [RecipeItem(v, 1, None)];
      AmountOf(items, u) == One(u, v) && MaxAmountOf(items, u) == One(u, v) && (Mentions(items, u) <==> u == v)
  {
    var items := [RecipeItem(v, 1, None)];
    assert items[..0] == [] && items[0].uid == v;
  }

  lemma NoLine(u: Uid)
    ensures AmountOf([], u) == 0 && MaxAmountOf([], u) == 0 && !Mentions([], u)
  {
  }

  lemma ShopAmounts(u: Uid)
    ensures AmountOf(CastRecipe.results, u) == One(u, Cast) && AmountOf(CastRecipe.ingredients, u) == One(u, Clay)
    ensures AmountOf(CastRecipe.catalysts, u) == One(u, Mould) == MaxAmountOf(CastRecipe.catalysts, u)
    ensures AmountOf(TileRecipe.results, u) == One(u, Tile) && AmountOf(TileRecipe.ingredients, u) == One(u, Mould)
    ensures AmountOf(TileRecipe.catalysts, u) == 0 == MaxAmountOf(TileRecipe.catalysts, u)
    ensures AmountOf(MouldRecipe.results, u) == One(u, Mould) && AmountOf(MouldRecipe.ingredients, u) == One(u, Wax)
    ensures AmountOf(MouldRecipe.catalysts, u) == 0 == MaxAmountOf(MouldRecipe.catalysts, u)
  {
    OneLine(Cast, u);
    OneLine(Clay, u);
    OneLine(Mould, u);
    OneLine(Tile, u);
    OneLine(Wax, u);
    NoLine(u);
    hide AmountOf, MaxAmountOf, One;
  }

  lemma ShopGoalCounts(u: Uid)
    ensures GoalOf(ShopGoals, u) == One(u, Cast) + One(u, Tile) && (IsGoal(ShopGoals, u) <==> u == Cast || u == Tile)
  {
    ShopNames();
    assert ShopGoals[..1] == [Stack(Cast, 1)] && ShopGoals[..1][..0] == [];
    assert GoalOf(ShopGoals[..1], u) == One(u, Cast);
    assert ShopGoals[0].uid == Cast && ShopGoals[1].uid == Tile;
  }

  lemma ShopTotals(u: Uid)
    ensures Used(ShopSteps, u) == One(u, Clay) + One(u, Mould) + One(u, Wax) && Held(ShopSteps, u) == One(u, Mould)
    ensures Produced(ShopSteps, u) == One(u, Cast) + One(u, Tile) + One(u, Mould)
  {
    ShopAmounts(u);
    assert ShopSteps[..2][..1][..0] == [] && ShopSteps[..2][..1] == [ShopSteps[0]]
      && ShopSteps[..2] == [ShopSteps[0], ShopSteps[1]];
    hide AmountOf, MaxAmountOf;
    assert Used(ShopSteps[..1], u) == One(u, Clay) && Held(ShopSteps[..1], u) == One(u, Mould)
      && Produced(ShopSteps[..1], u) == One(u, Cast);
    assert Used(ShopSteps[..2], u) == One(u, Clay) + One(u, Mould) && Held(ShopSteps[..2], u) == One(u, Mould)
      && Produced(ShopSteps[..2], u) == One(u, Cast) + One(u, Tile);
  }

  /** The plan covers everything, and keeps the catalysts that its steps need. */
  lemma ShopPlan()
    ensures AllCovered(ShopGoals, ShopStock, ShopSteps) && NonNegative(ShopStock)
    ensures forall i :: 0 <= i < |ShopGoals| ==> ShopGoals[i].count >= 0
    ensures CatalystsKept(ShopGoals, ShopSteps) && ProducersLater(ShopSteps)
    ensures DistinctIds(ShopSteps) && DistinctRecipes(ShopSteps)
  {
    ShopNames();
    forall u ensures Balance(ShopGoals, ShopStock, ShopSteps, u) >= 0 {
      ShopTotals(u);
      ShopGoalCounts(u);
      hide GoalOf, Used, Held, Produced, IsGoal;
    }
    forall i, u | 0 <= i < |ShopSteps|
      ensures AmountOf(ShopSteps[i].recipe.catalysts, u) <= Base(ShopGoals, ShopSteps, u)
    {
      ShopTotals(u);
      ShopGoalCounts(u);
      ShopAmounts(u);
    }
    forall a, b, u | 0 <= a <= b < |ShopSteps| && Mentions(ShopSteps[a].recipe.results, u)
      ensures !IsInput(ShopSteps[b].recipe, u)
    {
      OneLine(Cast, u);
      OneLine(Clay, u);
      OneLine(Mould, u);
      OneLine(Tile, u);
      OneLine(Wax, u);
      hide Mentions;
    }
  }

  lemma ShopListed(book: Book)
    requires TableBook([CastRecipe, TileRecipe, MouldRecipe], book)
    ensures 1 in book && book[1] == CastRecipe && 2 in book && book[2] == TileRecipe && 3 in book
      && book[3] == MouldRecipe && book.Keys >= {1, 2, 3}
    ensures forall i :: 0 <= i < |ShopSteps| ==>
      && ShopSteps[i].recipe.id in book && book[ShopSteps[i].recipe.id] == ShopSteps[i].recipe
      && ShopSteps[i].repeats > 0
  {
    var table := [CastRecipe, TileRecipe, MouldRecipe];
    assert table[0] in table && table[1] in table && table[2] in table;
  }

  lemma JustAccepted(book: Book, plan: int, goals: seq<Stack>, storage: map<Uid, int>, steps: seq<Planner.Step>,
                     planSteps: seq<PlanStep>, s: Code)
    requires JustWritten(plan, goals, storage, steps, planSteps, s) && GoodBook(book)
    requires AllCovered(goals, storage, steps) && NonNegative(storage) && DistinctRecipes(steps)
    requires forall i :: 0 <= i < |goals| ==> goals[i].count >= 0
    requires forall i :: 0 <= i < |steps| ==>
      steps[i].recipe.id in book && book[steps[i].recipe.id] == steps[i].recipe && steps[i].repeats > 0
    ensures Accepted(book, plan, goals, storage, steps, planSteps, s.w)
  {
    JustWrittenFacts(plan, goals, storage, steps, planSteps, s);
    hide GoodBook, AllCovered, PlanWritten, NonNegative, DistinctRecipes, JustWritten;
  }

  lemma ShopStarts(book: Book, services: Services, plan: int, planSteps: seq<PlanStep>, s: Code)
    requires TableBook([CastRecipe, TileRecipe, MouldRecipe], book) && GoodBook(book)
    requires JustWritten(plan, ShopGoals, ShopStock, ShopSteps, planSteps, s)
    ensures CodeInv(book, services, plan, ShopGoals, ShopSteps, s)
  {
    ShopListed(book);
    ShopPlan();
    hide *;
    JustAccepted(book, plan, ShopGoals, ShopStock, ShopSteps, planSteps, s);
    AcceptedInv(book, plan, ShopGoals, ShopStock, ShopSteps, planSteps, s.w);
    WrittenInv(book, services, plan, ShopGoals, ShopStock, ShopSteps, planSteps, s);
  }

  lemma InsertedAmount(plan: int, rows: map<Uid, Row>, stepRows: map<int, int>, u: Uid)
    ensures AmountIn(AfterInsertPlan(EmptyTables, plan, rows, stepRows), plan, u)
         == if u in rows then rows[u].amount else 0
  {
    WrittenTables(plan, rows, stepRows);
    hide AfterInsertPlan;
  }

  lemma RowAmount(goals: seq<Stack>, storage: map<Uid, int>, steps: seq<Planner.Step>, rows: map<Uid, Row>, u: Uid)
    requires IsItemRows(goals, storage, steps, rows) && Assumed(goals, storage, u) >= 0
    ensures PlanAcceptance.Min(Assumed(goals, storage, u), Demand(goals, steps, u))
         == if u in rows then rows[u].amount else 0
  {
    hide Assumed, Demand;
  }

  /** What the rows of a plan hold when it is written. */
  lemma WrittenAmount(plan: int, goals: seq<Stack>, storage: map<Uid, int>, steps: seq<Planner.Step>,
                      planSteps: seq<PlanStep>, t: Tables, u: Uid)
    requires PlanWritten(EmptyTables, t, plan, goals, storage, steps, planSteps) && Assumed(goals, storage, u) >= 0
    ensures AmountIn(t, plan, u) == PlanAcceptance.Min(Assumed(goals, storage, u), Demand(goals, steps, u))
  {
    hide IsItemRows, IsStepRows, Assumed, Demand, AfterInsertPlan, AmountIn, PlanAcceptance.Min;
    var rows, stepRows :| IsItemRows(goals, storage, steps, rows) && IsStepRows(steps, planSteps, stepRows)
      && t == AfterInsertPlan(EmptyTables, plan, rows, stepRows);
    InsertedAmount(plan, rows, stepRows, u);
    RowAmount(goals, storage, steps, rows, u);
  }

  lemma ShopRows(plan: int, planSteps: seq<PlanStep>, t: Tables, u: Uid)
    requires PlanWritten(EmptyTables, t, plan, ShopGoals, ShopStock, ShopSteps, planSteps)
    ensures AmountIn(t, plan, u) == One(u, Mould) + One(u, Clay) + One(u, Wax)
  {
    ShopNames();
    ShopTotals(u);
    ShopGoalCounts(u);
    hide PlanWritten, GoalOf, Used, IsGoal, AmountIn;
    WrittenAmount(plan, ShopGoals, ShopStock, ShopSteps, planSteps, t, u);
  }

  /** A step of one repeat whose inputs the plan holds is submitted. */
  lemma SubmitsOne(book: Book, plan: int, t: Tables, recipe: int, id: int)
    requires GoodBook(book) && FreshStep(book, t, plan, PlanStep(recipe, 1)) && id !in t.crafts
    requires forall u :: Intake(book[recipe], u) <= AmountIn(t, plan, u)
    ensures CanInsertCraft(t, plan, book[recipe], 1)
    ensures StepChecked(book, t, plan, PlanStep(recipe, 1), AfterInsertCraft(t, id, plan, book[recipe], 1))
  {
    var p, r := PlanStep(recipe, 1), book[recipe];
    assert Fits(t, plan, r, 1, 1);
    FittingIsAccepted(book, t, plan, p, 1);
    BudgetBounds(t, plan, r, 1);
    hide Intake, AmountIn, GoodBook, CanInsertCraft, Spend, Fits;
    assert IsMost(t, plan, r, 1, 1);
    assert Submits(book, t, plan, p, id, 1, AfterInsertCraft(t, id, plan, r, 1));
  }

  /** The tables after one repeat of each recipe was submitted, in the order of the plan. */
  function AfterShop(t: Tables, plan: int, n: nat): Tables
    requires n <= 3 && forall id :: id in {1, 2, 3} ==> StepKey(plan, id) in t.steps
    ensures forall id :: id in {1, 2, 3} ==> StepKey(plan, id) in AfterShop(t, plan, n).steps
  {
    if n == 0 then t
    else
      var r := ShopSteps[n - 1].recipe;
      assert r.id == n;
      AfterInsertCraft(AfterShop(t, plan, n - 1), n, plan, r, 1)
  }

  ghost predicate ShopOpen(plan: int, t: Tables) {
    && (forall id :: id in {1, 2, 3} ==> StepKey(plan, id) in t.steps && t.steps[StepKey(plan, id)] == 1)
    && (forall k :: k in t.steps ==> k.plan == plan && k.recipe in {1, 2, 3})
    && t.crafts == map[] && t.waits == {}
  }

  /** What the plan still holds after the first submissions. */
  function ShopLeft(n: nat, u: Uid): int {
    (if n < 1 then One(u, Clay) else 0) + (if n < 2 then One(u, Mould) else 0) + (if n < 3 then One(u, Wax) else 0)
  }

  ghost predicate ShopHolds(plan: int, t: Tables, n: nat) {
    forall u :: AmountIn(t, plan, u) == ShopLeft(n, u)
  }

  lemma ShopStep(book: Book, plan: int, t: Tables, n: nat)
    requires GoodBook(book) && book.Keys >= {1, 2, 3} && n < 3 && ShopOpen(plan, t)
    requires book[1] == CastRecipe && book[2] == TileRecipe && book[3] == MouldRecipe
    requires ShopHolds(plan, AfterShop(t, plan, n), n)
    requires forall id :: n < id <= 3 ==> AfterShop(t, plan, n).steps[StepKey(plan, id)] == 1
    requires forall c :: c in AfterShop(t, plan, n).crafts ==> c <= n
    ensures StepChecked(book, AfterShop(t, plan, n), plan, PlanStep(n + 1, 1), AfterShop(t, plan, n + 1))
    ensures ShopHolds(plan, AfterShop(t, plan, n + 1), n + 1)
  {
    var before, r := AfterShop(t, plan, n), ShopSteps[n].recipe;
    assert r == book[n + 1] && r.id == n + 1;
    forall u ensures Intake(r, u) <= AmountIn(before, plan, u) && Need(r, u, 1) == ShopLeft(n, u) - ShopLeft(n + 1, u) {
      ShopAmounts(u);
      hide AmountOf;
    }
    hide AmountOf, Intake, AmountIn;
    SubmitsOne(book, plan, before, n + 1, n + 1);
    hide CanInsertCraft, StepChecked, Need, ShopLeft;
    var after, left := AfterShop(t, plan, n + 1), n + 1;
    forall u ensures AmountIn(after, plan, u) == ShopLeft(left, u) {
      SpentAmount(before, after, plan, r, 1, u);
    }
  }

  const ShopListing := [PlanStep(1, 1), PlanStep(2, 1), PlanStep(3, 1)]

  function ShopCraft(plan: int, id: int): Craft {
    Craft(plan, id, None, Pending, 1, 0)
  }

  function ShopTrace(t: Tables, plan: int): seq<Tables>
    requires forall id :: id in {1, 2, 3} ==> StepKey(plan, id) in t.steps
  {
    [AfterShop(t, plan, 0), AfterShop(t, plan, 1), AfterShop(t, plan, 2), AfterShop(t, plan, 3)]
  }

  lemma ShopNext(t: Tables, plan: int, n: nat)
    requires n < 3 && forall id :: id in {1, 2, 3} ==> StepKey(plan, id) in t.steps
    ensures AfterShop(t, plan, 0) == t
    ensures var before, after := AfterShop(t, plan, n), AfterShop(t, plan, n + 1);
      && StepKey(plan, n + 1) in before.steps
      && after.crafts == before.crafts[n + 1 := ShopCraft(plan, n + 1)] && after.waits == before.waits
      && after.steps == before.steps[StepKey(plan, n + 1) := before.steps[StepKey(plan, n + 1)] - 1]
  {
    assert ShopSteps[n].recipe.id == n + 1;
    hide Spend;
  }

  lemma ShopSubmitted(plan: int, t: Tables)
    requires ShopOpen(plan, t)
    ensures var t' := AfterShop(t, plan, 3);
      && t'.crafts == map[1 := ShopCraft(plan, 1), 2 := ShopCraft(plan, 2), 3 := ShopCraft(plan, 3)]
      && (forall k :: k in t'.steps ==> t'.steps[k] <= 0) && t'.waits == {}
    ensures AfterShop(t, plan, 0) == t
    ensures AfterShop(t, plan, 1).crafts.Keys == {1} && AfterShop(t, plan, 2).crafts.Keys == {1, 2}
    ensures forall n, id :: n in {0, 1, 2} && n < id <= 3 ==> AfterShop(t, plan, n).steps[StepKey(plan, id)] == 1
  {
    ShopNext(t, plan, 0);
    ShopNext(t, plan, 1);
    ShopNext(t, plan, 2);
    hide AfterShop;
  }

  lemma ShopWalk(book: Book, plan: int, t: Tables)
    requires GoodBook(book) && book.Keys >= {1, 2, 3} && ShopOpen(plan, t) && ShopHolds(plan, t, 0)
    requires book[1] == CastRecipe && book[2] == TileRecipe && book[3] == MouldRecipe
    ensures StepChecked(book, AfterShop(t, plan, 0), plan, PlanStep(1, 1), AfterShop(t, plan, 1))
    ensures StepChecked(book, AfterShop(t, plan, 1), plan, PlanStep(2, 1), AfterShop(t, plan, 2))
    ensures StepChecked(book, AfterShop(t, plan, 2), plan, PlanStep(3, 1), AfterShop(t, plan, 3))
  {
    ShopSubmitted(plan, t);
    hide AfterShop, StepChecked, ShopHolds, GoodBook;
    ShopStep(book, plan, t, 0);
    ShopStep(book, plan, t, 1);
    ShopStep(book, plan, t, 2);
  }

  lemma ShopIsListed(book: Book, plan: int, t: Tables)
    requires ShopOpen(plan, t) && book.Keys >= {1, 2, 3}
    requires book[1] == CastRecipe && book[2] == TileRecipe && book[3] == MouldRecipe
    ensures Lists(plan, t, ShopListing) && Fresh(book, t, plan, ShopListing)
  {
    assert forall k :: k in t.steps ==> k == StepKey(plan, k.recipe);
    assert ShopListing[0].recipe == 1 && ShopListing[1].recipe == 2 && ShopListing[2].recipe == 3;
  }

  lemma WalkOfThree(book: Book, plan: int, steps: seq<PlanStep>, trace: seq<Tables>)
    requires |steps| == 3 && |trace| == 4 && StepChecked(book, trace[0], plan, steps[0], trace[1])
    requires StepChecked(book, trace[1], plan, steps[1], trace[2])
    requires StepChecked(book, trace[2], plan, steps[2], trace[3])
    ensures Walked(book, plan, steps, trace)
  {
    hide StepChecked;
  }

  lemma CheckedBy(book: Book, t: Tables, plan: int, steps: seq<PlanStep>, trace: seq<Tables>)
    requires Walked(book, plan, steps, trace) && |trace| == |steps| + 1 && trace[0] == t && trace[|steps|] != t
    ensures Checked(book, t, plan, steps, trace, AfterCleanup(trace[|steps|], plan))
  {
    hide Walked;
  }

  /** Accepting the plan submits a craft of each step, the cast first. */
  lemma ShopChecked(book: Book, plan: int, t: Tables)
    requires GoodBook(book) && book.Keys >= {1, 2, 3} && ShopOpen(plan, t) && ShopHolds(plan, t, 0)
    requires book[1] == CastRecipe && book[2] == TileRecipe && book[3] == MouldRecipe
    ensures Lists(plan, t, ShopListing) && Fresh(book, t, plan, ShopListing)
    ensures Checked(book, t, plan, ShopListing, ShopTrace(t, plan), AfterCleanup(AfterShop(t, plan, 3), plan))
  {
    ShopSubmitted(plan, t);
    ShopIsListed(book, plan, t);
    ShopWalk(book, plan, t);
    assert 1 in AfterShop(t, plan, 3).crafts && t.crafts == map[];
    hide AfterShop, StepChecked, ShopHolds, GoodBook, ShopOpen, Lists, Fresh, Walked, Checked;
    WalkOfThree(book, plan, ShopListing, ShopTrace(t, plan));
    CheckedBy(book, t, plan, ShopListing, ShopTrace(t, plan));
  }

  lemma WrittenSteps(book: Book, services: Services, plan: int, goals: seq<Stack>, storage: map<Uid, int>,
                     steps: seq<Planner.Step>, planSteps: seq<PlanStep>, s: Code)
    requires JustWritten(plan, goals, storage, steps, planSteps, s) && CodeInv(book, services, plan, goals, steps, s)
    ensures PlanWritten(EmptyTables, s.w.t, plan, goals, storage, steps, planSteps)
    ensures s.w.t.crafts == map[] && s.w.t.waits == {} && s.held == map[] && s.w.phys == s.stored
    ensures forall i :: 0 <= i < |steps| ==>
      StepKey(plan, steps[i].recipe.id) in s.w.t.steps
        && s.w.t.steps[StepKey(plan, steps[i].recipe.id)] == steps[i].repeats
    ensures forall k :: k in s.w.t.steps ==>
      k.plan == plan && exists i :: 0 <= i < |steps| && steps[i].recipe.id == k.recipe
  {
    assert OnePlan(book, plan, steps, s.w.t);
    hide CodeInv, PlanWritten;
    WrittenRows(plan, goals, storage, steps, planSteps, s.w.t);
  }

  lemma ShopOpens(plan: int, t: Tables)
    requires t.crafts == map[] && t.waits == {}
    requires forall i :: 0 <= i < |ShopSteps| ==>
      StepKey(plan, ShopSteps[i].recipe.id) in t.steps
        && t.steps[StepKey(plan, ShopSteps[i].recipe.id)] == ShopSteps[i].repeats
    requires forall k :: k in t.steps ==>
      k.plan == plan && exists i :: 0 <= i < |ShopSteps| && ShopSteps[i].recipe.id == k.recipe
    ensures ShopOpen(plan, t)
  {
    assert |ShopSteps| == 3;
    assert ShopSteps[0].recipe.id == 1 && ShopSteps[1].recipe.id == 2 && ShopSteps[2].recipe.id == 3;
    forall id | id in {1, 2, 3} ensures StepKey(plan, id) in t.steps && t.steps[StepKey(plan, id)] == 1 {
      assert ShopSteps[id - 1].recipe.id == id;
    }
  }

  lemma ShopFull(plan: int, planSteps: seq<PlanStep>, t: Tables)
    requires PlanWritten(EmptyTables, t, plan, ShopGoals, ShopStock, ShopSteps, planSteps)
    ensures ShopHolds(plan, t, 0)
  {
    hide PlanWritten;
    forall u ensures AmountIn(t, plan, u) == ShopLeft(0, u) {
      ShopRows(plan, planSteps, t, u);
    }
  }

  /** One machine makes casts and moulds, another one tiles. */
  predicate TwoMachines(services: Services, press: Machine, kiln: Machine) {
    && (forall id :: id in {1, 2, 3} ==> id in services && services[id].Processing?)
    && services[1].machine == press == services[3].machine && services[2].machine == kiln != press
  }

  /** The state once the plan was accepted and its crafts submitted. */
  ghost predicate ShopBusy(plan: int, s: Code) {
    && s.w.t.crafts == map[1 := ShopCraft(plan, 1), 2 := ShopCraft(plan, 2), 3 := ShopCraft(plan, 3)]
    && s.held == map[] && s.w.t.waits == {} && (forall k :: k in s.w.t.steps ==> s.w.t.steps[k] <= 0)
    && s.w.phys == s.stored && forall u :: Get(s.stored, u) == Get(ShopStock, u)
  }

  /** The state after the plan was accepted. */
  function ShopAccepted(plan: int, s: Code): Code
    requires forall id :: id in {1, 2, 3} ==> StepKey(plan, id) in s.w.t.steps
  {
    s.(w := World(AfterCleanup(AfterShop(s.w.t, plan, 3), plan), s.w.phys), dirty := IN_TURN.pings && s.dirty)
  }

  lemma ShopGetsBusy(plan: int, s: Code)
    requires ShopOpen(plan, s.w.t) && s.held == map[] && s.w.phys == s.stored
    requires forall u :: Get(s.stored, u) == Get(ShopStock, u)
    ensures ShopBusy(plan, ShopAccepted(plan, s)) && s.w.t.crafts.Keys < ShopAccepted(plan, s).w.t.crafts.Keys
  {
    ShopSubmitted(plan, s.w.t);
    assert 1 in ShopAccepted(plan, s).w.t.crafts;
    hide AfterShop, ShopStock;
  }

  lemma ShopAccepts(book: Book, services: Services, plan: int, planSteps: seq<PlanStep>, s: Code) returns (s': Code)
    requires JustWritten(plan, ShopGoals, ShopStock, ShopSteps, planSteps, s) && GoodBook(book)
    requires AtWork(book, services, plan, ShopGoals, ShopSteps, s) && book.Keys >= {1, 2, 3}
    requires book[1] == CastRecipe && book[2] == TileRecipe && book[3] == MouldRecipe
    requires forall u :: Get(s.stored, u) == Get(ShopStock, u)
    ensures ShopBusy(plan, s') && Gets(book, services, plan, ShopGoals, ShopSteps, IN_TURN, s, s', true)
  {
    hide *;
    RankAtWork(book, services, plan, ShopGoals, ShopSteps, s);
    WrittenSteps(book, services, plan, ShopGoals, ShopStock, ShopSteps, planSteps, s);
    ShopOpens(plan, s.w.t);
    ShopFull(plan, planSteps, s.w.t);
    ShopOpenRows(plan, s.w.t);
    ShopChecked(book, plan, s.w.t);
    ShopGetsBusy(plan, s);
    s' := ShopAccepted(plan, s);
    ShopAcceptedIs(plan, s);
    var t', trace := s'.w.t, ShopTrace(s.w.t, plan);
    WalkIsStep(book, services, plan, s, IN_TURN.pings, ShopListing, trace, t');
    WalkAllowed(IN_TURN, services, s, ShopListing, trace);
    WalkWorks(services, s, IN_TURN.pings, ShopListing, trace, s');
    GetsByMove(book, services, plan, ShopGoals, ShopSteps, IN_TURN, s, Walk(IN_TURN.pings, ShopListing, trace), s');
  }

  lemma ShopOpenRows(plan: int, t: Tables)
    requires ShopOpen(plan, t)
    ensures forall id :: id in {1, 2, 3} ==> StepKey(plan, id) in t.steps
  {
  }

  lemma ShopAcceptedIs(plan: int, s: Code)
    requires forall id :: id in {1, 2, 3} ==> StepKey(plan, id) in s.w.t.steps
    ensures var s' := ShopAccepted(plan, s);
      && s'.w.t == AfterCleanup(AfterShop(s.w.t, plan, 3), plan) && IN_TURN.pings
      && s' == s.(w := World(s'.w.t, s.w.phys), dirty := IN_TURN.pings && s.dirty)
  {
  }

  /** The kiln is first, and takes the mould. */
  lemma KilnCanExport(book: Book, services: Services, plan: int, s: Code, press: Machine, kiln: Machine)
    requires ShopBusy(plan, s) && TwoMachines(services, press, kiln) && Served(book, services, 2)
    requires 2 in book && book[2] == TileRecipe
    ensures CanExport(book, services, s, 2) && InTurn(services, s.w.t, Export(2))
  {
    forall u | Intake(TileRecipe, u) > 0 ensures Intake(TileRecipe, u) * 1 <= Get(s.stored, u) {
      ShopAmounts(u);
    }
    hide Intake, TakesOn, ShopStock;
    assert RecipeOf(book, 2) == TileRecipe;
  }

  lemma KilnExports(book: Book, services: Services, plan: int, s: Code)
    requires ShopBusy(plan, s) && Served(book, services, 2) && 2 in services && services[2].Processing?
    ensures Batch(book, services, 2) == Some(1)
    ensures Exported(book, services, s, 2).w == s.w && Exported(book, services, s, 2).held == map[2 := 1]
  {
    hide TakesOn, PlusInputs, RecipeOf;
  }

  lemma ShopMoulds(book: Book, plan: int, s: Code)
    requires ShopBusy(plan, s) && 1 in book && book[1] == CastRecipe && 2 in book && book[2] == TileRecipe
    ensures Get(s.w.phys, Mould) == 1 && Intake(RecipeOf(book, 1), Mould) == 1
    ensures AmountOf(RecipeOf(book, 2).ingredients, Mould) == 1 && AmountOf(RecipeOf(book, 2).results, Mould) == 0
  {
    ShopNames();
    ShopAmounts(Mould);
    hide AmountOf;
  }

  lemma KilnStarts(book: Book, services: Services, plan: int, s: Code, press: Machine, kiln: Machine, s': Code)
    requires ShopBusy(plan, s) && TwoMachines(services, press, kiln)
    requires 1 in book && book[1] == CastRecipe && 2 in book && book[2] == TileRecipe
    requires Served(book, services, 2) && CanExport(book, services, s, 2)
    requires StartStep(book, services, Exported(book, services, s, 2), 2, s')
    ensures FirstLacks(book, services, s', 1, press, Mould)
  {
    KilnExports(book, services, plan, s);
    var mid := Exported(book, services, s, 2);
    ShopMoulds(book, plan, s);
    hide Exported, CanExport, Served, AmountOf, ShopStock, StartStep, Intake, RecipeOf, Batch;
    StartChanges(book, services, mid, 2, s');
    StartPhys(book, services, mid, 2, s', Mould);
    OthersLeft(s.w.t, s'.w.t, 2);
    assert Get(s'.w.phys, Mould) <= 0;
    KilnLeaves(book, services, plan, s, press, kiln, s');
  }

  lemma KilnLeaves(book: Book, services: Services, plan: int, s: Code, press: Machine, kiln: Machine, s': Code)
    requires ShopBusy(plan, s) && TwoMachines(services, press, kiln)
    requires Intake(RecipeOf(book, 1), Mould) == 1 && AmountOf(RecipeOf(book, 2).results, Mould) == 0
    requires Get(s'.w.phys, Mould) <= 0 && s'.held == map[] && s'.w.t.steps == s.w.t.steps
    requires forall k :: k != 2 ==>
      (k in s'.w.t.crafts <==> k in s.w.t.crafts) && (k in s.w.t.crafts ==> s'.w.t.crafts[k] == s.w.t.crafts[k])
    requires 2 in s'.w.t.crafts ==> s'.w.t.crafts[2].recipe == 2
    ensures FirstLacks(book, services, s', 1, press, Mould)
  {
    hide Intake, RecipeOf, AmountOf, ShopStock;
    forall c | c in s'.w.t.crafts ensures WaitsBehind(book, services, s', 1, press, Mould, c) {
      assert c in {1, 2, 3};
    }
  }

  lemma StartPhys(book: Book, services: Services, s: Code, c: int, s': Code, u: Uid)
    requires StartStep(book, services, s, c, s') && s.held[c] == 1
    ensures c in s.w.t.crafts
    ensures var r := RecipeOf(book, s.w.t.crafts[c].recipe);
      Get(s'.w.phys, u) == Get(s.w.phys, u) - AmountOf(r.ingredients, u) + AmountOf(r.results, u)
        || Get(s'.w.phys, u) == Get(s.w.phys, u) - AmountOf(r.ingredients, u)
  {
    StartFacts(book, services, s, c, s');
    hide StartStep, Started, Plus, PlusOutputs, RecipeOf, AmountOf;
    var r := RecipeOf(book, s.w.t.crafts[c].recipe);
    PlusGet(s.w.phys, r.ingredients, -1, u);
    PlusGet(Plus(s.w.phys, r.ingredients, -1), r.results, 1, u);
  }

  /**
    A plan of casts and tiles that keeps its catalysts and is served, and a run that takes every
    craft in turn: the tile's machine is first and takes the mould. The press then waits with the
    cast for a mould, and the craft that makes one waits behind it: in turn, and without a
    delivery, the plan never ends, though out of turn it could.
   */
  lemma QueueHoldsUpThePlan(book: Book, services: Services, plan: int, planSteps: seq<PlanStep>, s: Code,
                            press: Machine, kiln: Machine)
    returns (stuck: Code, end: Code)
    requires TableBook([CastRecipe, TileRecipe, MouldRecipe], book) && GoodBook(book)
    requires JustWritten(plan, ShopGoals, ShopStock, ShopSteps, planSteps, s)
    requires forall u :: Get(s.stored, u) == Get(ShopStock, u)
    requires AllServed(book, services, ShopSteps) && TwoMachines(services, press, kiln)
    ensures AllCovered(ShopGoals, ShopStock, ShopSteps) && CatalystsKept(ShopGoals, ShopSteps)
    ensures CodeReach(book, services, plan, IN_TURN, s, stuck)
    ensures forall s' :: CodeReach(book, services, plan, IN_TURN, stuck, s') ==> !NothingLeft(plan, ShopSteps, s'.w.t)
    ensures CodeReach(book, services, plan, ANY_TURN, stuck, end)
      && CodeFinished(plan, ShopGoals, ShopSteps, end)
  {
    ShopListed(book);
    ShopPlan();
    ShopStarts(book, services, plan, planSteps, s);
    assert ShopSteps[1].recipe.id == 2 && Served(book, services, 2);
    assert ANY_TURN.anyTurn && ANY_TURN.pings;
    hide *;
    AtWorkFrom(book, services, plan, ShopGoals, ShopSteps, s);
    var busy := ShopAccepts(book, services, plan, planSteps, s);
    GetsFacts(book, services, plan, ShopGoals, ShopSteps, IN_TURN, s, busy, true);
    KilnCanExport(book, services, plan, busy, press, kiln);
    stuck := KilnTakesIt(book, services, plan, busy, press, kiln);
    GetsOnly(book, services, plan, ShopGoals, ShopSteps, IN_TURN, s, busy, stuck, true, false);
    GetsFacts(book, services, plan, ShopGoals, ShopSteps, IN_TURN, s, stuck, false);
    StuckForGood(book, services, plan, stuck, press);
    RankAtWork(book, services, plan, ShopGoals, ShopSteps, stuck);
    end := RunsToTheEnd(book, services, plan, ShopGoals, ShopSteps, ANY_TURN, stuck);
  }

  lemma RankAtWork(book: Book, services: Services, plan: int, goals: seq<Stack>, steps: seq<Planner.Step>, s: Code)
    requires AtWork(book, services, plan, goals, steps, s)
    ensures Rank(s.w.t) >= 0 && CodeInv(book, services, plan, goals, steps, s) && AllServed(book, services, steps)
  {
    InvParts(book, services, plan, goals, steps, s);
    RankNonNegative(book, s.w.t);
  }

  lemma KilnTakesIt(book: Book, services: Services, plan: int, s: Code, press: Machine, kiln: Machine)
    returns (s': Code)
    requires AtWork(book, services, plan, ShopGoals, ShopSteps, s) && ShopBusy(plan, s) && GoodBook(book)
    requires TwoMachines(services, press, kiln) && Served(book, services, 2)
    requires 1 in book && book[1] == CastRecipe && 2 in book && book[2] == TileRecipe
    requires CanExport(book, services, s, 2) && InTurn(services, s.w.t, Export(2))
    ensures Gets(book, services, plan, ShopGoals, ShopSteps, IN_TURN, s, s', false)
    ensures FirstLacks(book, services, s', 1, press, Mould)
  {
    assert s.w.t.crafts[2].recipe == 2 && s.w.t.waits == {} && 2 in services;
    CanExportCommits(book, services, s, 2);
    var mid := Exported(book, services, s, 2);
    assert mid.w == s.w && 2 in mid.held;
    hide *;
    ExportIsStep(book, services, plan, s, 2);
    ExportAllowed(services, s, 2);
    GetsByMove(book, services, plan, ShopGoals, ShopSteps, IN_TURN, s, Export(2), mid);
    GetsFacts(book, services, plan, ShopGoals, ShopSteps, IN_TURN, s, mid, CodeWorks(services, s, Export(2), mid));
    StartIsStep(book, services, plan, mid, 2);
    s' := StartedCode(book, services, mid, 2);
    StartAllowed(services, mid, 2);
    GetsByMove(book, services, plan, ShopGoals, ShopSteps, IN_TURN, mid, Start(2), s');
    GetsOnly(book, services, plan, ShopGoals, ShopSteps, IN_TURN, s, mid, s', CodeWorks(services, s, Export(2), mid),
      CodeWorks(services, mid, Start(2), s'));
    GetsWeakens(book, services, plan, ShopGoals, ShopSteps, IN_TURN, s, s', CodeWorks(services, mid, Start(2), s'));
    StartOfMove(book, services, plan, mid, 2, s');
    KilnStarts(book, services, plan, s, press, kiln, s');
  }

  lemma CanExportCommits(book: Book, services: Services, s: Code, id: int)
    requires CanExport(book, services, s, id)
    ensures CanCommit(s.w.t, id) && Batch(book, services, s.w.t.crafts[id].recipe).Some?
  {
  }

  lemma ExportAllowed(services: Services, s: Code, id: int)
    requires InTurn(services, s.w.t, Export(id))
    ensures Allowed(IN_TURN, services, s, Export(id)) && !Export(id).Forget?
  {
  }

  lemma StartAllowed(services: Services, s: Code, id: int)
    ensures Allowed(IN_TURN, services, s, Start(id))
  {
  }

  lemma StartOfMove(book: Book, services: Services, plan: int, s: Code, id: int, s': Code)
    requires CodeStep(book, services, plan, s, Start(id), s')
    ensures StartStep(book, services, s, id, s')
  {
  }

  lemma StuckForGood(book: Book, services: Services, plan: int, s: Code, press: Machine)
    requires AtWork(book, services, plan, ShopGoals, ShopSteps, s) && FirstLacks(book, services, s, 1, press, Mould)
    ensures forall s' :: CodeReach(book, services, plan, IN_TURN, s, s') ==> !NothingLeft(plan, ShopSteps, s'.w.t)
  {
    RankAtWork(book, services, plan, ShopGoals, ShopSteps, s);
    hide *;
    forall s' | CodeReach(book, services, plan, IN_TURN, s, s') ensures !NothingLeft(plan, ShopSteps, s'.w.t) {
      FirstHoldsUpThePlan(book, services, plan, ShopGoals, ShopSteps, s, s', 1, press, Mould);
    }
  }
}
