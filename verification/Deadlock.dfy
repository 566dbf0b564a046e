/**
  What keeps an accepted plan from its end: catalysts that the scheduler waits for in vain, and
  recipes that nothing takes on; and that nothing else does.
 */
module Deadlock {
  import opened Recipes
  import opened RecipeClosure
  import opened Planner
  import opened PlanTheorems
  import opened Ledger
  import opened LedgerInvariant
  import opened Scheduler
  import opened PlanAcceptance
  import opened PlanRuns
  import opened Progress
  import opened Transfer
  import opened ProcessingRequest
  import opened CodeRuns
  import opened Completion

  /** Only a submission of its own recipe changes a step row. */
  lemma StepRowKept(book: Book, plan: int, w: World, m: Move, w': World, k: StepKey)
    requires PlanRuns.Step(book, plan, w, m, w') && k in w.t.steps && k.plan == plan
    requires !(m.Ledger? && m.e.InsertCraft? && m.e.recipe == k.recipe)
    ensures k in w'.t.steps && w'.t.steps[k] == w.t.steps[k]
  {
  }

  /** Such a step keeps all its repeats in every state of every run: the plan never finishes. */
  lemma {:induction false} OverlistedStaysOpen(book: Book, plan: int, goals: seq<Stack>, steps: seq<Planner.Step>,
                                               b: nat, u: Uid, worlds: seq<World>, moves: seq<Move>)
    requires IsPlanRun(book, plan, worlds, moves) && Inv(book, plan, goals, steps, worlds[0]) && b < |steps|
    requires AmountOf(steps[b].recipe.catalysts, u) > Base(goals, steps, u)
    requires forall i :: 0 <= i < |steps| ==> !Mentions(steps[i].recipe.ingredients, u)
    requires StepKey(plan, steps[b].recipe.id) in worlds[0].t.steps
    ensures var k := StepKey(plan, steps[b].recipe.id);
      k in worlds[|moves|].t.steps && worlds[|moves|].t.steps[k] == worlds[0].t.steps[k]
    decreases |moves|
  {
    hide PlanRuns.Step, Inv;
    var n := |moves|;
    if n > 0 {
      var worlds', moves' := worlds[..n], moves[..n - 1];
      assert IsPlanRun(book, plan, worlds', moves') by {
        forall i | 0 <= i < n - 1 ensures PlanRuns.Step(book, plan, worlds'[i], moves'[i], worlds'[i + 1]) {
          assert PlanRuns.Step(book, plan, worlds[i], moves[i], worlds[i + 1]);
        }
      }
      OverlistedStaysOpen(book, plan, goals, steps, b, u, worlds', moves');
      RunKeepsInv(book, plan, goals, steps, worlds, moves);
      assert PlanRuns.Step(book, plan, worlds[n - 1], moves[n - 1], worlds[n - 1 + 1]);
      OverlistedCatalystNeverStarts(book, plan, goals, steps, b, u, worlds[n - 1], moves[n - 1], worlds[n]);
      StepRowKept(book, plan, worlds[n - 1], moves[n - 1], worlds[n], StepKey(plan, steps[b].recipe.id));
    }
  }

  ghost predicate AllOpen(plan: int, steps: seq<Planner.Step>, t: Tables) {
    forall i :: 0 <= i < |steps| ==>
      StepKey(plan, steps[i].recipe.id) in t.steps && t.steps[StepKey(plan, steps[i].recipe.id)] > 0
  }

  lemma OverlistedNeverEnds(book: Book, plan: int, goals: seq<Stack>, steps: seq<Planner.Step>, w: World, end: World,
                            b: nat, u: Uid)
    requires Inv(book, plan, goals, steps, w) && AllOpen(plan, steps, w.t) && b < |steps|
    requires AmountOf(steps[b].recipe.catalysts, u) > Base(goals, steps, u)
    requires forall i :: 0 <= i < |steps| ==> !Mentions(steps[i].recipe.ingredients, u)
    requires CanReach(book, plan, w, end)
    ensures Unfinished(plan, steps, end.t)
  {
    hide Inv, PlanRuns.Step;
    var worlds, moves :| CodeRuns.Leads(book, plan, w, worlds, moves, end);
    OverlistedStaysOpen(book, plan, goals, steps, b, u, worlds, moves);
  }

  /** Where the plan keeps too little of some step's catalysts, no run of it ends. */
  lemma UnkeptNeverEnds(book: Book, plan: int, goals: seq<Stack>, steps: seq<Planner.Step>, w: World, end: World)
    requires Inv(book, plan, goals, steps, w) && AllOpen(plan, steps, w.t)
    requires CatalystsApart(steps) && !CatalystsKept(goals, steps)
    requires forall i :: 0 <= i < |goals| ==> goals[i].count >= 0
    requires CanReach(book, plan, w, end)
    ensures Unfinished(plan, steps, end.t)
  {
    var b, u :| 0 <= b < |steps| && AmountOf(steps[b].recipe.catalysts, u) > Base(goals, steps, u);
    GoalNonNegative(goals, u);
    if !Mentions(steps[b].recipe.catalysts, u) {
      AmountOfNone(steps[b].recipe.catalysts, u);
    }
    hide Inv, CanReach, AllOpen, Mentions, CatalystsKept, Unfinished;
    OverlistedNeverEnds(book, plan, goals, steps, w, end, b, u);
  }

  // ---------------------------------------------------------------- recipes that nothing takes on

  /**
    A craft of which nothing is ever completed: no repeats were taken, or what comes out of its
    machine is not seen.
   */
  predicate StuckCraft(book: Book, services: Services, c: Craft) {
    && c.repeats >= 1
    && match c.status
       case Pending => c.committed <= 0
       case Committed =>
         && c.recipe in services
         && match services[c.recipe]
            case Crafting(_) => c.committed <= 0
            case Processing(m, _) => m.wait && !ShowsOutput(m, RecipeOf(book, c.recipe))
  }

  /** The step has repeats left, or a craft of its recipe is stuck. */
  ghost predicate Blocked(book: Book, services: Services, plan: int, recipe: int, t: Tables) {
    || (StepKey(plan, recipe) in t.steps && t.steps[StepKey(plan, recipe)] > 0)
    || exists c :: c in t.crafts && t.crafts[c].recipe == recipe && StuckCraft(book, services, t.crafts[c])
  }

  lemma SubmissionStaysBlocked(book: Book, services: Services, plan: int, recipe: int, t: Tables, p: PlanStep,
                               t': Tables)
    requires Blocked(book, services, plan, recipe, t) && StepChecked(book, t, plan, p, t')
      && FreshStep(book, t, plan, p)
    ensures Blocked(book, services, plan, recipe, t')
  {
    hide Fits, CanInsertCraft, Spend, CanSubmit;
    if t' != t {
      var id, n :| Submits(book, t, plan, p, id, n, t');
      if p.recipe == recipe {
        assert id in t'.crafts && StuckCraft(book, services, t'.crafts[id]);
      } else if c :| c in t.crafts && t.crafts[c].recipe == recipe && StuckCraft(book, services, t.crafts[c]) {
        assert c in t'.crafts && t'.crafts[c] == t.crafts[c];
      }
    }
  }

  lemma {:induction false} WalkStaysBlocked(book: Book, services: Services, plan: int, recipe: int, t: Tables,
      listed: seq<PlanStep>, trace: seq<Tables>, n: nat)
    requires Blocked(book, services, plan, recipe, t) && Walked(book, plan, listed, trace) && trace[0] == t
    requires Fresh(book, t, plan, listed) && n <= |listed|
    ensures Blocked(book, services, plan, recipe, trace[n])
  {
    if n > 0 {
      hide Blocked, StepChecked, Fresh, FreshStep;
      WalkStaysBlocked(book, services, plan, recipe, t, listed, trace, n - 1);
      WalkFacts(book, t, plan, listed, trace, n - 1);
      assert StepChecked(book, trace[n - 1], plan, listed[n - 1], trace[n - 1 + 1]);
      SubmissionStaysBlocked(book, services, plan, recipe, trace[n - 1], listed[n - 1], trace[n]);
    }
  }

  /** A stuck craft's own start leaves it stuck. */
  lemma OwnStartStaysStuck(book: Book, services: Services, plan: int, s: Code, s': Code, id: int)
    requires Orderly(book, services, s) && id in s.w.t.crafts && StuckCraft(book, services, s.w.t.crafts[id])
    requires !Served(book, services, s.w.t.crafts[id].recipe) && StartStep(book, services, s, id, s')
    ensures id in s'.w.t.crafts && s'.w.t.crafts[id].recipe == s.w.t.crafts[id].recipe
      && StuckCraft(book, services, s'.w.t.crafts[id])
  {
    hide CraftBatch.Portions, TakesOn, Plus, PlusOutputs, Release, RecipeOf, ShowsOutput, WaitsMatch, Unengaged;
    assert HeldMatches(book, services, s) && id in s.held;
    var recipe := s.w.t.crafts[id].recipe;
    if services[recipe].Crafting? {
      assert Employs(services, recipe, s.w.t.crafts[id].worker.value);
    }
  }

  /** So does its own completion. */
  lemma OwnFinishStaysStuck(book: Book, services: Services, plan: int, s: Code, s': Code, id: int)
    requires Orderly(book, services, s) && id in s.w.t.crafts && StuckCraft(book, services, s.w.t.crafts[id])
    requires !Served(book, services, s.w.t.crafts[id].recipe) && FinishStep(book, services, s, id, s')
    ensures id in s'.w.t.crafts && s'.w.t.crafts[id].recipe == s.w.t.crafts[id].recipe
      && StuckCraft(book, services, s'.w.t.crafts[id])
  {
    hide Served, Plus, PlusOutputs, Release, RecipeOf, ShowsOutput;
    if services[s.w.t.crafts[id].recipe].Processing? {
      FinishedWaits(services, s.w.t, id, Wait(services[s.w.t.crafts[id].recipe].machine.worker, id));
      assert false;
    }
  }

  lemma OtherCraftKept(book: Book, services: Services, plan: int, s: Code, m: CodeMove, s': Code, id: int, c: int)
    requires Orderly(book, services, s) && (m == Start(id) || m == Finish(id))
      && CodeStep(book, services, plan, s, m, s')
    requires c in s.w.t.crafts && c != id
    ensures c in s'.w.t.crafts && s'.w.t.crafts[c] == s.w.t.crafts[c]
  {
    assert s'.w.t.crafts - {id} == s.w.t.crafts - {id} by {
      hide Orderly, HeldMatches, StartStep, FinishStep;
      if m.Start? {
        StartedOthers(book, services, s, id, s');
      } else {
        assert WaitsMatch(services, s.w.t) by { OrderlyWaits(book, services, s); }
        FinishedRows(book, services, s, id, s');
      }
    }
    hide CodeStep, Orderly;
    assert c in s.w.t.crafts - {id} && (s.w.t.crafts - {id})[c] == s.w.t.crafts[c];
    assert (s'.w.t.crafts - {id})[c] == s'.w.t.crafts[c];
  }

  lemma OrderlyWaits(book: Book, services: Services, s: Code)
    requires Orderly(book, services, s)
    ensures WaitsMatch(services, s.w.t)
  {
  }

  lemma StartedOthers(book: Book, services: Services, s: Code, id: int, s': Code)
    requires StartStep(book, services, s, id, s')
    ensures s'.w.t.crafts - {id} == s.w.t.crafts - {id}
  {
    StartedRows(services, s.w.t, id, RecipeOf(book, s.w.t.crafts[id].recipe), s.held[id]);
    hide Started, Plus, PlusOutputs, RecipeOf, Unengaged, Working, Direct;
  }

  lemma StartKeepsSteps(book: Book, services: Services, s: Code, id: int, s': Code)
    requires StartStep(book, services, s, id, s')
    ensures s'.w.t.steps == s.w.t.steps
  {
    hide Plus, PlusOutputs, Release, RecipeOf, Unengaged;
  }

  lemma StepRowsKept(book: Book, services: Services, plan: int, s: Code, m: CodeMove, s': Code)
    requires CodeStep(book, services, plan, s, m, s') && !m.Walk?
    ensures s'.w.t.steps == s.w.t.steps
    ensures !m.Start? && !m.Finish? && !m.Hire? ==> s'.w.t.crafts == s.w.t.crafts
  {
    hide Plus, PlusOutputs, PlusInputs, RecipeOf, CanExport, StartStep, Allocates;
    if m.Start? {
      StartKeepsSteps(book, services, s, m.id, s');
    } else if m.Report? {
      AllocateRows(s.w.t, s'.w.t, m.uid, Get(s.stored, m.uid));
    }
  }

  /** Every move leaves a plan blocked at a recipe that nothing takes on. */
  lemma MoveStaysBlocked(book: Book, services: Services, plan: int, recipe: int, s: Code, m: CodeMove, s': Code)
    requires Orderly(book, services, s) && !Served(book, services, recipe)
      && Blocked(book, services, plan, recipe, s.w.t)
    requires CodeStep(book, services, plan, s, m, s')
    ensures Blocked(book, services, plan, recipe, s'.w.t)
  {
    if m.Walk? {
      WalkRows(book, plan, s.w.t, m.listed, m.trace, s'.w.t);
      WalkStaysBlocked(book, services, plan, recipe, s.w.t, m.listed, m.trace, |m.listed|);
    } else {
      StepRowsKept(book, services, plan, s, m, s');
      if c :| c in s.w.t.crafts && s.w.t.crafts[c].recipe == recipe && StuckCraft(book, services, s.w.t.crafts[c]) {
        if m == Start(c) || m == Finish(c) {
          hide StartStep, FinishStep, Orderly, Served, StuckCraft;
          if m.Start? {
            OwnStartStaysStuck(book, services, plan, s, s', c);
          } else {
            OwnFinishStaysStuck(book, services, plan, s, s', c);
          }
        } else if m.Start? || m.Finish? {
          hide CodeStep, Orderly, Served;
          OtherCraftKept(book, services, plan, s, m, s', m.id, c);
        } else if m.Hire? {
          assert c in s'.w.t.crafts && s'.w.t.crafts[c].recipe == recipe
            && StuckCraft(book, services, s'.w.t.crafts[c]);
        }
      }
    }
  }

  lemma {:induction false} RunStaysBlocked(book: Book, services: Services, plan: int, recipe: int, states: seq<Code>,
                                           moves: seq<CodeMove>, n: nat)
    requires IsCodeRun(book, services, plan, states, moves) && n < |states|
    requires Orderly(book, services, states[0]) && !Served(book, services, recipe)
      && Blocked(book, services, plan, recipe, states[0].w.t)
    ensures Orderly(book, services, states[n]) && Blocked(book, services, plan, recipe, states[n].w.t)
  {
    if n > 0 {
      hide Orderly, Served, Blocked, CodeStep;
      RunStaysBlocked(book, services, plan, recipe, states, moves, n - 1);
      assert CodeStep(book, services, plan, states[n - 1], moves[n - 1], states[n - 1 + 1]);
      StepKeepsOrderly(book, services, plan, states[n - 1], moves[n - 1], states[n]);
      MoveStaysBlocked(book, services, plan, recipe, states[n - 1], moves[n - 1], states[n]);
    }
  }

  /** With a recipe that nothing takes on, no run of the server ends, whatever the catalysts. */
  lemma UnservedNeverEnds(book: Book, services: Services, plan: int, goals: seq<Stack>, steps: seq<Planner.Step>,
                          s: Code, end: Code)
    requires CodeInv(book, services, plan, goals, steps, s) && AllOpen(plan, steps, s.w.t)
      && !AllServed(book, services, steps)
    requires CodeReach(book, services, plan, ANYHOW, s, end)
    ensures !NothingLeft(plan, steps, end.w.t)
  {
    InvParts(book, services, plan, goals, steps, s);
    var b :| 0 <= b < |steps| && !Served(book, services, steps[b].recipe.id);
    var states, moves :| CodeLeads(book, services, plan, ANYHOW, s, states, moves, end);
    RunLength(book, services, plan, states, moves);
    hide CodeInv, Orderly, Served, IsCodeRun;
    RunStaysBlocked(book, services, plan, steps[b].recipe.id, states, moves, |moves|);
  }

  /** A plan with a step whose request its machine's transfers refuse never ends. */
  lemma RefusedNeverEnds(book: Book, services: Services, plan: int, goals: seq<Stack>, steps: seq<Planner.Step>,
                         s: Code, end: Code, b: nat, m: Machine, site: Site, req: Request)
    requires CodeInv(book, services, plan, goals, steps, s) && AllOpen(plan, steps, s.w.t) && b < |steps|
    requires steps[b].recipe.id in services && services[steps[b].recipe.id] == Processing(m, site)
    requires RequestFor(m, steps[b].recipe, req) && !Admitted(site.cfg, req)
    requires CodeReach(book, services, plan, ANYHOW, s, end)
    ensures !NothingLeft(plan, steps, end.w.t)
  {
    var r := steps[b].recipe;
    InvParts(book, services, plan, goals, steps, s);
    GoingIsInv(book, plan, goals, steps, s.w);
    assert RecipeOf(book, r.id) == r && PositiveAmounts(r.ingredients) && PositiveAmounts(r.catalysts);
    AdmittedIff(site.cfg, m, r, req);
    assert !Served(book, services, r.id);
    hide CodeInv, AllOpen, CodeReach, Served, Going, Orderly, Placed, RequestFor, Admitted;
    UnservedNeverEnds(book, services, plan, goals, steps, s, end);
  }

  /** Nor does one with a step for clients whose worker panics at a slot. */
  lemma PanicNeverEnds(book: Book, services: Services, plan: int, goals: seq<Stack>, steps: seq<Planner.Step>,
                       s: Code, end: Code, b: nat)
    requires CodeInv(book, services, plan, goals, steps, s) && AllOpen(plan, steps, s.w.t) && b < |steps|
    requires steps[b].recipe.id in services && services[steps[b].recipe.id].Crafting?
    requires !CraftBatch.MarksFit(steps[b].recipe)
    requires CodeReach(book, services, plan, ANYHOW, s, end)
    ensures !NothingLeft(plan, steps, end.w.t)
  {
    InvParts(book, services, plan, goals, steps, s);
    GoingIsInv(book, plan, goals, steps, s.w);
    assert RecipeOf(book, steps[b].recipe.id) == steps[b].recipe;
    assert !Served(book, services, steps[b].recipe.id);
    hide CodeInv, AllOpen, CodeReach, Served, Going, Orderly, Placed;
    UnservedNeverEnds(book, services, plan, goals, steps, s, end);
  }

  lemma NeverEnds(book: Book, services: Services, plan: int, goals: seq<Stack>, steps: seq<Planner.Step>, s: Code,
                  end: Code)
    requires CodeInv(book, services, plan, goals, steps, s) && AllOpen(plan, steps, s.w.t) && CatalystsApart(steps)
    requires forall i :: 0 <= i < |goals| ==> goals[i].count >= 0
    requires !CatalystsKept(goals, steps) || !AllServed(book, services, steps)
    requires CodeReach(book, services, plan, ANYHOW, s, end)
    ensures !NothingLeft(plan, steps, end.w.t)
  {
    if AllServed(book, services, steps) {
      InvParts(book, services, plan, goals, steps, s);
      GoingIsInv(book, plan, goals, steps, s.w);
      var states, moves :| CodeLeads(book, services, plan, ANYHOW, s, states, moves, end);
      RunLength(book, services, plan, states, moves);
      hide CodeInv, AllServed, IsCodeRun, Going, Inv, AllOpen, CatalystsKept, CatalystsApart, Onward, Unfinished;
      CodeRunOnward(book, services, plan, goals, steps, states, moves, |moves|);
      OnwardFacts(book, plan, goals, steps, s.w, end.w, false);
      UnkeptNeverEnds(book, plan, goals, steps, s.w, end.w);
    } else {
      hide CodeInv, AllServed, AllOpen, CatalystsApart, CatalystsKept;
      UnservedNeverEnds(book, services, plan, goals, steps, s, end);
    }
  }

  lemma GoingIsInv(book: Book, plan: int, goals: seq<Stack>, steps: seq<Planner.Step>, w: World)
    requires Going(book, plan, goals, steps, w)
    ensures Inv(book, plan, goals, steps, w)
  {
  }

  lemma ApartIsSafe(services: Services, steps: seq<Planner.Step>)
    requires CatalystsApart(steps)
    ensures QueueSafe(services, steps)
  {
    hide Shares, Mentions;
    forall i | 0 <= i < |steps| ensures Uncontested(steps, steps[i].recipe.id) {
    }
  }

  /**
    For a plan whose catalysts are no step's ingredients: before any step is submitted in full, a
    run of the server, with whatever help, can bring the plan to its end if and only if the plan
    keeps what each step's catalyst lines sum to, and each step's recipe is served. It then can
    without a delivery and with every craft taken in turn.
   */
  lemma CanFinishIff(book: Book, services: Services, plan: int, goals: seq<Stack>, steps: seq<Planner.Step>, s: Code)
    requires CodeInv(book, services, plan, goals, steps, s) && DistinctIds(steps) && ProducersLater(steps)
    requires AllOpen(plan, steps, s.w.t) && CatalystsApart(steps)
    requires forall i :: 0 <= i < |goals| ==> goals[i].count >= 0
    ensures (exists end :: CodeReach(book, services, plan, ANYHOW, s, end) && CodeFinished(plan, goals, steps, end))
      <==> CatalystsKept(goals, steps) && AllServed(book, services, steps)
    ensures CatalystsKept(goals, steps) && AllServed(book, services, steps) ==> exists end ::
      CodeReach(book, services, plan, IN_TURN, s, end) && CodeFinished(plan, goals, steps, end)
  {
    hide CodeInv, DistinctIds, ProducersLater, AllOpen, CatalystsApart, CatalystsKept, AllServed, CodeReach, Home,
      NothingLeft, Lively, QueueSafe;
    if CatalystsKept(goals, steps) && AllServed(book, services, steps) {
      AtWorkFrom(book, services, plan, goals, steps, s);
      ApartIsSafe(services, steps);
      var end := RunsToTheEnd(book, services, plan, goals, steps, IN_TURN, s);
      CodeReachWeakens(book, services, plan, IN_TURN, ANYHOW, s, end);
    } else {
      forall end | CodeReach(book, services, plan, ANYHOW, s, end) ensures !CodeFinished(plan, goals, steps, end) {
        NeverEnds(book, services, plan, goals, steps, s, end);
      }
    }
  }

  /** With catalysts that are nobody's ingredient or goal, distinct listing is exactly what is needed. */
  lemma {:induction false} KeptIffDistinct(goals: seq<Stack>, r: Recipe, n: int)
    requires WellFormed(r) && n > 0
    requires forall u :: Mentions(r.catalysts, u) ==> GoalOf(goals, u) == 0
    requires forall i :: 0 <= i < |goals| ==> goals[i].count >= 0
    ensures CatalystsKept(goals, [Planner.Step(r, n)]) <==> DistinctUids(r.catalysts)
  {
    var steps := [Planner.Step(r, n)];
    assert steps[..0] == [];
    assert forall u :: Held(steps, u) == MaxAmountOf(r.catalysts, u);
    if DistinctUids(r.catalysts) {
      DistinctCatalystsAreKept(goals, steps);
    } else {
      SumExceedsMaxWhenRepeated(r.catalysts);
      var u :| AmountOf(r.catalysts, u) > MaxAmountOf(r.catalysts, u);
      PositiveWhenMentioned(r.catalysts, u);
      assert AmountOf(steps[0].recipe.catalysts, u) > Base(goals, steps, u);
    }
  }

  const Lamp := Uid("lamp")
  const Tool := Uid("tool")
  const LampRecipe := Recipe(1, None, [RecipeItem(Lamp, 1, None)], [],
    [RecipeItem(Tool, 1, None), RecipeItem(Tool, 1, None)])
  const LampGoals := [Stack(Lamp, 1)]
  const LampStock: map<Uid, int> := map[Tool := 2]
  const LampSteps := [Planner.Step(LampRecipe, 1)]

  lemma LampAmounts(u: Uid)
    ensures AmountOf(LampRecipe.results, u) == (if u == Lamp then 1 else 0)
    ensures AmountOf(LampRecipe.ingredients, u) == 0 && !Mentions(LampRecipe.ingredients, u)
    ensures AmountOf(LampRecipe.catalysts, u) == (if u == Tool then 2 else 0)
    ensures MaxAmountOf(LampRecipe.catalysts, u) == (if u == Tool then 1 else 0)
    ensures GoalOf(LampGoals, u) == (if u == Lamp then 1 else 0) && (IsGoal(LampGoals, u) <==> u == Lamp)
    ensures Used(LampSteps, u) == 0 && Produced(LampSteps, u) == (if u == Lamp then 1 else 0)
    ensures Held(LampSteps, u) == (if u == Tool then 1 else 0)
  {
    assert LampRecipe.results[..0] == [];
    assert LampRecipe.catalysts[..1][..0] == [] && LampRecipe.catalysts[..1] == [RecipeItem(Tool, 1, None)];
    assert MaxAmountOf(LampRecipe.catalysts[..1], u) == if u == Tool then 1 else 0;
    assert LampGoals[..0] == [] && LampGoals[0].uid == Lamp;
    assert LampSteps[..0] == [];
  }

  lemma LampClosure()
    ensures Closure([LampRecipe], GoalUids(LampGoals)) == {Lamp, Tool}
  {
    var table, goals := [LampRecipe], GoalUids(LampGoals);
    assert goals == [Lamp];
    assert Selected(LampRecipe, {Lamp, Tool}) by { assert LampRecipe.results[0].uid == Lamp; }
    assert ClosedOver(table, goals, {Lamp, Tool}) by {
      forall r, u | r in table && IsInput(r, u) ensures u in {Lamp, Tool} {
        LampAmounts(u);
        PositiveWhenMentioned(LampRecipe.catalysts, u);
      }
    }
    forall u | u in {Lamp, Tool} ensures InEveryClosed(table, goals, u) {
      forall s | ClosedOver(table, goals, s) ensures u in s {
        assert Lamp in goals;
        assert LampRecipe.results[0].uid in s;
        assert Selected(LampRecipe, s);
        assert LampRecipe.catalysts[0].uid == Tool;
        assert IsInput(LampRecipe, Tool);
      }
    }
    ClosureIsLeast(table, goals, {Lamp, Tool});
  }

  /**
    A lamp made with two tools on two catalyst lines, with two tools in stock: the planner's
    contract admits a plan that covers everything, and that plan can never start.
   */
  lemma RepeatedCatalystDeadlocks(plan: Plan)
    requires plan == Plan([Lamp, Tool], LampSteps, map[Lamp := Related(1, 1, 0), Tool := Related(0, 1, 2)], LampGoals)
    ensures IsPlan(LampGoals, LampStock, [LampRecipe], plan, map[Lamp := LampRecipe], [1, 0])
    ensures AllCovered(LampGoals, LampStock, plan.steps)
    ensures AmountOf(LampRecipe.catalysts, Tool) > Base(LampGoals, plan.steps, Tool)
    ensures !CatalystsKept(LampGoals, plan.steps)
  {
    forall u ensures Balance(LampGoals, LampStock, plan.steps, u) >= 0
      && RelOf(plan.related, LampStock, u) == TotalsOf(LampGoals, LampStock, plan.steps, u)
      && (u == Lamp ==> Balance(LampGoals, LampStock, plan.steps, u) == 0)
    {
      LampAmounts(u);
    }
    LampAmounts(Tool);
    assert AmountOf(plan.steps[0].recipe.catalysts, Tool) > Base(LampGoals, plan.steps, Tool);
    LampExpands();
    LampRound();
    assert Totals(LampGoals, LampStock, plan.steps, plan.related) by {
      forall u ensures IsGoal(LampGoals, u) ==> u in plan.related { LampAmounts(u); }
    }
  }

  /**
    Written to empty tables with that stock, the lamp's plan is never finished, in whatever way it
    runs, whatever is delivered, and whichever machine works on lamps.
   */
  lemma LampNeverFinishes(book: Book, services: Services, plan: int, planSteps: seq<PlanStep>, s: Code, end: Code)
    requires TableBook([LampRecipe], book) && GoodBook(book)
    requires JustWritten(plan, LampGoals, LampStock, LampSteps, planSteps, s)
    requires CodeReach(book, services, plan, ANYHOW, s, end)
    ensures !NothingLeft(plan, LampSteps, end.w.t) && !CodeFinished(plan, LampGoals, LampSteps, end)
  {
    RepeatedCatalystDeadlocks(Plan([Lamp, Tool], LampSteps, map[Lamp := Related(1, 1, 0), Tool := Related(0, 1, 2)],
      LampGoals));
    LampApart();
    hide *;
    LampStarts(book, services, plan, planSteps, s);
    NeverEnds(book, services, plan, LampGoals, LampSteps, s, end);
    NotFinished(plan, LampGoals, LampSteps, end);
  }

  lemma NotFinished(plan: int, goals: seq<Stack>, steps: seq<Planner.Step>, s: Code)
    requires !NothingLeft(plan, steps, s.w.t)
    ensures !CodeFinished(plan, goals, steps, s)
  {
  }

  lemma LampApart()
    ensures CatalystsApart(LampSteps) && forall i :: 0 <= i < |LampGoals| ==> LampGoals[i].count >= 0
  {
    forall u ensures !Mentions(LampRecipe.ingredients, u) {
      LampAmounts(u);
    }
  }

  lemma LampStarts(book: Book, services: Services, plan: int, planSteps: seq<PlanStep>, s: Code)
    requires TableBook([LampRecipe], book) && GoodBook(book) && AllCovered(LampGoals, LampStock, LampSteps)
    requires JustWritten(plan, LampGoals, LampStock, LampSteps, planSteps, s)
    ensures CodeInv(book, services, plan, LampGoals, LampSteps, s) && AllOpen(plan, LampSteps, s.w.t)
  {
    LampIsAccepted(book, plan, planSteps, s);
    assert forall i :: 0 <= i < |LampSteps| ==> LampSteps[i].repeats > 0;
    hide *;
    WrittenIsOpen(plan, LampGoals, LampStock, LampSteps, planSteps, s);
    AcceptedInv(book, plan, LampGoals, LampStock, LampSteps, planSteps, s.w);
    WrittenInv(book, services, plan, LampGoals, LampStock, LampSteps, planSteps, s);
  }

  lemma LampIsAccepted(book: Book, plan: int, planSteps: seq<PlanStep>, s: Code)
    requires TableBook([LampRecipe], book) && GoodBook(book) && AllCovered(LampGoals, LampStock, LampSteps)
    requires JustWritten(plan, LampGoals, LampStock, LampSteps, planSteps, s)
    ensures Accepted(book, plan, LampGoals, LampStock, LampSteps, planSteps, s.w) && NonNegative(LampStock)
  {
    LampListed(book);
    LampSizes();
    JustWrittenFacts(plan, LampGoals, LampStock, LampSteps, planSteps, s);
    hide GoodBook, AllCovered, PlanWritten, NonNegative, DistinctRecipes, TableBook, JustWritten, LampRecipe,
      LampStock, LampGoals;
  }

  lemma LampListed(book: Book)
    requires TableBook([LampRecipe], book)
    ensures forall i :: 0 <= i < |LampSteps| ==>
      LampSteps[i].recipe.id in book && book[LampSteps[i].recipe.id] == LampSteps[i].recipe && LampSteps[i].repeats > 0
  {
    assert LampRecipe in [LampRecipe];
  }

  lemma LampSizes()
    ensures NonNegative(LampStock) && DistinctRecipes(LampSteps)
    ensures forall i :: 0 <= i < |LampGoals| ==> LampGoals[i].count >= 0
  {
  }

  lemma JustWrittenFacts(plan: int, goals: seq<Stack>, storage: map<Uid, int>, steps: seq<Planner.Step>,
                         planSteps: seq<PlanStep>, s: Code)
    requires JustWritten(plan, goals, storage, steps, planSteps, s)
    ensures PlanWritten(EmptyTables, s.w.t, plan, goals, storage, steps, planSteps)
    ensures forall u :: Get(s.w.phys, u) >= Get(storage, u)
  {
    hide PlanWritten;
  }

  /** Right after a plan was written, each of its steps is open. */
  lemma WrittenIsOpen(plan: int, goals: seq<Stack>, storage: map<Uid, int>, steps: seq<Planner.Step>,
                      planSteps: seq<PlanStep>, s: Code)
    requires JustWritten(plan, goals, storage, steps, planSteps, s)
    requires forall i :: 0 <= i < |steps| ==> steps[i].repeats > 0
    ensures AllOpen(plan, steps, s.w.t)
  {
    hide PlanWritten, RowsReserved;
    WrittenRows(plan, goals, storage, steps, planSteps, s.w.t);
  }

  lemma LampStepsOf()
    ensures StepsOf([Lamp, Tool], map[Lamp := LampRecipe], [1, 0]) == LampSteps
  {
    var order, choice, counts := [Lamp, Tool], map[Lamp := LampRecipe], [1, 0];
    assert order[..1] == [Lamp] && counts[..1] == [1] && order[..1][..0] == [] && counts[..1][..0] == [];
    assert StepsOf(order[..1][..0], choice, counts[..1][..0]) == [];
    assert StepsOf(order[..1], choice, counts[..1]) == LampSteps;
  }

  lemma LampBalance()
    ensures Balance(LampGoals, LampStock, LampSteps, Lamp) == 0
  {
    LampAmounts(Lamp);
    hide Used, Produced, Held, GoalOf, IsGoal;
  }

  lemma LampRound()
    ensures Round(LampGoals, LampStock, [LampRecipe], [Lamp, Tool], map[Lamp := LampRecipe], [1, 0], LampSteps)
  {
    hide StepsOf, Balance, SingleResults;
    var order, counts := [Lamp, Tool], [1, 0];
    assert order[..|counts|] == order;
    assert order[0] == Lamp && order[1] == Tool && Tool != Lamp;
    LampStepsOf();
    LampBalance();
  }

  lemma LampInputs(r: Recipe, u: Uid)
    requires r in [LampRecipe] && IsInput(r, u)
    ensures u == Tool
  {
    LampAmounts(u);
    PositiveWhenMentioned(LampRecipe.catalysts, u);
  }

  lemma LampChoice()
    ensures ChoosesRecipes([LampRecipe], {Lamp, Tool}, map[Lamp := LampRecipe])
  {
    var table, items := [LampRecipe], {Lamp, Tool};
    assert Selected(LampRecipe, items) by { assert LampRecipe.results[0].uid == Lamp; }
    assert LampRecipe in table && Crafts(LampRecipe, Lamp);
    assert HasRecipe(table, items, Lamp);
  }

  lemma LampExpands()
    ensures Expands([LampRecipe], GoalUids(LampGoals), ExpandState([Lamp, Tool], map[Lamp := LampRecipe]))
  {
    LampClosure();
    LampChoice();
    hide Closure, GoalUids, ChoosesRecipes;
    var table, order := [LampRecipe], [Lamp, Tool];
    assert Tool != Lamp;
    forall r, i, j | r in table && 0 <= i < 2 && 0 <= j < 2 && Crafts(r, order[i]) && IsInput(r, order[j])
      ensures i < j {
      LampInputs(r, order[j]);
      assert order[i] == Lamp;
    }
  }
}
