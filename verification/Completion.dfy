/** In the moves that the server makes, every accepted plan can be brought to its end from wherever a run has led. */
module Completion {
  import opened Recipes
  import opened RecipeClosure
  import opened Planner
  import opened PlanTheorems
  import opened Sums
  import opened Ledger
  import opened LedgerInvariant
  import opened LedgerRuns
  import opened Scheduler
  import opened PlanAcceptance
  import opened PlanRuns
  import opened Progress
  import opened ProcessingRequest
  import opened CodeRuns

  // ---------------------------------------------------------------- reaching

  lemma CodeReachSelf(book: Book, services: Services, plan: int, manner: Manner, s: Code)
    ensures CodeReach(book, services, plan, manner, s, s)
  {
    assert CodeLeads(book, services, plan, manner, s, [s], [], s);
  }

  lemma CodeReachByMove(book: Book, services: Services, plan: int, manner: Manner, s: Code, m: CodeMove, s': Code)
    requires CodeStep(book, services, plan, s, m, s') && Allowed(manner, services, s, m)
    ensures CodeReach(book, services, plan, manner, s, s')
  {
    hide CodeStep, Allowed;
    assert CodeLeads(book, services, plan, manner, s, [s, s'], [m], s');
  }

  lemma CodeReachJoins(book: Book, services: Services, plan: int, manner: Manner, s: Code, mid: Code, s': Code)
    requires CodeReach(book, services, plan, manner, s, mid) && CodeReach(book, services, plan, manner, mid, s')
    ensures CodeReach(book, services, plan, manner, s, s')
  {
    hide CodeStep, Allowed;
    var states, moves :| CodeLeads(book, services, plan, manner, s, states, moves, mid);
    var states', moves' :| CodeLeads(book, services, plan, manner, mid, states', moves', s');
    var n := |moves|;
    var joined, all := states + states'[1..], moves + moves';
    forall j | 0 <= j < |all|
      ensures CodeStep(book, services, plan, joined[j], all[j], joined[j + 1])
        && Allowed(manner, services, joined[j], all[j])
    {
      if j < n {
        assert CodeStep(book, services, plan, states[j], moves[j], states[j + 1]);
      } else {
        assert CodeStep(book, services, plan, states'[j - n], moves'[j - n], states'[j - n + 1]);
      }
    }
    assert CodeLeads(book, services, plan, manner, s, joined, all, s');
  }

  predicate AtLeast(more: Manner, less: Manner) {
    && (less.pings ==> more.pings) && (less.deliveries ==> more.deliveries) && (less.anyTurn ==> more.anyTurn)
  }

  lemma CodeReachWeakens(book: Book, services: Services, plan: int, less: Manner, more: Manner, s: Code, s': Code)
    requires CodeReach(book, services, plan, less, s, s') && AtLeast(more, less)
    ensures CodeReach(book, services, plan, more, s, s')
  {
    hide CodeStep, InTurn;
    var states, moves :| CodeLeads(book, services, plan, less, s, states, moves, s');
    assert CodeLeads(book, services, plan, more, s, states, moves, s');
  }

  /** The plan at work: what the construction below starts from and comes back to. */
  ghost predicate AtWork(book: Book, services: Services, plan: int, goals: seq<Stack>, steps: seq<Planner.Step>,
                         s: Code) {
    CodeInv(book, services, plan, goals, steps, s) && AllServed(book, services, steps) && DistinctIds(steps)
  }

  // ---------------------------------------------------------------- plans that need no ping

  /** A check is due, or none would submit anything before the plan's items change. */
  ghost predicate Lively(book: Book, plan: int, s: Code) {
    AtMostOnce(book, plan, s.w.t) && (s.dirty || NoStepFits(book, plan, s.w.t))
  }

  lemma SameRowsLively(book: Book, plan: int, s: Code, s': Code)
    requires Lively(book, plan, s) && s'.w.t.steps == s.w.t.steps && s'.w.t.items == s.w.t.items && s'.dirty == s.dirty
    ensures Lively(book, plan, s')
  {
    forall u ensures AmountIn(s'.w.t, plan, u) == AmountIn(s.w.t, plan, u) {
    }
    hide AmountIn, Intake, AtMostOnce;
    assert AtMostOnce(book, plan, s'.w.t) by { SameStepsAtMostOnce(book, plan, s.w.t, s'.w.t); }
    if !s.dirty {
      forall k | k in s'.w.t.steps && k.plan == plan ensures NothingFits(book, plan, s'.w.t, k.recipe) {
        assert NothingFits(book, plan, s.w.t, k.recipe);
      }
    }
  }

  lemma SameStepsAtMostOnce(book: Book, plan: int, t: Tables, t': Tables)
    requires AtMostOnce(book, plan, t) && t'.steps == t.steps
    ensures AtMostOnce(book, plan, t')
  {
  }

  lemma CheckedLively(book: Book, plan: int, s: Code, pinged: bool, listed: seq<PlanStep>, trace: seq<Tables>, s': Code)
    requires GoodBook(book) && AtMostOnce(book, plan, s.w.t) && WalkStep(book, plan, s, pinged, listed, trace, s')
    ensures Lively(book, plan, s')
  {
    hide Checked, Fresh, GoodBook, AtMostOnce, NoStepFits;
    CheckLeavesNothing(book, s.w.t, plan, listed, trace, s'.w.t);
  }

  lemma ReportedLively(book: Book, plan: int, s: Code, u: Uid, s': Code)
    requires Lively(book, plan, s) && ReportStep(s, u, s')
    ensures Lively(book, plan, s')
  {
    hide Lively, NoStepFits, Allocates;
    AllocateRows(s.w.t, s'.w.t, u, Get(s.stored, u));
    if s'.w.t.items == s.w.t.items {
      SameRowsLively(book, plan, s, s');
    } else {
      LivelyOnce(book, plan, s);
      SameStepsAtMostOnce(book, plan, s.w.t, s'.w.t);
      DirtyIsLively(book, plan, s');
    }
  }

  lemma LivelyOnce(book: Book, plan: int, s: Code)
    requires Lively(book, plan, s)
    ensures AtMostOnce(book, plan, s.w.t)
  {
  }

  lemma DirtyIsLively(book: Book, plan: int, s: Code)
    requires AtMostOnce(book, plan, s.w.t) && s.dirty
    ensures Lively(book, plan, s)
  {
  }

  lemma StartKeepsPlan(book: Book, services: Services, s: Code, id: int, s': Code)
    requires StartStep(book, services, s, id, s')
    ensures s'.w.t.steps == s.w.t.steps && s'.w.t.items == s.w.t.items && s'.dirty == s.dirty
  {
    hide Plus, PlusOutputs, RecipeOf, Release, Unengaged;
  }

  lemma FinishKeepsPlan(book: Book, services: Services, s: Code, id: int, s': Code)
    requires FinishStep(book, services, s, id, s')
    ensures s'.w.t.steps == s.w.t.steps && s'.w.t.items == s.w.t.items && s'.dirty == s.dirty
  {
    hide Plus, PlusOutputs, RecipeOf, ShowsOutput;
  }

  lemma QuietRows(book: Book, services: Services, plan: int, s: Code, m: CodeMove, s': Code)
    requires CodeStep(book, services, plan, s, m, s') && !m.Walk? && !m.Report? && !m.Forget?
    ensures s'.w.t.steps == s.w.t.steps && s'.w.t.items == s.w.t.items && s'.dirty == s.dirty
  {
    hide StartStep, FinishStep, PlusInputs, RecipeOf, CanExport;
    if m.Start? {
      StartKeepsPlan(book, services, s, m.id, s');
    } else if m.Finish? {
      FinishKeepsPlan(book, services, s, m.id, s');
    }
  }

  /**
    Once a check has left nothing that fits, it stays so until a check is due again, unless an
    update pass is cut short.
   */
  lemma StepKeepsLively(book: Book, services: Services, plan: int, s: Code, m: CodeMove, s': Code)
    requires GoodBook(book) && Lively(book, plan, s) && CodeStep(book, services, plan, s, m, s') && !m.Forget?
    ensures Lively(book, plan, s')
  {
    if m.Walk? {
      LivelyOnce(book, plan, s);
      hide Lively, WalkStep, GoodBook;
      CheckedLively(book, plan, s, m.pinged, m.listed, m.trace, s');
    } else if m.Report? {
      hide Lively, ReportStep;
      ReportedLively(book, plan, s, m.uid, s');
    } else {
      hide Lively, CodeStep;
      QuietRows(book, services, plan, s, m, s');
      SameRowsLively(book, plan, s, s');
    }
  }

  // ---------------------------------------------------------------- getting on

  /** The server can get from one state to the other, which leaves no more work, or less, and is as lively. */
  ghost predicate Gets(book: Book, services: Services, plan: int, goals: seq<Stack>, steps: seq<Planner.Step>,
                       manner: Manner, s: Code, s': Code, works: bool) {
    && CodeReach(book, services, plan, manner, s, s') && AtWork(book, services, plan, goals, steps, s')
    && 0 <= Rank(s'.w.t) <= Rank(s.w.t) && (works ==> Rank(s'.w.t) < Rank(s.w.t))
    && (Lively(book, plan, s) ==> Lively(book, plan, s'))
  }

  lemma GetsSelf(book: Book, services: Services, plan: int, goals: seq<Stack>, steps: seq<Planner.Step>,
                 manner: Manner, s: Code)
    requires AtWork(book, services, plan, goals, steps, s)
    ensures Gets(book, services, plan, goals, steps, manner, s, s, false)
  {
    InvParts(book, services, plan, goals, steps, s);
    RankNonNegative(book, s.w.t);
    hide CodeInv, Rank, CodeReach, Lively;
    CodeReachSelf(book, services, plan, manner, s);
  }

  lemma WorkParts(book: Book, services: Services, plan: int, goals: seq<Stack>, steps: seq<Planner.Step>, s: Code)
    ensures AtWork(book, services, plan, goals, steps, s) <==>
      CodeInv(book, services, plan, goals, steps, s) && AllServed(book, services, steps) && DistinctIds(steps)
  {
  }

  lemma GetsBy(book: Book, services: Services, plan: int, goals: seq<Stack>, steps: seq<Planner.Step>,
               manner: Manner, s: Code, s': Code, works: bool)
    requires CodeReach(book, services, plan, manner, s, s') && AtWork(book, services, plan, goals, steps, s')
    requires 0 <= Rank(s'.w.t) <= Rank(s.w.t) && (works ==> Rank(s'.w.t) < Rank(s.w.t))
    requires Lively(book, plan, s) ==> Lively(book, plan, s')
    ensures Gets(book, services, plan, goals, steps, manner, s, s', works)
  {
  }

  lemma GetsByMove(book: Book, services: Services, plan: int, goals: seq<Stack>, steps: seq<Planner.Step>,
                   manner: Manner, s: Code, m: CodeMove, s': Code)
    requires AtWork(book, services, plan, goals, steps, s) && CodeStep(book, services, plan, s, m, s')
    requires Allowed(manner, services, s, m) && !m.Forget?
    ensures Gets(book, services, plan, goals, steps, manner, s, s', CodeWorks(services, s, m, s'))
  {
    hide *;
    var works := CodeWorks(services, s, m, s');
    WorkParts(book, services, plan, goals, steps, s);
    InvParts(book, services, plan, goals, steps, s);
    CodeReachByMove(book, services, plan, manner, s, m, s');
    CodeStepKeepsInv(book, services, plan, goals, steps, s, m, s');
    OnwardFacts(book, plan, goals, steps, s.w, s'.w, works);
    WorkParts(book, services, plan, goals, steps, s');
    if Lively(book, plan, s) {
      StepKeepsLively(book, services, plan, s, m, s');
    }
    GetsBy(book, services, plan, goals, steps, manner, s, s', works);
  }

  lemma GetsJoins(book: Book, services: Services, plan: int, goals: seq<Stack>, steps: seq<Planner.Step>,
                  manner: Manner, s: Code, mid: Code, s': Code, a: bool, b: bool)
    requires Gets(book, services, plan, goals, steps, manner, s, mid, a)
      && Gets(book, services, plan, goals, steps, manner, mid, s', b)
    ensures Gets(book, services, plan, goals, steps, manner, s, s', a || b)
  {
    hide AtWork, Rank, CodeReach, Lively;
    CodeReachJoins(book, services, plan, manner, s, mid, s');
  }

  lemma GetsFacts(book: Book, services: Services, plan: int, goals: seq<Stack>, steps: seq<Planner.Step>,
                  manner: Manner, s: Code, s': Code, works: bool)
    requires Gets(book, services, plan, goals, steps, manner, s, s', works)
    ensures AtWork(book, services, plan, goals, steps, s') && CodeReach(book, services, plan, manner, s, s')
    ensures 0 <= Rank(s'.w.t) <= Rank(s.w.t) && (works ==> Rank(s'.w.t) < Rank(s.w.t))
    ensures Lively(book, plan, s) ==> Lively(book, plan, s')
  {
  }

  // ---------------------------------------------------------------- bringing everything home

  lemma SomeKey<K(!new), V>(m: map<K, V>) returns (k: K)
    requires m != map[]
    ensures k in m
  {
    k :| k in m;
  }

  /** Nothing is among the results, and nothing is taken out without a commit. */
  ghost predicate Home(s: Code) {
    s.held == map[] && forall u :: Get(s.results, u) == 0
  }

  lemma {:induction false} PutBackAll(book: Book, services: Services, plan: int, goals: seq<Stack>,
      steps: seq<Planner.Step>, manner: Manner, s: Code)
    returns (s': Code)
    requires AtWork(book, services, plan, goals, steps, s)
    ensures Gets(book, services, plan, goals, steps, manner, s, s', false)
    ensures s'.w == s.w && s'.held == map[] && s'.results == s.results
    decreases |s.held|
  {
    if s.held == map[] {
      s' := s;
      GetsSelf(book, services, plan, goals, steps, manner, s);
    } else {
      var id := SomeKey(s.held);
      HeldAreCrafts(book, services, plan, goals, steps, s, id);
      hide AtWork, Gets, PlusInputs, RecipeOf, CodeWorks;
      var mid := s.(stored := PlusInputs(s.stored, RecipeOf(book, s.w.t.crafts[id].recipe), Portion(s.held[id])),
        held := s.held - {id});
      GetsByMove(book, services, plan, goals, steps, manner, s, PutBack(id), mid);
      GetsFacts(book, services, plan, goals, steps, manner, s, mid, CodeWorks(services, s, PutBack(id), mid));
      s' := PutBackAll(book, services, plan, goals, steps, manner, mid);
      GetsOnly(book, services, plan, goals, steps, manner, s, mid, s', CodeWorks(services, s, PutBack(id), mid), false);
    }
  }

  lemma GetsOnly(book: Book, services: Services, plan: int, goals: seq<Stack>, steps: seq<Planner.Step>, manner: Manner,
                 s: Code, mid: Code, s': Code, a: bool, b: bool)
    requires Gets(book, services, plan, goals, steps, manner, s, mid, a)
      && Gets(book, services, plan, goals, steps, manner, mid, s', b)
    ensures Gets(book, services, plan, goals, steps, manner, s, s', b)
  {
    hide AtWork, Rank, CodeReach, Lively;
    CodeReachJoins(book, services, plan, manner, s, mid, s');
  }

  lemma HeldAreCrafts(book: Book, services: Services, plan: int, goals: seq<Stack>, steps: seq<Planner.Step>, s: Code,
                      id: int)
    requires AtWork(book, services, plan, goals, steps, s) && id in s.held
    ensures id in s.w.t.crafts
  {
    InvParts(book, services, plan, goals, steps, s);
  }

  lemma ResultsNonNegative(book: Book, services: Services, plan: int, goals: seq<Stack>, steps: seq<Planner.Step>,
                           s: Code, u: Uid)
    requires AtWork(book, services, plan, goals, steps, s)
    ensures Get(s.results, u) >= 0
  {
    assert PlacedItem(book, s, u);
  }

  lemma {:induction false} PullAll(book: Book, services: Services, plan: int, goals: seq<Stack>,
      steps: seq<Planner.Step>, manner: Manner, s: Code, todo: set<Uid>)
    returns (s': Code)
    requires AtWork(book, services, plan, goals, steps, s) && forall u :: u !in todo ==> Get(s.results, u) == 0
    ensures Gets(book, services, plan, goals, steps, manner, s, s', false)
    ensures s'.w == s.w && s'.held == s.held && forall u :: Get(s'.results, u) == 0
    decreases |todo|
  {
    hide AtWork, Gets, CodeWorks;
    if todo == {} {
      s' := s;
      GetsSelf(book, services, plan, goals, steps, manner, s);
    } else {
      var u :| u in todo;
      var n := Get(s.results, u);
      ResultsNonNegative(book, services, plan, goals, steps, s, u);
      var mid := s.(stored := s.stored[u := Get(s.stored, u) + n], results := s.results[u := Get(s.results, u) - n]);
      GetsByMove(book, services, plan, goals, steps, manner, s, Pull(u, n), mid);
      GetsFacts(book, services, plan, goals, steps, manner, s, mid, CodeWorks(services, s, Pull(u, n), mid));
      s' := PullAll(book, services, plan, goals, steps, manner, mid, todo - {u});
      GetsOnly(book, services, plan, goals, steps, manner, s, mid, s', CodeWorks(services, s, Pull(u, n), mid), false);
    }
  }

  /** Without changing the plan, everything that is not in a machine gets into storage. */
  lemma BringHome(book: Book, services: Services, plan: int, goals: seq<Stack>, steps: seq<Planner.Step>,
                  manner: Manner, s: Code)
    returns (s': Code)
    requires AtWork(book, services, plan, goals, steps, s)
    ensures Gets(book, services, plan, goals, steps, manner, s, s', false) && s'.w == s.w && Home(s')
  {
    hide AtWork, Gets;
    var mid := PutBackAll(book, services, plan, goals, steps, manner, s);
    GetsFacts(book, services, plan, goals, steps, manner, s, mid, false);
    s' := PullAll(book, services, plan, goals, steps, manner, mid, mid.results.Keys);
    GetsOnly(book, services, plan, goals, steps, manner, s, mid, s', false, false);
  }

  ghost predicate AllPending(t: Tables) {
    forall c :: c in t.crafts ==> t.crafts[c].status.Pending?
  }

  /** With no craft in a machine, all the stock is then stored. */
  lemma HomeIsStored(book: Book, services: Services, plan: int, goals: seq<Stack>, steps: seq<Planner.Step>, s: Code,
                     u: Uid)
    requires AtWork(book, services, plan, goals, steps, s) && Home(s) && AllPending(s.w.t)
    ensures Get(s.stored, u) == Get(s.w.phys, u)
  {
    assert PlacedItem(book, s, u);
    forall c | c in s.w.t.crafts ensures Lent(book, s.w.t, s.held, u)[c] == 0 {
      assert GoodCraft(book, s.w.t.crafts[c]);
      assert s.w.t.crafts[c].committed == 0;
    }
    SumZero(Lent(book, s.w.t, s.held, u));
  }

  // ---------------------------------------------------------------- completing what is committed

  /** A craft's recipe is a step's, and so served. */
  lemma CraftIsServed(book: Book, services: Services, plan: int, goals: seq<Stack>, steps: seq<Planner.Step>, s: Code,
                      id: int)
    requires AtWork(book, services, plan, goals, steps, s) && id in s.w.t.crafts
    ensures Served(book, services, s.w.t.crafts[id].recipe) && s.w.t.crafts[id].recipe in services
  {
    var a :| 0 <= a <= |steps| && a < |steps| && steps[a].recipe.id == s.w.t.crafts[id].recipe;
  }

  lemma CommittedWorks(book: Book, services: Services, plan: int, goals: seq<Stack>, steps: seq<Planner.Step>, s: Code,
                       id: int)
    requires AtWork(book, services, plan, goals, steps, s) && id in s.w.t.crafts && s.w.t.crafts[id].status.Committed?
    ensures var recipe := s.w.t.crafts[id].recipe;
      && recipe in services && Working(services, s.w.t, id) && WaitsMatch(services, s.w.t)
      && (services[recipe].Processing? ==> ShowsOutput(services[recipe].machine, RecipeOf(book, recipe)))
  {
    CraftIsServed(book, services, plan, goals, steps, s, id);
    InvParts(book, services, plan, goals, steps, s);
    hide Going, Orderly, Placed, AllServed, Batch, ShowsOutput;
    assert Working(services, s.w.t, id);
  }

  /** The other crafts are still there. */
  ghost predicate OthersStay(t: Tables, t': Tables, id: int) {
    forall c :: c in t.crafts && c != id ==> c in t'.crafts && t'.crafts[c].recipe == t.crafts[c].recipe
  }

  lemma OthersStayBy(t: Tables, t': Tables, id: int)
    requires t'.crafts - {id} == t.crafts - {id}
    ensures OthersStay(t, t', id)
  {
    forall c | c in t.crafts && c != id ensures c in t'.crafts && t'.crafts[c].recipe == t.crafts[c].recipe {
      assert c in t.crafts - {id} && (t.crafts - {id})[c] == t.crafts[c];
      assert c in t'.crafts - {id} && (t'.crafts - {id})[c] == t'.crafts[c];
    }
  }

  /** The state after a completion. */
  function FinishedCode(book: Book, services: Services, s: Code, id: int): Code
    requires id in s.w.t.crafts && s.w.t.crafts[id].recipe in services
  {
    var t, n, r := s.w.t, Portion(s.w.t.crafts[id].committed), RecipeOf(book, s.w.t.crafts[id].recipe);
    var next := match services[t.crafts[id].recipe]
      case Crafting(_) => AfterComplete(t, id)
      case Processing(m, _) => AfterComplete(DropWait(t, id, m.worker), id);
    s.(w := World(next, Plus(s.w.phys, r.results, n)), results := PlusOutputs(s.results, r, n))
  }

  lemma FinishIsStep(book: Book, services: Services, plan: int, s: Code, id: int)
    requires id in s.w.t.crafts && s.w.t.crafts[id].recipe in services && s.w.t.crafts[id].status.Committed?
    requires Working(services, s.w.t, id) && WaitsMatch(services, s.w.t)
    requires services[s.w.t.crafts[id].recipe].Processing? ==>
      ShowsOutput(services[s.w.t.crafts[id].recipe].machine, RecipeOf(book, s.w.t.crafts[id].recipe))
    ensures FinishStep(book, services, s, id, FinishedCode(book, services, s, id))
    ensures CodeStep(book, services, plan, s, Finish(id), FinishedCode(book, services, s, id))
    ensures OthersStay(s.w.t, FinishedCode(book, services, s, id).w.t, id)
  {
    hide Plus, PlusOutputs, RecipeOf, AfterComplete, ShowsOutput, WaitsMatch, OthersStay, DropWait, Portion;
    var s' := FinishedCode(book, services, s, id);
    assert FinishStep(book, services, s, id, s');
    hide FinishStep, FinishedCode;
    FinishedRows(book, services, s, id, s');
    OthersStayBy(s.w.t, s'.w.t, id);
  }

  lemma FinishOne(book: Book, services: Services, plan: int, goals: seq<Stack>, steps: seq<Planner.Step>,
                  manner: Manner, s: Code, id: int) returns (s': Code)
    requires AtWork(book, services, plan, goals, steps, s) && id in s.w.t.crafts && s.w.t.crafts[id].status.Committed?
    ensures Gets(book, services, plan, goals, steps, manner, s, s', true) && OthersStay(s.w.t, s'.w.t, id)
  {
    CommittedWorks(book, services, plan, goals, steps, s, id);
    FinishIsStep(book, services, plan, s, id);
    s' := FinishedCode(book, services, s, id);
    hide AtWork, Gets, FinishedCode, CodeStep, FinishStep, OthersStay, Working, ShowsOutput, WaitsMatch;
    GetsByMove(book, services, plan, goals, steps, manner, s, Finish(id), s');
  }

  // ---------------------------------------------------------------- running one craft

  /** No step after `b` has repeats left or crafts under way. */
  ghost predicate NothingAfter(plan: int, steps: seq<Planner.Step>, b: int, t: Tables) {
    && CraftsUpTo(steps, b, t)
    && forall a :: 0 <= a < |steps| && b < a ==>
      StepKey(plan, steps[a].recipe.id) in t.steps && t.steps[StepKey(plan, steps[a].recipe.id)] == 0
  }

  lemma StepUseNonNegative(book: Book, plan: int, steps: seq<Planner.Step>, t: Tables, u: Uid)
    requires Valid(book, t) && OnePlan(book, plan, steps, t)
    ensures Sum(StepUse(book, t, u)) >= 0
  {
    forall k | k in t.steps ensures StepUse(book, t, u)[k] >= 0 {
      NeedBounds(book, k.recipe, u, 0, t.steps[k]);
    }
    SumNonNegative(StepUse(book, t, u));
  }

  /** The batch of a craft: at least one repeat, no more than are left, and one only if there are catalysts. */
  lemma BatchBounds(book: Book, services: Services, recipe: int, repeats: int)
    requires Served(book, services, recipe) && repeats >= 1
    ensures var n := CraftBatch.Min(repeats, Batch(book, services, recipe).value);
      1 <= n <= repeats && (RecipeOf(book, recipe).catalysts != [] ==> n == 1)
  {
    hide CraftBatch.MaxIngs, RecipeOf;
  }

  /** An item that nothing makes any more is in stock for all that is still to be taken from it. */
  lemma StockCovers(book: Book, plan: int, goals: seq<Stack>, steps: seq<Planner.Step>, w: World, u: Uid)
    requires Inv(book, plan, goals, steps, w) && Sum(StepYield(book, w.t, u)) == 0 == Sum(CraftYield(book, w.t, u))
    ensures Get(w.phys, u) >= Base(goals, steps, u) + Sum(CraftShare(book, w.t, u))
  {
    StepUseNonNegative(book, plan, steps, w.t, u);
    assert ItemInv(book, plan, goals, steps, w, u);
    hide Sum, StepUse, StepYield, CraftYield, CraftShare, Base, Inv;
  }

  lemma CraftsShare(book: Book, t: Tables, id: int, n: int, u: Uid)
    requires Valid(book, t) && id in t.crafts && t.crafts[id].status.Pending? && 1 <= n <= t.crafts[id].repeats
    ensures Need(RecipeOf(book, t.crafts[id].recipe), u, n) <= Sum(CraftShare(book, t, u))
  {
    assert GoodCraft(book, t.crafts[id]);
    SharesNonNegative(book, t, u);
    NeedBounds(book, t.crafts[id].recipe, u, n, t.crafts[id].repeats);
    hide Sum, CraftShare, Need, PlanShare, Balanced;
  }

  /** The inputs of a craft of the last active step are all in stock: nothing that makes them is left. */
  lemma LastCraftHasInputs(book: Book, plan: int, goals: seq<Stack>, steps: seq<Planner.Step>, w: World, b: nat,
                           id: int, n: int, u: Uid)
    requires Inv(book, plan, goals, steps, w) && ProducersLater(steps) && CatalystsKept(goals, steps)
    requires b < |steps| && NothingAfter(plan, steps, b, w.t)
    requires id in w.t.crafts && w.t.crafts[id].status.Pending? && w.t.crafts[id].recipe == steps[b].recipe.id
    requires 1 <= n <= w.t.crafts[id].repeats && (steps[b].recipe.catalysts != [] ==> n == 1)
    requires Intake(steps[b].recipe, u) > 0
    ensures Intake(steps[b].recipe, u) * n <= Get(w.phys, u)
  {
    var r := steps[b].recipe;
    assert RecipeOf(book, r.id) == r && r.id in book && GoodBook(book);
    assert AmountOf(r.catalysts, u) <= Base(goals, steps, u);
    IntakePositive(r, u);
    hide Balanced, ItemInv, Sum, StepUse, StepYield, CraftYield, CraftShare, Base, Intake, AmountOf, ProducersLater,
      CatalystsKept;
    InputsNotComing(book, plan, steps, w.t, b, u);
    InputsNotCrafted(book, plan, steps, w.t, b, u);
    StockCovers(book, plan, goals, steps, w, u);
    CraftsShare(book, w.t, id, n, u);
    CatalystShare(r, n, u);
  }

  lemma CatalystShare(r: Recipe, n: int, u: Uid)
    requires n >= 1 && (r.catalysts != [] ==> n == 1) && PositiveAmounts(r.catalysts)
    ensures Intake(r, u) * n <= Need(r, u, n) + AmountOf(r.catalysts, u)
  {
    LineAmounts(r, n, u);
    PositiveWhenMentioned(r.catalysts, u);
  }

  lemma CraftFacts(book: Book, services: Services, plan: int, goals: seq<Stack>, steps: seq<Planner.Step>, s: Code,
                   id: int)
    requires AtWork(book, services, plan, goals, steps, s) && id in s.w.t.crafts && s.w.t.crafts[id].status.Pending?
    ensures CanCommit(s.w.t, id) && s.w.t.crafts[id].repeats >= 1 && Served(book, services, s.w.t.crafts[id].recipe)
    ensures s.w.t.crafts[id].recipe in services && Inv(book, plan, goals, steps, s.w)
    ensures WaitsMatch(services, s.w.t) && HiredMatches(services, s.w.t)
  {
    CraftIsServed(book, services, plan, goals, steps, s, id);
    assert GoodCraft(book, s.w.t.crafts[id]);
  }

  /** The least of some craft ids. */
  lemma {:induction false} Least(ids: set<int>) returns (least: int)
    requires ids != {}
    ensures least in ids && forall id :: id in ids ==> least <= id
    decreases |ids|
  {
    var all := map c | c in ids :: 0;
    assert all.Keys == ids;
    var x := SomeKey(all);
    least := x;
    var rest := ids - {x};
    if rest != {} {
      var other := Least(rest);
      least := if x <= other then x else other;
    }
    forall id | id in ids ensures least <= id {
      assert id == x || id in rest;
    }
  }

  /** The craft is the first that the machine, or the client that has it or would take it, takes up. */
  ghost predicate Foremost(services: Services, t: Tables, id: int, worker: string) {
    && id in t.crafts && t.crafts[id].recipe in services
    && if services[t.crafts[id].recipe].Crafting? && t.crafts[id].worker.None?
       then Employs(services, t.crafts[id].recipe, worker) && InTurn(services, t, Hire(id, worker))
       else InTurn(services, t, Export(id))
  }

  /** One queue holds both recipes. */
  predicate Together(services: Services, a: int, b: int) {
    a == b || Shares(services, a, b)
  }

  lemma FirstOfMachine(services: Services, t: Tables, c: int) returns (id: int)
    requires c in t.crafts && forall k :: k in t.crafts ==> t.crafts[k].recipe in services
    requires services[t.crafts[c].recipe].Processing?
    ensures Foremost(services, t, id, "") && Together(services, t.crafts[c].recipe, t.crafts[id].recipe)
  {
    var m := services[t.crafts[c].recipe].machine;
    var queue := set k | k in t.crafts && services[t.crafts[k].recipe].Processing?
      && services[t.crafts[k].recipe].machine == m;
    assert c in queue;
    id := Least(queue);
    forall k | k in t.crafts && SameQueue(services, t.crafts[id], t.crafts[k]) ensures id <= k {
      assert k in queue;
    }
  }

  lemma FirstOfClient(services: Services, t: Tables, c: int, worker: string) returns (id: int)
    requires c in t.crafts && t.crafts[c].worker == Some(worker) && HiredMatches(services, t)
    ensures Foremost(services, t, id, worker) && Employs(services, t.crafts[id].recipe, worker)
  {
    var hired := set k | k in t.crafts && t.crafts[k].worker == Some(worker);
    assert c in hired;
    id := Least(hired);
    assert Employs(services, t.crafts[id].recipe, worker);
    forall k | k in t.crafts && SameQueue(services, t.crafts[id], t.crafts[k]) ensures id <= k {
      assert k in hired;
    }
  }

  lemma FirstUnassigned(services: Services, t: Tables, c: int, worker: string) returns (id: int)
    requires c in t.crafts && t.crafts[c].worker.None? && Employs(services, t.crafts[c].recipe, worker)
    requires forall k :: k in t.crafts ==> t.crafts[k].worker != Some(worker)
    ensures Foremost(services, t, id, worker) && Employs(services, t.crafts[id].recipe, worker)
  {
    var open := set k | k in t.crafts && t.crafts[k].worker.None? && Employs(services, t.crafts[k].recipe, worker);
    assert c in open;
    id := Least(open);
    forall k | k in t.crafts && Employs(services, t.crafts[k].recipe, worker) && t.crafts[k].worker.None?
      ensures id <= k
    {
      assert k in open;
    }
  }

  lemma TogetherByClient(services: Services, a: int, b: int, worker: string)
    requires Employs(services, a, worker) && Employs(services, b, worker)
    ensures Together(services, a, b)
  {
    assert worker in services[a].clients * services[b].clients;
  }

  /** Some craft of a queue that takes craft `c` is the first that is taken up. */
  lemma SomeForemost(services: Services, t: Tables, c: int) returns (id: int, worker: string)
    requires c in t.crafts && HiredMatches(services, t) && forall k :: k in t.crafts ==> t.crafts[k].recipe in services
    requires services[t.crafts[c].recipe].Crafting? ==> services[t.crafts[c].recipe].clients != {}
    ensures Foremost(services, t, id, worker) && Together(services, t.crafts[c].recipe, t.crafts[id].recipe)
  {
    var recipe := t.crafts[c].recipe;
    match services[recipe] {
      case Processing(_, _) =>
        worker := "";
        id := FirstOfMachine(services, t, c);
      case Crafting(clients) =>
        if k :| k in t.crafts && t.crafts[k].worker.Some? && t.crafts[k].worker.value in clients {
          worker := t.crafts[k].worker.value;
          id := FirstOfClient(services, t, k, worker);
        } else {
          assert t.crafts[c].worker.Some? ==> Employs(services, recipe, t.crafts[c].worker.value);
          worker :| worker in clients;
          id := FirstUnassigned(services, t, c, worker);
        }
        TogetherByClient(services, recipe, t.crafts[id].recipe, worker);
    }
  }

  /** The client that the craft goes to: the one that has it, or any of its type. */
  lemma SomeClient(services: Services, t: Tables, id: int) returns (worker: string)
    requires id in t.crafts && HiredMatches(services, t) && t.crafts[id].recipe in services
    requires services[t.crafts[id].recipe].Crafting? && services[t.crafts[id].recipe].clients != {}
    ensures Employs(services, t.crafts[id].recipe, worker)
    ensures t.crafts[id].worker.Some? ==> worker == t.crafts[id].worker.value
  {
    if t.crafts[id].worker.Some? {
      worker := t.crafts[id].worker.value;
    } else {
      worker :| worker in services[t.crafts[id].recipe].clients;
    }
  }

  /** What hiring a client for the craft leaves as it was. */
  ghost predicate Hired(services: Services, s: Code, id: int, worker: string, s': Code)
    requires id in s.w.t.crafts && s.w.t.crafts[id].recipe in services
  {
    && s'.held == s.held && s'.results == s.results && s'.stored == s.stored && s'.w.phys == s.w.phys
    && s'.w.t == s.w.t.(crafts := s'.w.t.crafts) && s'.w.t.crafts.Keys == s.w.t.crafts.Keys
    && (forall c :: c in s.w.t.crafts ==> s'.w.t.crafts[c] == s.w.t.crafts[c].(worker := s'.w.t.crafts[c].worker))
    && (services[s.w.t.crafts[id].recipe].Crafting? ==> s'.w.t.crafts[id].worker.Some?)
    && (Foremost(services, s.w.t, id, worker) ==> InTurn(services, s'.w.t, Export(id)))
  }

  lemma AssignHires(services: Services, s: Code, id: int, worker: string)
    requires id in s.w.t.crafts && s.w.t.crafts[id].worker.None?
      && Employs(services, s.w.t.crafts[id].recipe, worker)
    ensures Hired(services, s, id, worker, s.(w := World(AfterAssign(s.w.t, id, worker), s.w.phys)))
    ensures Foremost(services, s.w.t, id, worker) ==> InTurn(services, s.w.t, Hire(id, worker))
  {
  }

  lemma AlreadyHired(services: Services, s: Code, id: int, worker: string)
    requires id in s.w.t.crafts && s.w.t.crafts[id].recipe in services
      && (services[s.w.t.crafts[id].recipe].Crafting? ==> s.w.t.crafts[id].worker.Some?)
    ensures Hired(services, s, id, worker, s)
  {
  }

  /** A craft for clients that nobody has goes to one of them. */
  lemma HireOne(book: Book, services: Services, plan: int, goals: seq<Stack>, steps: seq<Planner.Step>,
                manner: Manner, s: Code, id: int, worker: string) returns (s': Code)
    requires AtWork(book, services, plan, goals, steps, s) && id in s.w.t.crafts && s.w.t.crafts[id].recipe in services
    requires services[s.w.t.crafts[id].recipe].Crafting? && s.w.t.crafts[id].worker.None? ==>
      Employs(services, s.w.t.crafts[id].recipe, worker)
    requires manner.anyTurn || Foremost(services, s.w.t, id, worker)
    ensures Gets(book, services, plan, goals, steps, manner, s, s', false) && Hired(services, s, id, worker, s')
  {
    hide AtWork, Gets, AfterAssign, CodeWorks, Hired, Foremost, InTurn;
    if services[s.w.t.crafts[id].recipe].Crafting? && s.w.t.crafts[id].worker.None? {
      s' := s.(w := World(AfterAssign(s.w.t, id, worker), s.w.phys));
      AssignHires(services, s, id, worker);
      GetsByMove(book, services, plan, goals, steps, manner, s, Hire(id, worker), s');
      GetsWeakens(book, services, plan, goals, steps, manner, s, s', CodeWorks(services, s, Hire(id, worker), s'));
    } else {
      s' := s;
      AlreadyHired(services, s, id, worker);
      GetsSelf(book, services, plan, goals, steps, manner, s);
    }
  }

  lemma GetsWeakens(book: Book, services: Services, plan: int, goals: seq<Stack>, steps: seq<Planner.Step>,
                    manner: Manner, s: Code, s': Code, a: bool)
    requires Gets(book, services, plan, goals, steps, manner, s, s', a)
    ensures Gets(book, services, plan, goals, steps, manner, s, s', false)
  {
  }

  /** The state after an export. */
  function Exported(book: Book, services: Services, s: Code, id: int): Code
    requires id in s.w.t.crafts && Batch(book, services, s.w.t.crafts[id].recipe).Some?
  {
    var c := s.w.t.crafts[id];
    var n := CraftBatch.Min(c.repeats, Batch(book, services, c.recipe).value);
    s.(stored := PlusInputs(s.stored, RecipeOf(book, c.recipe), -Portion(n)), held := s.held[id := n])
  }

  lemma ExportIsStep(book: Book, services: Services, plan: int, s: Code, id: int)
    requires CanExport(book, services, s, id)
    ensures CodeStep(book, services, plan, s, Export(id), Exported(book, services, s, id))
  {
    hide PlusInputs, Batch, RecipeOf, Intake;
  }

  lemma ExportOne(book: Book, services: Services, plan: int, goals: seq<Stack>, steps: seq<Planner.Step>,
                  manner: Manner, s: Code, id: int) returns (s': Code)
    requires AtWork(book, services, plan, goals, steps, s) && CanExport(book, services, s, id)
    requires manner.anyTurn || InTurn(services, s.w.t, Export(id))
    ensures Gets(book, services, plan, goals, steps, manner, s, s', false) && s'.w == s.w && id in s'.held
  {
    s' := Exported(book, services, s, id);
    ExportIsStep(book, services, plan, s, id);
    hide AtWork, Gets, CanExport, CodeWorks, CodeStep, PlusInputs, Batch, InTurn;
    GetsByMove(book, services, plan, goals, steps, manner, s, Export(id), s');
    GetsWeakens(book, services, plan, goals, steps, manner, s, s', CodeWorks(services, s, Export(id), s'));
  }

  /** The state after a start. */
  function StartedCode(book: Book, services: Services, s: Code, id: int): Code
    requires id in s.w.t.crafts && id in s.held && s.w.t.crafts[id].recipe in services
  {
    var t, n, r := s.w.t, s.held[id], RecipeOf(book, s.w.t.crafts[id].recipe);
    var used := Plus(s.w.phys, r.ingredients, -Portion(n));
    if Direct(services, t.crafts[id].recipe) then
      s.(w := World(Started(services, t, id, r, n), Plus(used, r.results, Portion(n))),
         results := PlusOutputs(s.results, r, Portion(n)), held := s.held - {id})
    else
      s.(w := World(Started(services, t, id, r, n), used), held := s.held - {id})
  }

  lemma StartIsStep(book: Book, services: Services, plan: int, s: Code, id: int)
    requires CanCommit(s.w.t, id) && id in s.held && s.w.t.crafts[id].recipe in services && s.w.t.waits == {}
    ensures CodeStep(book, services, plan, s, Start(id), StartedCode(book, services, s, id))
  {
    hide Plus, PlusOutputs, RecipeOf, Started, Direct, Portion;
    assert StartStep(book, services, s, id, StartedCode(book, services, s, id));
    hide StartStep, StartedCode;
  }

  lemma StartedFacts(book: Book, services: Services, s: Code, id: int)
    requires id in s.w.t.crafts && id in s.held && s.w.t.crafts[id].recipe in services
    ensures var s', direct := StartedCode(book, services, s, id), Direct(services, s.w.t.crafts[id].recipe);
      && CodeWorks(services, s, Start(id), s') == direct
      && (!direct ==> id in s'.w.t.crafts && s'.w.t.crafts[id].status.Committed?)
  {
    if !Direct(services, s.w.t.crafts[id].recipe) {
      StartedStatus(services, s.w.t, id, RecipeOf(book, s.w.t.crafts[id].recipe), s.held[id]);
    }
    hide Plus, PlusOutputs, RecipeOf, Started, Direct, Portion;
  }

  lemma StartedStay(book: Book, services: Services, s: Code, id: int)
    requires id in s.w.t.crafts && id in s.held && s.w.t.crafts[id].recipe in services
    ensures OthersStay(s.w.t, StartedCode(book, services, s, id).w.t, id)
  {
    StartedRows(services, s.w.t, id, RecipeOf(book, s.w.t.crafts[id].recipe), s.held[id]);
    hide Plus, PlusOutputs, RecipeOf, Started, Direct, Portion, OthersStay;
    OthersStayBy(s.w.t, StartedCode(book, services, s, id).w.t, id);
  }

  /** The commit; a machine that completes at once is then done with a repeat. */
  lemma StartOne(book: Book, services: Services, plan: int, goals: seq<Stack>, steps: seq<Planner.Step>,
                 manner: Manner, s: Code, id: int) returns (s': Code)
    requires AtWork(book, services, plan, goals, steps, s) && id in s.held && CanCommit(s.w.t, id)
    requires s.w.t.crafts[id].recipe in services && s.w.t.waits == {}
    ensures Gets(book, services, plan, goals, steps, manner, s, s', Direct(services, s.w.t.crafts[id].recipe))
    ensures OthersStay(s.w.t, s'.w.t, id)
    ensures !Direct(services, s.w.t.crafts[id].recipe) ==> id in s'.w.t.crafts && s'.w.t.crafts[id].status.Committed?
  {
    s' := StartedCode(book, services, s, id);
    StartIsStep(book, services, plan, s, id);
    StartedFacts(book, services, s, id);
    StartedStay(book, services, s, id);
    hide *;
    GetsByMove(book, services, plan, goals, steps, manner, s, Start(id), s');
  }

  lemma StartedStatus(services: Services, t: Tables, id: int, r: Recipe, n: int)
    requires id in t.crafts && t.crafts[id].recipe in services && !Direct(services, t.crafts[id].recipe)
    ensures var t' := Started(services, t, id, r, n); id in t'.crafts && t'.crafts[id].status.Committed?
  {
  }

  lemma NoWaits(services: Services, t: Tables)
    requires WaitsMatch(services, t) && AllPending(t)
    ensures t.waits == {}
  {
    if w :| w in t.waits {
      assert false;
    }
  }

  /** With everything home the inputs of a craft of the last active step are stored. */
  lemma LastCraftStored(book: Book, services: Services, plan: int, goals: seq<Stack>, steps: seq<Planner.Step>,
                        s: Code, b: nat, id: int)
    requires AtWork(book, services, plan, goals, steps, s) && Home(s) && AllPending(s.w.t)
    requires ProducersLater(steps) && CatalystsKept(goals, steps) && b < |steps| && NothingAfter(plan, steps, b, s.w.t)
    requires id in s.w.t.crafts && s.w.t.crafts[id].recipe == steps[b].recipe.id
    ensures Served(book, services, s.w.t.crafts[id].recipe) && InputsStored(book, services, s, id)
  {
    CraftFacts(book, services, plan, goals, steps, s, id);
    var c, r := s.w.t.crafts[id], steps[b].recipe;
    var n := CraftBatch.Min(c.repeats, Batch(book, services, c.recipe).value);
    BatchBounds(book, services, c.recipe, c.repeats);
    assert RecipeOf(book, c.recipe) == r;
    hide AtWork, Inv, Home, Batch, CraftBatch.Min, Intake, NothingAfter, ProducersLater, CatalystsKept, WaitsMatch,
      HiredMatches;
    forall u | Intake(r, u) > 0 ensures Intake(r, u) * n <= Get(s.stored, u) {
      LastCraftHasInputs(book, plan, goals, steps, s.w, b, id, n, u);
      HomeIsStored(book, services, plan, goals, steps, s, u);
    }
  }

  /** The inputs of every pending craft are in stock, where its catalysts are nobody's ingredients. */
  lemma CraftHasInputs(book: Book, plan: int, goals: seq<Stack>, steps: seq<Planner.Step>, w: World, id: int, n: int,
                       u: Uid)
    requires Going(book, plan, goals, steps, w) && id in w.t.crafts && Uncontested(steps, w.t.crafts[id].recipe)
    requires w.t.crafts[id].status.Pending? && 1 <= n <= w.t.crafts[id].repeats
    requires RecipeOf(book, w.t.crafts[id].recipe).catalysts != [] ==> n == 1
    ensures Intake(RecipeOf(book, w.t.crafts[id].recipe), u) * n <= Get(w.phys, u)
  {
    var r := RecipeOf(book, w.t.crafts[id].recipe);
    assert CatalystsHeld(book, plan, w.t, id);
    assert AmountOf(r.catalysts, u) <= AmountIn(w.t, plan, u);
    assert GoodBook(book) && PositiveAmounts(r.catalysts);
    assert ItemInv(book, plan, goals, steps, w, u);
    ReserveSplits(book, plan, w.t, u);
    hide Going, ItemInv, Sum, CraftShare, AmountIn, Intake, CatalystsHeld, AllCatalystsHeld, Uncontested;
    CraftsShare(book, w.t, id, n, u);
    CatalystShare(r, n, u);
  }

  /** With everything home, such a craft waits for nothing that another one has or makes. */
  lemma AnyCraftStored(book: Book, services: Services, plan: int, goals: seq<Stack>, steps: seq<Planner.Step>,
                       s: Code, id: int)
    requires AtWork(book, services, plan, goals, steps, s) && Home(s) && AllPending(s.w.t)
    requires id in s.w.t.crafts && Uncontested(steps, s.w.t.crafts[id].recipe)
    ensures Served(book, services, s.w.t.crafts[id].recipe) && InputsStored(book, services, s, id)
  {
    CraftFacts(book, services, plan, goals, steps, s, id);
    InvParts(book, services, plan, goals, steps, s);
    var c := s.w.t.crafts[id];
    var n := CraftBatch.Min(c.repeats, Batch(book, services, c.recipe).value);
    BatchBounds(book, services, c.recipe, c.repeats);
    hide AtWork, Inv, Home, Batch, CraftBatch.Min, Intake, WaitsMatch, HiredMatches, Going, Orderly, Placed,
      Uncontested, RecipeOf;
    forall u | Intake(RecipeOf(book, c.recipe), u) > 0
      ensures Intake(RecipeOf(book, c.recipe), u) * n <= Get(s.stored, u)
    {
      CraftHasInputs(book, plan, goals, steps, s.w, id, n, u);
      HomeIsStored(book, services, plan, goals, steps, s, u);
    }
  }

  /** What was stored for the craft still is, and it is still the one in turn. */
  lemma HiredRows(book: Book, services: Services, s: Code, id: int, worker: string, s': Code)
    requires Home(s) && AllPending(s.w.t) && id in s.w.t.crafts && s.w.t.crafts[id].recipe in services
    requires Batch(book, services, s.w.t.crafts[id].recipe).Some? && InputsStored(book, services, s, id)
    requires Hired(services, s, id, worker, s')
    ensures Home(s') && AllPending(s'.w.t) && id in s'.w.t.crafts && s'.w.t.crafts[id].status.Pending?
    ensures s'.w.t.crafts[id].recipe == s.w.t.crafts[id].recipe && InputsStored(book, services, s', id)
    ensures services[s'.w.t.crafts[id].recipe].Crafting? ==> s'.w.t.crafts[id].worker.Some?
    ensures Foremost(services, s.w.t, id, worker) ==> InTurn(services, s'.w.t, Export(id))
  {
    hide Batch, Intake, RecipeOf, Foremost, InTurn;
    assert s'.w.t.crafts[id] == s.w.t.crafts[id].(worker := s'.w.t.crafts[id].worker);
  }

  lemma MayExport(book: Book, services: Services, plan: int, goals: seq<Stack>, steps: seq<Planner.Step>, s: Code,
                  id: int)
    requires AtWork(book, services, plan, goals, steps, s) && Home(s) && AllPending(s.w.t) && id in s.w.t.crafts
    requires Served(book, services, s.w.t.crafts[id].recipe) && InputsStored(book, services, s, id)
    requires services[s.w.t.crafts[id].recipe].Crafting? ==> s.w.t.crafts[id].worker.Some?
    ensures CanExport(book, services, s, id) && CanCommit(s.w.t, id)
  {
    CraftFacts(book, services, plan, goals, steps, s, id);
    hide AtWork, Inv, Batch, InputsStored, WaitsMatch, HiredMatches;
    assert id !in s.held;
  }

  lemma HiredStay(services: Services, s: Code, id: int, worker: string, s': Code)
    requires id in s.w.t.crafts && s.w.t.crafts[id].recipe in services && Hired(services, s, id, worker, s')
    ensures OthersStay(s.w.t, s'.w.t, id)
  {
    hide Foremost, InTurn;
  }

  lemma OthersStayOn(t: Tables, mid: Tables, t': Tables, id: int)
    requires OthersStay(t, mid, id) && OthersStay(mid, t', id)
    ensures OthersStay(t, t', id)
  {
  }

  /** With everything home and no craft committed, a craft with its inputs stored can be run for a batch. */
  lemma RunCraft(book: Book, services: Services, plan: int, goals: seq<Stack>, steps: seq<Planner.Step>,
                 manner: Manner, s: Code, id: int, worker: string)
    returns (s': Code)
    requires AtWork(book, services, plan, goals, steps, s) && Home(s) && AllPending(s.w.t) && id in s.w.t.crafts
    requires Served(book, services, s.w.t.crafts[id].recipe) && InputsStored(book, services, s, id)
    requires services[s.w.t.crafts[id].recipe].Crafting? && s.w.t.crafts[id].worker.None? ==>
      Employs(services, s.w.t.crafts[id].recipe, worker)
    requires manner.anyTurn || Foremost(services, s.w.t, id, worker)
    ensures Gets(book, services, plan, goals, steps, manner, s, s', true) && OthersStay(s.w.t, s'.w.t, id)
  {
    CraftFacts(book, services, plan, goals, steps, s, id);
    assert Batch(book, services, s.w.t.crafts[id].recipe).Some?;
    var hired := HireOne(book, services, plan, goals, steps, manner, s, id, worker);
    hide AtWork, Gets, Home, AllPending, Inv, CanExport, CanCommit, Direct, Served, WaitsMatch, HiredMatches,
      InputsStored, Hired, Foremost, InTurn, Batch, Employs, OthersStay;
    HiredRows(book, services, s, id, worker, hired);
    HiredStay(services, s, id, worker, hired);
    GetsFacts(book, services, plan, goals, steps, manner, s, hired, false);
    MayExport(book, services, plan, goals, steps, hired, id);
    var exported := ExportOne(book, services, plan, goals, steps, manner, hired, id);
    GetsJoins(book, services, plan, goals, steps, manner, s, hired, exported, false, false);
    GetsFacts(book, services, plan, goals, steps, manner, s, exported, false);
    CraftFacts(book, services, plan, goals, steps, exported, id);
    NoWaits(services, exported.w.t);
    var started := StartOne(book, services, plan, goals, steps, manner, exported, id);
    var direct := Direct(services, exported.w.t.crafts[id].recipe);
    GetsJoins(book, services, plan, goals, steps, manner, s, exported, started, false, direct);
    OthersStayOn(s.w.t, exported.w.t, started.w.t, id);
    if direct {
      s' := started;
    } else {
      GetsFacts(book, services, plan, goals, steps, manner, s, started, direct);
      s' := FinishOne(book, services, plan, goals, steps, manner, started, id);
      GetsJoins(book, services, plan, goals, steps, manner, s, started, s', false, true);
      OthersStayOn(s.w.t, started.w.t, s'.w.t, id);
    }
  }

  // ---------------------------------------------------------------- topping up

  ghost predicate ItemTopped(plan: int, w: World, u: Uid) {
    ItemKey(plan, u) in w.t.items && Short(w.t.items[ItemKey(plan, u)]) ==> Get(w.phys, u) <= Get(w.t.reserve, u)
  }

  /** The tables after the plan's row takes what it lacks from what is free. */
  function Topped(t: Tables, plan: int, u: Uid, count: int): Tables {
    var k := ItemKey(plan, u);
    if count <= Get(t.reserve, u) || k !in t.items || !Short(t.items[k]) then t
    else
      var row := t.items[k];
      var given := Min(row.required - row.amount, count - Get(t.reserve, u));
      t.(items := t.items[k := Row(row.amount + given, row.required)],
        reserve := t.reserve[u := Get(t.reserve, u) + given])
  }

  /** What a topped-up row takes, its plan holds more, and the reserve with it. */
  lemma ToppedShare(t: Tables, plan: int, u: Uid, count: int)
    requires ItemKey(plan, u) in t.items
    ensures var t' := Topped(t, plan, u, count);
      Get(t'.reserve, u) - Get(t.reserve, u) == Sum(PlanShare(t', u)) - Sum(PlanShare(t, u))
  {
    var k, t' := ItemKey(plan, u), Topped(t, plan, u, count);
    assert PlanShare(t', u) == PlanShare(t, u)[k := t'.items[k].amount];
    hide Sum;
    RowWritten(t, t', k, t'.items[k].amount);
  }

  lemma ToppedAllocates(t: Tables, plan: int, u: Uid, count: int)
    requires forall k :: k in t.items ==> k.plan == plan
    ensures Allocates(t, Topped(t, plan, u, count), u, count)
  {
    hide Sum, PlanShare;
    assert forall j :: j in t.items && j.uid == u ==> j == ItemKey(plan, u);
    if ItemKey(plan, u) in t.items {
      ToppedShare(t, plan, u, count);
    }
  }

  /** All the stock is stored. */
  ghost predicate AllStored(s: Code) {
    forall u :: Get(s.stored, u) == Get(s.w.phys, u)
  }

  lemma PlanFactsNow(book: Book, services: Services, plan: int, goals: seq<Stack>, steps: seq<Planner.Step>, s: Code)
    requires AtWork(book, services, plan, goals, steps, s)
    ensures forall k :: k in s.w.t.items ==> k.plan == plan && k.uid in s.w.t.reserve
    ensures Inv(book, plan, goals, steps, s.w) && GoodBook(book)
  {
  }

  lemma ToppedFacts(plan: int, w: World, u: Uid)
    ensures var w' := World(Topped(w.t, plan, u, Get(w.phys, u)), w.phys);
      && w'.t.crafts == w.t.crafts && w'.t.steps == w.t.steps && ItemTopped(plan, w', u)
      && (forall v :: v != u ==> (ItemTopped(plan, w', v) <==> ItemTopped(plan, w, v)))
      && (!ItemTopped(plan, w, u) ==> w'.t.items != w.t.items)
  {
    var k, w' := ItemKey(plan, u), World(Topped(w.t, plan, u, Get(w.phys, u)), w.phys);
    if !ItemTopped(plan, w, u) {
      assert w'.t.items[k].amount != w.t.items[k].amount;
    }
  }

  lemma ReportIsStep(book: Book, services: Services, plan: int, s: Code, u: Uid, s': Code)
    requires ReportStep(s, u, s')
    ensures CodeStep(book, services, plan, s, Report(u), s') && !CodeWorks(services, s, Report(u), s')
  {
    hide ReportStep;
  }

  lemma StoredStays(s: Code, s': Code)
    requires AllStored(s) && s'.stored == s.stored && s'.w.phys == s.w.phys
    ensures AllStored(s')
  {
  }

  /** The state after a report of all that is stored of an item. */
  function Reported(plan: int, s: Code, u: Uid): Code {
    var t' := Topped(s.w.t, plan, u, Get(s.stored, u));
    s.(w := World(t', s.w.phys), dirty := s.dirty || t'.items != s.w.t.items)
  }

  lemma ReportedFacts(plan: int, s: Code, u: Uid)
    requires AllStored(s)
    ensures var s' := Reported(plan, s, u);
      && AllStored(s') && s'.w.t.crafts == s.w.t.crafts && s'.w.t.steps == s.w.t.steps
      && s'.held == s.held && s'.results == s.results
      && ItemTopped(plan, s'.w, u) && (forall v :: v != u ==> (ItemTopped(plan, s'.w, v) <==> ItemTopped(plan, s.w, v)))
      && (s.dirty ==> s'.dirty) && (!ItemTopped(plan, s.w, u) ==> s'.dirty)
  {
    ToppedFacts(plan, s.w, u);
    StoredStays(s, Reported(plan, s, u));
    assert Get(s.stored, u) == Get(s.w.phys, u);
    hide ItemTopped, Topped, AllStored;
  }

  lemma ReportedIsStep(book: Book, services: Services, plan: int, s: Code, u: Uid)
    requires (forall k :: k in s.w.t.items ==> k.plan == plan) && u in s.w.t.reserve
      && Get(s.stored, u) > Get(s.w.t.reserve, u)
    ensures CodeStep(book, services, plan, s, Report(u), Reported(plan, s, u))
  {
    ToppedAllocates(s.w.t, plan, u, Get(s.stored, u));
    hide Topped, Allocates;
    ReportIsStep(book, services, plan, s, u, Reported(plan, s, u));
  }

  /** An update pass that finds more of an item than is reserved tops it up and leaves the others alone. */
  ghost predicate TopsUpOne(plan: int, s: Code, u: Uid, s': Code) {
    && s'.w.t.crafts == s.w.t.crafts && s'.w.t.steps == s.w.t.steps && s'.held == s.held && s'.results == s.results
    && ItemTopped(plan, s'.w, u) && (forall v :: v != u ==> (ItemTopped(plan, s'.w, v) <==> ItemTopped(plan, s.w, v)))
    && (s.dirty ==> s'.dirty) && (!ItemTopped(plan, s.w, u) ==> s'.dirty)
  }

  lemma ReportedTopsUp(plan: int, s: Code, u: Uid)
    requires AllStored(s)
    ensures TopsUpOne(plan, s, u, Reported(plan, s, u)) && AllStored(Reported(plan, s, u))
  {
    ReportedFacts(plan, s, u);
    hide Reported, ItemTopped, AllStored;
  }

  lemma NothingToReport(plan: int, s: Code, u: Uid)
    requires AllStored(s) && (forall k :: k in s.w.t.items ==> k.uid in s.w.t.reserve)
    requires !(u in s.w.t.reserve && Get(s.stored, u) > Get(s.w.t.reserve, u))
    ensures TopsUpOne(plan, s, u, s)
  {
    assert Get(s.stored, u) == Get(s.w.phys, u);
  }

  lemma ReportOne(book: Book, services: Services, plan: int, goals: seq<Stack>, steps: seq<Planner.Step>,
                  manner: Manner, s: Code, u: Uid) returns (s': Code)
    requires AtWork(book, services, plan, goals, steps, s) && AllStored(s)
    ensures Gets(book, services, plan, goals, steps, manner, s, s', false) && AllStored(s') && TopsUpOne(plan, s, u, s')
  {
    PlanFactsNow(book, services, plan, goals, steps, s);
    hide *;
    if u in s.w.t.reserve && Get(s.stored, u) > Get(s.w.t.reserve, u) {
      s' := Reported(plan, s, u);
      ReportedTopsUp(plan, s, u);
      ReportedIsStep(book, services, plan, s, u);
      ReportAllowed(manner, services, s, u);
      GetsByMove(book, services, plan, goals, steps, manner, s, Report(u), s');
      GetsWeakens(book, services, plan, goals, steps, manner, s, s', CodeWorks(services, s, Report(u), s'));
    } else {
      s' := s;
      NothingToReport(plan, s, u);
      GetsSelf(book, services, plan, goals, steps, manner, s);
    }
  }

  lemma ReportAllowed(manner: Manner, services: Services, s: Code, u: Uid)
    ensures Allowed(manner, services, s, Report(u))
  {
  }

  /** Item by item, every short item gets topped up; the pass has changed the plan if one was not. */
  lemma {:induction false} ReportAll(book: Book, services: Services, plan: int, goals: seq<Stack>,
      steps: seq<Planner.Step>, manner: Manner, s: Code, todo: set<Uid>) returns (s': Code)
    requires AtWork(book, services, plan, goals, steps, s) && AllStored(s)
    requires forall u :: u !in todo ==> ItemTopped(plan, s.w, u)
    ensures Gets(book, services, plan, goals, steps, manner, s, s', false) && AllStored(s') && ToppedUp(plan, s'.w)
    ensures s'.w.t.crafts == s.w.t.crafts && s'.w.t.steps == s.w.t.steps && s'.held == s.held && s'.results == s.results
    ensures s.dirty || (exists u :: !ItemTopped(plan, s.w, u)) ==> s'.dirty
    decreases |todo|
  {
    hide AtWork, Gets, ItemTopped, AllStored, ToppedUp;
    if todo == {} {
      s' := s;
      GetsSelf(book, services, plan, goals, steps, manner, s);
      AllTopped(plan, s.w);
    } else {
      var u :| u in todo;
      var mid := ReportOne(book, services, plan, goals, steps, manner, s, u);
      GetsFacts(book, services, plan, goals, steps, manner, s, mid, false);
      s' := ReportAll(book, services, plan, goals, steps, manner, mid, todo - {u});
      GetsOnly(book, services, plan, goals, steps, manner, s, mid, s', false, false);
    }
  }

  lemma AllTopped(plan: int, w: World)
    requires forall u :: ItemTopped(plan, w, u)
    ensures ToppedUp(plan, w)
  {
    forall u | ItemKey(plan, u) in w.t.items && Short(w.t.items[ItemKey(plan, u)])
      ensures Get(w.phys, u) <= Get(w.t.reserve, u) {
      assert ItemTopped(plan, w, u);
    }
  }

  lemma RowsBound(plan: int, w: World)
    ensures forall u :: u !in (set k | k in w.t.items :: k.uid) ==> ItemTopped(plan, w, u)
  {
    forall u | ItemKey(plan, u) in w.t.items ensures u in set k | k in w.t.items :: k.uid {
      assert ItemKey(plan, u).uid == u;
    }
  }

  // ---------------------------------------------------------------- checking

  /** The step rows in the order of the plan. */
  function Listed(plan: int, t: Tables, steps: seq<Planner.Step>): (listed: seq<PlanStep>)
    requires forall i :: 0 <= i < |steps| ==> StepKey(plan, steps[i].recipe.id) in t.steps
    ensures |listed| == |steps| && forall i :: 0 <= i < |steps| ==> listed[i] == RowOf(plan, t, steps[i])
  {
    seq(|steps|, i requires 0 <= i < |steps| => RowOf(plan, t, steps[i]))
  }

  lemma StepsAreRows(book: Book, plan: int, steps: seq<Planner.Step>, t: Tables)
    requires OnePlan(book, plan, steps, t)
    ensures forall i :: 0 <= i < |steps| ==> StepKey(plan, steps[i].recipe.id) in t.steps
  {
  }

  lemma ListedIsFresh(book: Book, plan: int, steps: seq<Planner.Step>, t: Tables)
    requires OnePlan(book, plan, steps, t) && DistinctIds(steps)
    requires forall i :: 0 <= i < |steps| ==> StepKey(plan, steps[i].recipe.id) in t.steps
    ensures Fresh(book, t, plan, Listed(plan, t, steps)) && Lists(plan, t, Listed(plan, t, steps))
  {
    var listed := Listed(plan, t, steps);
    forall i | 0 <= i < |listed| ensures FreshStep(book, t, plan, listed[i]) {
      assert RecipeOf(book, steps[i].recipe.id) == steps[i].recipe && steps[i].recipe.id in book;
    }
    forall k | k in t.steps && k.plan == plan ensures exists i :: 0 <= i < |listed| && listed[i].recipe == k.recipe {
      var i :| 0 <= i < |steps| && steps[i].recipe.id == k.recipe;
      assert listed[i].recipe == k.recipe;
    }
  }

  lemma WalkIsStep(book: Book, services: Services, plan: int, s: Code, pinged: bool, listed: seq<PlanStep>,
                   trace: seq<Tables>, t': Tables)
    requires (pinged || s.dirty) && Lists(plan, s.w.t, listed) && Fresh(book, s.w.t, plan, listed)
    requires Checked(book, s.w.t, plan, listed, trace, t')
    ensures CodeStep(book, services, plan, s, Walk(pinged, listed, trace),
              s.(w := World(t', s.w.phys), dirty := pinged && s.dirty))
  {
    hide Checked, Fresh, Lists;
  }

  lemma WalkWorks(services: Services, s: Code, pinged: bool, listed: seq<PlanStep>, trace: seq<Tables>, s': Code)
    requires s.w.t.crafts.Keys < s'.w.t.crafts.Keys
    ensures CodeWorks(services, s, Walk(pinged, listed, trace), s')
  {
  }

  lemma StepsListed(book: Book, services: Services, plan: int, goals: seq<Stack>, steps: seq<Planner.Step>, s: Code,
                    b: nat) returns (listed: seq<PlanStep>)
    requires AtWork(book, services, plan, goals, steps, s) && b < |steps|
      && StepKey(plan, steps[b].recipe.id) in s.w.t.steps
    ensures Fresh(book, s.w.t, plan, listed) && Lists(plan, s.w.t, listed) && GoodBook(book)
    ensures RowOf(plan, s.w.t, steps[b]) in listed
  {
    PlanFactsNow(book, services, plan, goals, steps, s);
    InvIsOnePlan(book, plan, goals, steps, s.w);
    StepsAreRows(book, plan, steps, s.w.t);
    assert DistinctIds(steps);
    hide AtWork, Inv, GoodBook, OnePlan, Fresh, Lists;
    listed := Listed(plan, s.w.t, steps);
    assert listed[b] == RowOf(plan, s.w.t, steps[b]);
    ListedIsFresh(book, plan, steps, s.w.t);
  }

  /** The plan can be checked, by hand or after an update pass that changed it; a step that can submit does. */
  lemma CheckNow(book: Book, services: Services, plan: int, goals: seq<Stack>, steps: seq<Planner.Step>,
                 manner: Manner, s: Code, b: nat)
    returns (s': Code)
    requires AtWork(book, services, plan, goals, steps, s) && (manner.pings || s.dirty) && b < |steps|
    requires StepKey(plan, steps[b].recipe.id) in s.w.t.steps
      && CanSubmit(book, s.w.t, plan, RowOf(plan, s.w.t, steps[b]))
    ensures s.w.t.crafts.Keys < s'.w.t.crafts.Keys
    ensures Gets(book, services, plan, goals, steps, manner, s, s', true)
  {
    hide *;
    var listed := StepsListed(book, services, plan, goals, steps, s, b);
    var trace, t' := CheckExists(book, s.w.t, plan, listed);
    CheckSubmitsIff(book, s.w.t, plan, listed, trace, t');
    var m := Walk(manner.pings, listed, trace);
    s' := s.(w := World(t', s.w.phys), dirty := manner.pings && s.dirty);
    WalkIsStep(book, services, plan, s, manner.pings, listed, trace, t');
    WalkAllowed(manner, services, s, listed, trace);
    WalkWorks(services, s, manner.pings, listed, trace, s');
    GetsByMove(book, services, plan, goals, steps, manner, s, m, s');
  }

  lemma WalkAllowed(manner: Manner, services: Services, s: Code, listed: seq<PlanStep>, trace: seq<Tables>)
    ensures Allowed(manner, services, s, Walk(manner.pings, listed, trace))
  {
  }

  // ---------------------------------------------------------------- the end

  /** Nothing is left to submit or to finish. */
  ghost predicate NothingLeft(plan: int, steps: seq<Planner.Step>, t: Tables) {
    t.crafts == map[] && !Unfinished(plan, steps, t)
  }

  /** Nothing is left to do, everything is imported, and the goals and the kept catalysts are stored. */
  ghost predicate CodeFinished(plan: int, goals: seq<Stack>, steps: seq<Planner.Step>, s: Code) {
    NothingLeft(plan, steps, s.w.t) && Home(s) && forall u :: Get(s.stored, u) >= GoalOf(goals, u) + Held(steps, u)
  }

  /** With nothing left to do the goals are in storage or still to be imported; imported, they are in storage. */
  lemma StoredHoldsGoals(book: Book, services: Services, plan: int, goals: seq<Stack>, steps: seq<Planner.Step>,
                         s: Code, u: Uid)
    requires CodeInv(book, services, plan, goals, steps, s) && NothingLeft(plan, steps, s.w.t)
    ensures Get(s.stored, u) + Get(s.results, u) >= GoalOf(goals, u) + Held(steps, u)
  {
    FinishedHoldsGoals(book, plan, goals, steps, s.w, u);
    assert PlacedItem(book, s, u);
    SumZero(Lent(book, s.w.t, s.held, u));
  }

  /** The last step with repeats left or crafts under way. */
  lemma {:induction false} LastActive(book: Book, plan: int, steps: seq<Planner.Step>, t: Tables, n: nat)
    returns (b: nat)
    requires Valid(book, t) && OnePlan(book, plan, steps, t) && n <= |steps| && NothingAfter(plan, steps, n - 1, t)
    requires !NothingLeft(plan, steps, t)
    ensures b < |steps| && NothingAfter(plan, steps, b, t) && StepKey(plan, steps[b].recipe.id) in t.steps
    ensures t.steps[StepKey(plan, steps[b].recipe.id)] > 0
      || exists c :: c in t.crafts && t.crafts[c].recipe == steps[b].recipe.id
  {
    StepsAreRows(book, plan, steps, t);
    hide OnePlan, Balanced;
    b := 0;
    if n == 0 {
      NoneActive(plan, steps, t);
      assert false;
    } else {
      b := n - 1;
      var k := StepKey(plan, steps[b].recipe.id);
      if t.steps[k] <= 0 && !exists c :: c in t.crafts && t.crafts[c].recipe == steps[b].recipe.id {
        assert CraftsUpTo(steps, b - 1, t) by {
          forall c | c in t.crafts
            ensures exists a :: 0 <= a <= b - 1 && a < |steps| && steps[a].recipe.id == t.crafts[c].recipe
          {
            var a :| 0 <= a <= b && a < |steps| && steps[a].recipe.id == t.crafts[c].recipe;
            assert a != b;
          }
        }
        b := LastActive(book, plan, steps, t, n - 1);
      }
    }
  }

  lemma NoneActive(plan: int, steps: seq<Planner.Step>, t: Tables)
    requires NothingAfter(plan, steps, -1, t)
    ensures NothingLeft(plan, steps, t)
  {
    if t.crafts != map[] {
      var c := SomeKey(t.crafts);
    }
  }

  lemma AnyCommitted(t: Tables) returns (id: int)
    requires !AllPending(t)
    ensures id in t.crafts && t.crafts[id].status.Committed?
  {
    id :| id in t.crafts && !t.crafts[id].status.Pending?;
  }

  lemma NothingBeyond(book: Book, services: Services, plan: int, goals: seq<Stack>, steps: seq<Planner.Step>, s: Code)
    requires AtWork(book, services, plan, goals, steps, s)
    ensures Valid(book, s.w.t) && OnePlan(book, plan, steps, s.w.t) && NothingAfter(plan, steps, |steps| - 1, s.w.t)
  {
    hide Valid, OnePlan, Orderly, Placed;
    forall c | c in s.w.t.crafts
      ensures exists a :: 0 <= a <= |steps| - 1 && a < |steps| && steps[a].recipe.id == s.w.t.crafts[c].recipe
    {
      var a :| 0 <= a <= |steps| && a < |steps| && steps[a].recipe.id == s.w.t.crafts[c].recipe;
      assert a <= |steps| - 1;
    }
  }

  /** The last active step without a craft under way gets one from the next check. */
  lemma SubmitLast(book: Book, services: Services, plan: int, goals: seq<Stack>, steps: seq<Planner.Step>,
                   manner: Manner, s: Code, b: nat)
    returns (s': Code)
    requires AtWork(book, services, plan, goals, steps, s) && AllStored(s)
    requires manner.pings || s.dirty || exists u :: !ItemTopped(plan, s.w, u)
    requires ProducersLater(steps) && CatalystsKept(goals, steps) && b < |steps| && NothingAfter(plan, steps, b, s.w.t)
    requires StepKey(plan, steps[b].recipe.id) in s.w.t.steps && s.w.t.steps[StepKey(plan, steps[b].recipe.id)] > 0
    ensures Gets(book, services, plan, goals, steps, manner, s, s', true) && s.w.t.crafts.Keys < s'.w.t.crafts.Keys
  {
    RowsBound(plan, s.w);
    var topped := ReportAll(book, services, plan, goals, steps, manner, s, set k | k in s.w.t.items :: k.uid);
    SameNothingAfter(plan, steps, b, s.w.t, topped.w.t);
    hide AtWork, Gets, AllStored, ProducersLater, CatalystsKept, Inv, ToppedUp, ItemTopped, GoodBook;
    GetsFacts(book, services, plan, goals, steps, manner, s, topped, false);
    PlanFactsNow(book, services, plan, goals, steps, topped);
    StepsAreRows(book, plan, steps, topped.w.t) by { InvIsOnePlan(book, plan, goals, steps, topped.w); }
    LastStepFits(book, plan, goals, steps, topped.w, b);
    hide NothingAfter, CanSubmit;
    s' := CheckNow(book, services, plan, goals, steps, manner, topped, b);
    GetsJoins(book, services, plan, goals, steps, manner, s, topped, s', false, true);
  }

  /** If a lively plan waits for no check, some item is not topped up. */
  lemma LivelyLacks(book: Book, services: Services, plan: int, goals: seq<Stack>, steps: seq<Planner.Step>, s: Code,
                    b: nat)
    requires AtWork(book, services, plan, goals, steps, s) && Lively(book, plan, s) && !s.dirty
    requires ProducersLater(steps) && CatalystsKept(goals, steps) && b < |steps| && NothingAfter(plan, steps, b, s.w.t)
    requires StepKey(plan, steps[b].recipe.id) in s.w.t.steps && s.w.t.steps[StepKey(plan, steps[b].recipe.id)] > 0
    ensures exists u :: !ItemTopped(plan, s.w, u)
  {
    PlanFactsNow(book, services, plan, goals, steps, s);
    InvIsOnePlan(book, plan, goals, steps, s.w);
    StepsAreRows(book, plan, steps, s.w.t);
    assert NothingFits(book, plan, s.w.t, steps[b].recipe.id);
    if forall u :: ItemTopped(plan, s.w, u) {
      AllTopped(plan, s.w);
      hide AtWork, Inv, ToppedUp, ItemTopped, GoodBook, ProducersLater, CatalystsKept, OnePlan, Fits;
      LastStepFits(book, plan, goals, steps, s.w, b);
      assert false;
    }
  }

  lemma InvIsOnePlan(book: Book, plan: int, goals: seq<Stack>, steps: seq<Planner.Step>, w: World)
    requires Inv(book, plan, goals, steps, w)
    ensures OnePlan(book, plan, steps, w.t)
  {
  }

  lemma SameNothingAfter(plan: int, steps: seq<Planner.Step>, b: int, t: Tables, t': Tables)
    requires NothingAfter(plan, steps, b, t) && t'.crafts == t.crafts && t'.steps == t.steps
    ensures NothingAfter(plan, steps, b, t')
  {
  }

  /** In turn, a queue that holds the last active step's crafts has one first that can be run. */
  lemma FirstCanRun(book: Book, services: Services, plan: int, goals: seq<Stack>, steps: seq<Planner.Step>, s: Code,
                    b: nat, c: int) returns (id: int, worker: string)
    requires AtWork(book, services, plan, goals, steps, s) && Home(s) && AllPending(s.w.t) && QueueSafe(services, steps)
    requires ProducersLater(steps) && CatalystsKept(goals, steps) && b < |steps| && NothingAfter(plan, steps, b, s.w.t)
    requires c in s.w.t.crafts && s.w.t.crafts[c].recipe == steps[b].recipe.id
    ensures id in s.w.t.crafts && Foremost(services, s.w.t, id, worker)
    ensures Served(book, services, s.w.t.crafts[id].recipe) && InputsStored(book, services, s, id)
  {
    CraftsServed(book, services, plan, goals, steps, s);
    CraftIsServed(book, services, plan, goals, steps, s, c);
    hide AtWork, Home, AllPending, ProducersLater, CatalystsKept, NothingAfter, HiredMatches, Batch, Uncontested,
      InputsStored;
    id, worker := SomeForemost(services, s.w.t, c);
    if s.w.t.crafts[id].recipe == steps[b].recipe.id {
      LastCraftStored(book, services, plan, goals, steps, s, b, id);
    } else {
      var a := StepOfCraft(book, services, plan, goals, steps, s, id);
      SharesBack(services, steps[b].recipe.id, steps[a].recipe.id);
      AnyCraftStored(book, services, plan, goals, steps, s, id);
    }
  }

  lemma SharesBack(services: Services, a: int, b: int)
    requires Shares(services, a, b)
    ensures Shares(services, b, a)
  {
    if services[a].Crafting? {
      assert services[a].clients * services[b].clients == services[b].clients * services[a].clients;
    }
  }

  lemma StepOfCraft(book: Book, services: Services, plan: int, goals: seq<Stack>, steps: seq<Planner.Step>, s: Code,
                    id: int) returns (a: nat)
    requires AtWork(book, services, plan, goals, steps, s) && id in s.w.t.crafts
    ensures a < |steps| && steps[a].recipe.id == s.w.t.crafts[id].recipe
  {
    a :| 0 <= a <= |steps| && a < |steps| && steps[a].recipe.id == s.w.t.crafts[id].recipe;
  }

  /** With no craft committed and everything home, a craft of the last active step, or of its queue, can be run. */
  lemma RunLast(book: Book, services: Services, plan: int, goals: seq<Stack>, steps: seq<Planner.Step>,
                manner: Manner, s: Code, b: nat, c: int) returns (s': Code)
    requires AtWork(book, services, plan, goals, steps, s) && Home(s) && AllPending(s.w.t)
    requires manner.anyTurn || QueueSafe(services, steps)
    requires ProducersLater(steps) && CatalystsKept(goals, steps) && b < |steps| && NothingAfter(plan, steps, b, s.w.t)
    requires c in s.w.t.crafts && s.w.t.crafts[c].recipe == steps[b].recipe.id
    ensures Gets(book, services, plan, goals, steps, manner, s, s', true)
  {
    CraftsServed(book, services, plan, goals, steps, s);
    CraftIsServed(book, services, plan, goals, steps, s, c);
    hide AtWork, Gets, ProducersLater, CatalystsKept, AllPending, NothingAfter, Home, QueueSafe, InputsStored,
      HiredMatches, Batch, InTurn;
    if manner.anyTurn {
      LastCraftStored(book, services, plan, goals, steps, s, b, c);
      var worker := "";
      if services[s.w.t.crafts[c].recipe].Crafting? {
        worker := SomeClient(services, s.w.t, c);
      }
      s' := RunCraft(book, services, plan, goals, steps, manner, s, c, worker);
    } else {
      var id, worker := FirstCanRun(book, services, plan, goals, steps, s, b, c);
      s' := RunCraft(book, services, plan, goals, steps, manner, s, id, worker);
    }
  }

  /** With no craft committed and everything home, some craft can be run, or a check submits one. */
  lemma WorkAtHome(book: Book, services: Services, plan: int, goals: seq<Stack>, steps: seq<Planner.Step>,
                   manner: Manner, home: Code)
    returns (s': Code)
    requires AtWork(book, services, plan, goals, steps, home) && ProducersLater(steps) && CatalystsKept(goals, steps)
    requires manner.anyTurn || QueueSafe(services, steps)
    requires manner.pings || Lively(book, plan, home)
    requires !NothingLeft(plan, steps, home.w.t) && Home(home) && AllPending(home.w.t)
    ensures Gets(book, services, plan, goals, steps, manner, home, s', true)
  {
    NothingBeyond(book, services, plan, goals, steps, home);
    var b := LastActive(book, plan, steps, home.w.t, |steps|);
    hide AtWork, Gets, ProducersLater, CatalystsKept, AllPending, NothingLeft, NothingAfter, AllStored, Home, Valid,
      OnePlan, Lively, QueueSafe, ItemTopped;
    if c :| c in home.w.t.crafts && home.w.t.crafts[c].recipe == steps[b].recipe.id {
      s' := RunLast(book, services, plan, goals, steps, manner, home, b, c);
    } else {
      HomeAllStored(book, services, plan, goals, steps, home);
      if !manner.pings && !home.dirty {
        LivelyLacks(book, services, plan, goals, steps, home, b);
      }
      s' := SubmitLast(book, services, plan, goals, steps, manner, home, b);
    }
  }

  lemma CraftsServed(book: Book, services: Services, plan: int, goals: seq<Stack>, steps: seq<Planner.Step>, s: Code)
    requires AtWork(book, services, plan, goals, steps, s)
    ensures HiredMatches(services, s.w.t) && forall c :: c in s.w.t.crafts ==> s.w.t.crafts[c].recipe in services
  {
    forall c | c in s.w.t.crafts ensures s.w.t.crafts[c].recipe in services {
      CraftIsServed(book, services, plan, goals, steps, s, c);
    }
  }

  /** While something is left to do, the server can do some of it. */
  lemma WorkOn(book: Book, services: Services, plan: int, goals: seq<Stack>, steps: seq<Planner.Step>,
               manner: Manner, s: Code)
    returns (s': Code)
    requires AtWork(book, services, plan, goals, steps, s) && ProducersLater(steps) && CatalystsKept(goals, steps)
    requires manner.anyTurn || QueueSafe(services, steps)
    requires manner.pings || Lively(book, plan, s)
    requires !NothingLeft(plan, steps, s.w.t)
    ensures Gets(book, services, plan, goals, steps, manner, s, s', true)
  {
    hide AtWork, Gets, ProducersLater, CatalystsKept, AllPending, NothingLeft, Home, Lively, QueueSafe;
    if AllPending(s.w.t) {
      var home := BringHome(book, services, plan, goals, steps, manner, s);
      GetsFacts(book, services, plan, goals, steps, manner, s, home, false);
      s' := WorkAtHome(book, services, plan, goals, steps, manner, home);
      GetsJoins(book, services, plan, goals, steps, manner, s, home, s', false, true);
    } else {
      var id := AnyCommitted(s.w.t);
      s' := FinishOne(book, services, plan, goals, steps, manner, s, id);
    }
  }

  lemma HomeAllStored(book: Book, services: Services, plan: int, goals: seq<Stack>, steps: seq<Planner.Step>, s: Code)
    requires AtWork(book, services, plan, goals, steps, s) && Home(s) && AllPending(s.w.t)
    ensures AllStored(s)
  {
    hide AtWork;
    forall u ensures Get(s.stored, u) == Get(s.w.phys, u) {
      HomeIsStored(book, services, plan, goals, steps, s, u);
    }
  }

  lemma EndsFinished(book: Book, services: Services, plan: int, goals: seq<Stack>, steps: seq<Planner.Step>, s: Code)
    requires AtWork(book, services, plan, goals, steps, s) && Home(s) && NothingLeft(plan, steps, s.w.t)
    ensures CodeFinished(plan, goals, steps, s)
  {
    hide CodeInv, NothingLeft, Held, GoalOf;
    forall u ensures Get(s.stored, u) >= GoalOf(goals, u) + Held(steps, u) {
      StoredHoldsGoals(book, services, plan, goals, steps, s, u);
    }
  }

  /**
    From every state of the invariant the server can bring the plan to its end, with the goals
    stored and without a delivery: taking crafts in turn where the queues are safe, and
    without a ping once a check has left nothing that fits.
   */
  lemma {:induction false} RunsToTheEnd(book: Book, services: Services, plan: int, goals: seq<Stack>,
      steps: seq<Planner.Step>, manner: Manner, s: Code)
    returns (s': Code)
    requires AtWork(book, services, plan, goals, steps, s) && ProducersLater(steps) && CatalystsKept(goals, steps)
      && Rank(s.w.t) >= 0
    requires manner.anyTurn || QueueSafe(services, steps)
    requires manner.pings || Lively(book, plan, s)
    ensures CodeReach(book, services, plan, manner, s, s') && CodeFinished(plan, goals, steps, s')
    decreases Rank(s.w.t)
  {
    hide AtWork, Gets, ProducersLater, CatalystsKept, NothingLeft, Home, CodeFinished, CodeReach, Rank, Lively,
      QueueSafe;
    if NothingLeft(plan, steps, s.w.t) {
      s' := BringHome(book, services, plan, goals, steps, manner, s);
      GetsFacts(book, services, plan, goals, steps, manner, s, s', false);
      EndsFinished(book, services, plan, goals, steps, s');
    } else {
      var next := WorkOn(book, services, plan, goals, steps, manner, s);
      GetsFacts(book, services, plan, goals, steps, manner, s, next, true);
      s' := RunsToTheEnd(book, services, plan, goals, steps, manner, next);
      CodeReachJoins(book, services, plan, manner, s, next, s');
    }
  }

  // ---------------------------------------------------------------- from the planner to the end

  /** The server right after an accepted plan was written: no crafts, and at least the planned stock in storage. */
  ghost predicate JustWritten(plan: int, goals: seq<Stack>, storage: map<Uid, int>, steps: seq<Planner.Step>,
                              planSteps: seq<PlanStep>, s: Code) {
    && PlanWritten(EmptyTables, s.w.t, plan, goals, storage, steps, planSteps)
    && s.held == map[] && s.w.phys == s.stored && (forall u :: Get(s.results, u) == 0)
    && forall u :: Get(s.stored, u) >= Get(storage, u)
  }

  lemma WrittenTables(plan: int, rows: map<Uid, Row>, stepRows: map<int, int>)
    ensures var t := AfterInsertPlan(EmptyTables, plan, rows, stepRows);
      && t.items == PlanRows(plan, rows) && t.steps == PlanSteps(plan, stepRows) && t.reserve.Keys == rows.Keys
      && t.crafts == map[] && t.waits == {}
  {
    hide PlanRows, PlanSteps;
  }

  lemma WrittenRows(plan: int, goals: seq<Stack>, storage: map<Uid, int>, steps: seq<Planner.Step>,
                    planSteps: seq<PlanStep>, t: Tables)
    requires PlanWritten(EmptyTables, t, plan, goals, storage, steps, planSteps)
    ensures t.crafts == map[] && t.waits == {} && RowsReserved(t)
    ensures forall i :: 0 <= i < |steps| ==>
      StepKey(plan, steps[i].recipe.id) in t.steps && t.steps[StepKey(plan, steps[i].recipe.id)] == steps[i].repeats
  {
    hide IsItemRows, IsStepRows, AfterInsertPlan;
    var rows, stepRows :| IsItemRows(goals, storage, steps, rows) && IsStepRows(steps, planSteps, stepRows)
      && t == AfterInsertPlan(EmptyTables, plan, rows, stepRows);
    WrittenTables(plan, rows, stepRows);
    forall i | 0 <= i < |steps|
      ensures StepKey(plan, steps[i].recipe.id) in t.steps
        && t.steps[StepKey(plan, steps[i].recipe.id)] == steps[i].repeats
    {
      StepRowWritten(steps, planSteps, stepRows, i);
      assert StepKey(plan, steps[i].recipe.id).recipe in stepRows;
    }
  }

  lemma StepRowWritten(steps: seq<Planner.Step>, planSteps: seq<PlanStep>, stepRows: map<int, int>, i: nat)
    requires IsStepRows(steps, planSteps, stepRows) && i < |steps|
    ensures steps[i].recipe.id in stepRows && stepRows[steps[i].recipe.id] == steps[i].repeats
  {
  }

  lemma StartsPlaced(book: Book, s: Code)
    requires s.w.t.crafts == map[] && s.w.phys == s.stored && forall u ::
      Get(s.results, u) == 0 && Get(s.stored, u) >= 0
    ensures Placed(book, s)
  {
    forall u ensures PlacedItem(book, s, u) {
      SumZero(Lent(book, s.w.t, s.held, u));
    }
  }

  lemma NoCraftsOrderly(book: Book, services: Services, plan: int, steps: seq<Planner.Step>, s: Code)
    requires s.w.t.crafts == map[] && s.w.t.waits == {} && s.held == map[]
    ensures Orderly(book, services, s) && CraftsUpTo(steps, |steps|, s.w.t)
    ensures AllCatalystsHeld(book, plan, steps, s.w.t)
  {
  }

  lemma PartsMakeInv(book: Book, services: Services, plan: int, goals: seq<Stack>, steps: seq<Planner.Step>, s: Code)
    requires Inv(book, plan, goals, steps, s.w) && CraftsUpTo(steps, |steps|, s.w.t) && RowsReserved(s.w.t)
    requires Orderly(book, services, s) && Placed(book, s) && AllCatalystsHeld(book, plan, steps, s.w.t)
    ensures CodeInv(book, services, plan, goals, steps, s)
  {
  }

  /** The server's invariant holds when a plan has just been written. */
  lemma WrittenInv(book: Book, services: Services, plan: int, goals: seq<Stack>, storage: map<Uid, int>,
                   steps: seq<Planner.Step>, planSteps: seq<PlanStep>, s: Code)
    requires JustWritten(plan, goals, storage, steps, planSteps, s) && Inv(book, plan, goals, steps, s.w)
      && NonNegative(storage)
    ensures CodeInv(book, services, plan, goals, steps, s)
  {
    hide PlanWritten, Inv;
    WrittenRows(plan, goals, storage, steps, planSteps, s.w.t);
    forall u ensures Get(s.results, u) == 0 && Get(s.stored, u) >= 0 {
      assert Get(storage, u) >= 0 && Get(s.stored, u) >= Get(storage, u);
    }
    hide *;
    NoCraftsOrderly(book, services, plan, steps, s);
    StartsPlaced(book, s);
    PartsMakeInv(book, services, plan, goals, steps, s);
  }

  /** Without deliveries, and with every craft in turn where the queues are safe. */
  ghost function Orders(pings: bool, services: Services, steps: seq<Planner.Step>): Manner {
    Manner(pings, false, !QueueSafe(services, steps))
  }

  /**
    Take any plan the planner makes from single-result recipes that list no catalyst twice, and
    that covers every item, where each recipe has a machine that takes at least one repeat of it at
    a time. From every state of every run of the server, however that run went, the server can
    bring the plan to its end without a delivery: nothing left to submit, finish or import, and the
    goals in storage. Where the queues are safe it takes every craft in turn.
   */
  lemma EveryPlanCanFinish(book: Book, services: Services, table: seq<Recipe>, goals: seq<Stack>,
                           storage: map<Uid, int>, plan: Plan, choice: map<Uid, Recipe>, counts: seq<int>,
                           planSteps: seq<PlanStep>, id: int, states: seq<Code>, moves: seq<CodeMove>, n: nat)
                           returns (end: Code)
    requires IsPlan(goals, storage, table, plan, choice, counts) && SingleResults(table) && TableBook(table, book)
      && GoodBook(book)
    requires forall r :: r in table ==> DistinctUids(r.catalysts)
    requires forall i :: 0 <= i < |goals| ==> goals[i].count >= 0
    requires NonNegative(storage) && AllCovered(goals, storage, plan.steps) && AllServed(book, services, plan.steps)
    requires IsCodeRun(book, services, id, states, moves) && n < |states|
    requires JustWritten(id, goals, storage, plan.steps, planSteps, states[0])
    ensures CodeReach(book, services, id, Orders(true, services, plan.steps), states[n], end)
      && CodeFinished(id, goals, plan.steps, end)
  {
    assert |states| > 0;
    PlanStarts(book, table, goals, storage, plan, choice, counts, planSteps, id, states[0].w);
    PlanIds(book, table, goals, storage, plan, choice, counts);
    WrittenInv(book, services, id, goals, storage, plan.steps, planSteps, states[0]);
    assert Orders(true, services, plan.steps).anyTurn || QueueSafe(services, plan.steps);
    assert Orders(true, services, plan.steps).pings;
    hide *;
    CodeRunOnward(book, services, id, goals, plan.steps, states, moves, n);
    AtWorkFrom(book, services, id, goals, plan.steps, states[n]);
    end := RunsToTheEnd(book, services, id, goals, plan.steps, Orders(true, services, plan.steps), states[n]);
  }

  lemma StepKeepsOnce(book: Book, services: Services, plan: int, s: Code, m: CodeMove, s': Code)
    requires GoodBook(book) && AtMostOnce(book, plan, s.w.t) && CodeStep(book, services, plan, s, m, s')
    ensures AtMostOnce(book, plan, s'.w.t)
    ensures m.Walk? ==> Lively(book, plan, s')
  {
    hide GoodBook, AtMostOnce, WalkStep, ReportStep, StartStep, FinishStep, PutBackStep, ExportStep, NoStepFits;
    match m
    case Walk(pinged, listed, trace) => CheckedLively(book, plan, s, pinged, listed, trace, s');
    case Report(u) =>
      ReportedSteps(s, u, s');
      SameStepsAtMostOnce(book, plan, s.w.t, s'.w.t);
    case Forget => SameStepsAtMostOnce(book, plan, s.w.t, s'.w.t);
    case _ =>
      QuietRows(book, services, plan, s, m, s');
      SameStepsAtMostOnce(book, plan, s.w.t, s'.w.t);
  }

  lemma ReportedSteps(s: Code, u: Uid, s': Code)
    requires ReportStep(s, u, s')
    ensures s'.w.t.steps == s.w.t.steps
  {
    hide Allocates;
    AllocateRows(s.w.t, s'.w.t, u, Get(s.stored, u));
  }

  /** From a check on, a run in which no update pass is cut short stays lively. */
  lemma {:induction false} RunKeepsLively(book: Book, services: Services, plan: int, states: seq<Code>,
                                          moves: seq<CodeMove>, k: nat, n: nat)
    requires IsCodeRun(book, services, plan, states, moves) && n < |states| && k < |moves|
    requires GoodBook(book) && AtMostOnce(book, plan, states[0].w.t)
    requires moves[k].Walk? && forall i :: k <= i < |moves| ==> !moves[i].Forget?
    ensures AtMostOnce(book, plan, states[n].w.t) && (k < n ==> Lively(book, plan, states[n]))
  {
    hide *;
    if n > 0 {
      RunStep(book, services, plan, states, moves, n);
      RunKeepsLively(book, services, plan, states, moves, k, n - 1);
      StepKeepsOnce(book, services, plan, states[n - 1], moves[n - 1], states[n]);
      if k < n - 1 {
        StepKeepsLively(book, services, plan, states[n - 1], moves[n - 1], states[n]);
      }
    }
  }

  lemma WrittenOnce(book: Book, plan: int, goals: seq<Stack>, storage: map<Uid, int>, steps: seq<Planner.Step>,
                    planSteps: seq<PlanStep>, t: Tables)
    requires PlanWritten(EmptyTables, t, plan, goals, storage, steps, planSteps) && OnePlan(book, plan, steps, t)
    requires forall i :: 0 <= i < |steps| && steps[i].recipe.catalysts != [] ==> steps[i].repeats <= 1
    ensures AtMostOnce(book, plan, t)
  {
    hide PlanWritten, RowsReserved;
    WrittenRows(plan, goals, storage, steps, planSteps, t);
    forall k | k in t.steps && k.plan == plan && RecipeOf(book, k.recipe).catalysts != [] ensures t.steps[k] <= 1 {
      var i :| 0 <= i < |steps| && steps[i].recipe.id == k.recipe;
      assert k == StepKey(plan, steps[i].recipe.id) && RecipeOf(book, k.recipe) == steps[i].recipe;
    }
  }

  /**
    Accepting a plan checks it once. If no step with catalysts has more than one repeat, the plan
    never needs a ping from then on: however the run went after some check, as long as no update
    pass was cut short between its reports and its check, the server can bring the plan to its end
    by itself, without a ping or a delivery.
   */
  lemma NeverNeedsAPing(book: Book, services: Services, table: seq<Recipe>, goals: seq<Stack>,
                        storage: map<Uid, int>, plan: Plan, choice: map<Uid, Recipe>, counts: seq<int>,
                        planSteps: seq<PlanStep>, id: int, states: seq<Code>, moves: seq<CodeMove>, k: nat, n: nat)
                        returns (end: Code)
    requires IsPlan(goals, storage, table, plan, choice, counts) && SingleResults(table) && TableBook(table, book)
      && GoodBook(book)
    requires forall r :: r in table ==> DistinctUids(r.catalysts)
    requires forall i :: 0 <= i < |goals| ==> goals[i].count >= 0
    requires NonNegative(storage) && AllCovered(goals, storage, plan.steps) && AllServed(book, services, plan.steps)
    requires forall i :: 0 <= i < |plan.steps| && plan.steps[i].recipe.catalysts != [] ==> plan.steps[i].repeats <= 1
    requires IsCodeRun(book, services, id, states, moves) && k < n < |states|
    requires JustWritten(id, goals, storage, plan.steps, planSteps, states[0])
    requires moves[k].Walk? && forall i :: k <= i < |moves| ==> !moves[i].Forget?
    ensures CodeReach(book, services, id, Orders(false, services, plan.steps), states[n], end)
      && CodeFinished(id, goals, plan.steps, end)
  {
    assert |states| == |moves| + 1;
    PlanStarts(book, table, goals, storage, plan, choice, counts, planSteps, id, states[0].w);
    PlanIds(book, table, goals, storage, plan, choice, counts);
    WrittenInv(book, services, id, goals, storage, plan.steps, planSteps, states[0]);
    assert OnePlan(book, id, plan.steps, states[0].w.t);
    assert PlanWritten(EmptyTables, states[0].w.t, id, goals, storage, plan.steps, planSteps);
    assert Orders(false, services, plan.steps).anyTurn || QueueSafe(services, plan.steps);
    hide *;
    WrittenOnce(book, id, goals, storage, plan.steps, planSteps, states[0].w.t);
    RunKeepsLively(book, services, id, states, moves, k, n);
    CodeRunOnward(book, services, id, goals, plan.steps, states, moves, n);
    AtWorkFrom(book, services, id, goals, plan.steps, states[n]);
    end := RunsToTheEnd(book, services, id, goals, plan.steps, Orders(false, services, plan.steps), states[n]);
  }

  lemma AtWorkFrom(book: Book, services: Services, plan: int, goals: seq<Stack>, steps: seq<Planner.Step>, s: Code)
    requires CodeInv(book, services, plan, goals, steps, s) && AllServed(book, services, steps) && DistinctIds(steps)
    ensures AtWork(book, services, plan, goals, steps, s) && Rank(s.w.t) >= 0
  {
    InvParts(book, services, plan, goals, steps, s);
    RankNonNegative(book, s.w.t);
  }

  /** The planner's steps have distinct recipe ids. */
  lemma PlanIds(book: Book, table: seq<Recipe>, goals: seq<Stack>, storage: map<Uid, int>, plan: Plan,
                choice: map<Uid, Recipe>, counts: seq<int>)
    requires IsPlan(goals, storage, table, plan, choice, counts) && TableBook(table, book)
    ensures DistinctIds(plan.steps)
  {
    PlanFacts(goals, storage, table, plan, choice, counts);
    hide IsPlan;
    StepIdsDistinct(book, table, Closure(table, GoalUids(goals)), plan.steps);
  }

  // ---------------------------------------------------------------- without pings

  /** Nothing under way, everything imported, no update pass in progress, and something left to submit. */
  ghost predicate Idle(plan: int, steps: seq<Planner.Step>, s: Code) {
    s.w.t.crafts == map[] && Unfinished(plan, steps, s.w.t) && Home(s) && !s.dirty
  }

  /** The plan lacks some of an item of which more is stored than reserved. */
  ghost predicate SomethingFree(plan: int, s: Code) {
    exists u ::
      ItemKey(plan, u) in s.w.t.items && Short(s.w.t.items[ItemKey(plan, u)])
        && Get(s.stored, u) > Get(s.w.t.reserve, u)
  }

  /** What an idle plan that finds nothing free stays at. */
  ghost predicate Still(s: Code, s': Code) {
    && s'.w.t.crafts == map[] && s'.w.t.items == s.w.t.items && !s'.dirty
    && forall u ::
        Get(s'.w.t.reserve, u) == Get(s.w.t.reserve, u) && Get(s'.stored, u) == Get(s.stored, u)
          && Get(s'.results, u) == 0
  }

  lemma ReportStaysStill(plan: int, s: Code, now: Code, u: Uid, s': Code)
    requires Still(s, now) && !SomethingFree(plan, s) && (forall k :: k in s.w.t.items ==> k.plan == plan)
      && ReportStep(now, u, s')
    ensures Still(s, s')
  {
    var t, t' := now.w.t, s'.w.t;
    forall k | k in t.items && k.uid == u ensures !Short(t.items[k]) {
      assert k == ItemKey(plan, u);
    }
    assert t'.items == t.items;
    assert PlanShare(t', u) == PlanShare(t, u);
    hide Sum, PlanShare;
  }

  lemma MoveStaysStill(book: Book, services: Services, plan: int, s: Code, now: Code, m: CodeMove, s': Code)
    requires Still(s, now) && !SomethingFree(plan, s) && forall k :: k in s.w.t.items ==> k.plan == plan
    requires Allowed(UNAIDED, services, now, m) && CodeStep(book, services, plan, now, m, s')
    ensures Still(s, s')
  {
    hide SomethingFree, Checked, Fresh, Lists, Allocates;
    if m.Report? {
      ReportStaysStill(plan, s, now, m.uid, s');
    }
  }

  lemma {:induction false} RunStaysStill(book: Book, services: Services, plan: int, s: Code, states: seq<Code>,
      moves: seq<CodeMove>, n: nat)
    requires IsCodeRun(book, services, plan, states, moves) && n <= |moves| && Still(s, states[0])
    requires forall i :: 0 <= i < |moves| ==> Allowed(UNAIDED, services, states[i], moves[i])
    requires !SomethingFree(plan, s) && forall k :: k in s.w.t.items ==> k.plan == plan
    ensures Still(s, states[n])
  {
    if n > 0 {
      hide Still, SomethingFree, CodeStep, Allowed;
      RunStaysStill(book, services, plan, s, states, moves, n - 1);
      assert CodeStep(book, services, plan, states[n - 1], moves[n - 1], states[n - 1 + 1]);
      MoveStaysStill(book, services, plan, s, states[n - 1], moves[n - 1], states[n]);
    }
  }

  /**
    The update pass checks a plan only when it changed one of its rows. An idle plan with repeats
    left therefore submits anything more without a ping or a delivery if and only if it lacks some
    of an item of which more is stored than reserved; a ping would submit something in any case.
   */
  lemma IdlePlanGoesOnIff(book: Book, services: Services, plan: int, goals: seq<Stack>, steps: seq<Planner.Step>,
                          s: Code)
    requires AtWork(book, services, plan, goals, steps, s) && ProducersLater(steps) && CatalystsKept(goals, steps)
      && Idle(plan, steps, s)
    ensures (exists s' :: CodeReach(book, services, plan, UNAIDED, s, s') && s'.w.t.crafts != map[]) <==>
      SomethingFree(plan, s)
    ensures exists s' :: CodeReach(book, services, plan, IN_TURN, s, s') && s'.w.t.crafts != map[]
  {
    assert AllPending(s.w.t);
    HomeAllStored(book, services, plan, goals, steps, s);
    NothingBeyond(book, services, plan, goals, steps, s);
    assert !NothingLeft(plan, steps, s.w.t);
    var b := LastActive(book, plan, steps, s.w.t, |steps|);
    PlanFactsNow(book, services, plan, goals, steps, s);
    assert Still(s, s);
    FreeIsNotTopped(plan, s);
    hide AtWork, ProducersLater, CatalystsKept, Inv, GoodBook, NothingAfter, ItemTopped, AllStored, CodeReach, Still,
      SomethingFree, Valid, OnePlan, Gets;
    var pinged := SubmitLast(book, services, plan, goals, steps, IN_TURN, s, b);
    GetsFacts(book, services, plan, goals, steps, IN_TURN, s, pinged, true);
    if SomethingFree(plan, s) {
      var next := SubmitLast(book, services, plan, goals, steps, UNAIDED, s, b);
      GetsFacts(book, services, plan, goals, steps, UNAIDED, s, next, true);
    } else {
      forall s' | CodeReach(book, services, plan, UNAIDED, s, s') ensures s'.w.t.crafts == map[] {
        ReachStaysStill(book, services, plan, s, s');
      }
    }
  }

  lemma FreeIsNotTopped(plan: int, s: Code)
    requires AllStored(s)
    ensures SomethingFree(plan, s) ==> exists u :: !ItemTopped(plan, s.w, u)
  {
    if SomethingFree(plan, s) {
      var u :|
        && ItemKey(plan, u) in s.w.t.items && Short(s.w.t.items[ItemKey(plan, u)])
        && Get(s.stored, u) > Get(s.w.t.reserve, u);
      assert Get(s.stored, u) == Get(s.w.phys, u);
      assert !ItemTopped(plan, s.w, u);
    }
  }

  lemma ReachStaysStill(book: Book, services: Services, plan: int, s: Code, s': Code)
    requires CodeReach(book, services, plan, UNAIDED, s, s') && Still(s, s)
    requires !SomethingFree(plan, s) && forall k :: k in s.w.t.items ==> k.plan == plan
    ensures s'.w.t.crafts == map[]
  {
    hide SomethingFree, IsCodeRun;
    var states, moves :| CodeLeads(book, services, plan, UNAIDED, s, states, moves, s');
    assert |states| == |moves| + 1 by { RunLength(book, services, plan, states, moves); }
    RunStaysStill(book, services, plan, s, states, moves, |moves|);
  }

  lemma RunLength(book: Book, services: Services, plan: int, states: seq<Code>, moves: seq<CodeMove>)
    requires IsCodeRun(book, services, plan, states, moves)
    ensures |states| == |moves| + 1
  {
  }
}
