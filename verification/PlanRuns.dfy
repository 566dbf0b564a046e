/** Runs of one accepted plan together with the physical stock: what every move keeps. */
module PlanRuns {
  import opened Recipes
  import opened Planner
  import opened Sums
  import opened Ledger
  import opened LedgerInvariant
  import opened LedgerRuns
  import opened Scheduler

  /** The tables beside the items physically in storage; lent catalysts count as in storage. */
  datatype World = World(t: Tables, phys: map<Uid, int>)

  datatype Move = Ledger(e: Event) | Deposit(uid: Uid, n: int)

  function Yield(r: Recipe, u: Uid, n: int): int {
    AmountOf(r.results, u) * n
  }

  ghost predicate Taken(book: Book, w: World, w': World, id: int, n: int) {
    id in w.t.crafts && forall u ::
      Get(w'.phys, u) == Get(w.phys, u) - Need(RecipeOf(book, w.t.crafts[id].recipe), u, n)
  }

  ghost predicate Returned(book: Book, w: World, w': World, id: int) {
    id in w.t.crafts && forall u ::
      Get(w'.phys, u) == Get(w.phys, u) + Yield(RecipeOf(book, w.t.crafts[id].recipe), u, w.t.crafts[id].committed)
  }

  /**
    One move in the life of the only plan: a submission that fits, a count report of no more
    than what is there, a commit that takes its ingredients out, a completion that brings its
    results in, bookkeeping, or a delivery from outside.
   */
  ghost predicate Step(book: Book, plan: int, w: World, m: Move, w': World) {
    match m
    case Deposit(u, n) => n >= 0 && w' == World(w.t, w.phys[u := Get(w.phys, u) + n])
    case Ledger(e) =>
      && Next(book, w.t, e, w'.t)
      && match e
         case InsertCraft(id, p, recipe, n) =>
           p == plan && w'.phys == w.phys && Fits(w.t, plan, book[recipe], w.t.steps[StepKey(plan, recipe)], n)
         case Assign(id, worker) => w'.phys == w.phys
         case Commit(id, n) => Taken(book, w, w', id, n)
         case CommitAndWait(id, worker) => Taken(book, w, w', id, 1)
         case Complete(id) => Returned(book, w, w', id)
         case CompleteWait(id, worker) => Returned(book, w, w', id)
         case Cleanup(p) => w'.phys == w.phys
         case UpdateCount(u, count) => count <= Get(w.phys, u) && w'.phys == w.phys
         case InsertPlan(_, _, _) => false
         case RemovePlan(_) => false
         case Cancel(_, _) => false
  }

  ghost predicate IsPlanRun(book: Book, plan: int, worlds: seq<World>, moves: seq<Move>) {
    && |worlds| == |moves| + 1
    && forall i :: 0 <= i < |moves| ==> Step(book, plan, worlds[i], moves[i], worlds[i + 1])
  }

  // ---------------------------------------------------------------- sums over steps and crafts

  ghost function StepUse(book: Book, t: Tables, u: Uid): map<StepKey, int> {
    map k | k in t.steps :: Need(RecipeOf(book, k.recipe), u, t.steps[k])
  }

  ghost function StepYield(book: Book, t: Tables, u: Uid): map<StepKey, int> {
    map k | k in t.steps :: Yield(RecipeOf(book, k.recipe), u, t.steps[k])
  }

  ghost function CraftYield(book: Book, t: Tables, u: Uid): map<int, int> {
    map c | c in t.crafts :: Yield(RecipeOf(book, t.crafts[c].recipe), u, t.crafts[c].repeats)
  }

  function RequiredIn(t: Tables, plan: int, u: Uid): int {
    if ItemKey(plan, u) in t.items then t.items[ItemKey(plan, u)].required else 0
  }

  /** What stays required of an item until the plan ends: its goal and the borrowed catalysts. */
  function Base(goals: seq<Stack>, steps: seq<Planner.Step>, u: Uid): int {
    GoalOf(goals, u) + Held(steps, u)
  }

  /** What is in storage, and what all remaining and submitted repeats will still add and take. */
  ghost function Outlook(book: Book, w: World, u: Uid): int {
    Get(w.phys, u) + Sum(StepYield(book, w.t, u)) + Sum(CraftYield(book, w.t, u))
      - Sum(StepUse(book, w.t, u)) - Sum(CraftShare(book, w.t, u))
  }

  /** The tables belong to the plan alone, with one step row for each of its steps. */
  ghost predicate OnePlan(book: Book, plan: int, steps: seq<Planner.Step>, t: Tables) {
    && (forall k :: k in t.items ==> k.plan == plan)
    && (forall k :: k in t.steps <==> k.plan == plan && exists i :: 0 <= i < |steps| && steps[i].recipe.id == k.recipe)
    && (forall i :: 0 <= i < |steps| ==>
        RecipeOf(book, steps[i].recipe.id) == steps[i].recipe && steps[i].recipe.id in book)
  }

  ghost predicate Inv(book: Book, plan: int, goals: seq<Stack>, steps: seq<Planner.Step>, w: World) {
    && Valid(book, w.t) && OnePlan(book, plan, steps, w.t)
    && forall u :: ItemInv(book, plan, goals, steps, w, u)
  }

  /** The plan requires exactly what is left to do; that work keeps the item covered; reserves are backed. */
  ghost predicate ItemInv(book: Book, plan: int, goals: seq<Stack>, steps: seq<Planner.Step>, w: World, u: Uid) {
    && RequiredIn(w.t, plan, u) == Base(goals, steps, u) + Sum(StepUse(book, w.t, u))
    && Outlook(book, w, u) >= Base(goals, steps, u)
    && Get(w.t.reserve, u) <= Get(w.phys, u)
  }

  lemma StepUseWritten(book: Book, t: Tables, t': Tables, k: StepKey, v: int, u: Uid)
    requires k in t.steps && t'.steps == t.steps[k := v]
    ensures Sum(StepUse(book, t', u)) == Sum(StepUse(book, t, u)) + Need(RecipeOf(book, k.recipe), u, v)
      - Need(RecipeOf(book, k.recipe), u, t.steps[k])
  {
    hide Need, RecipeOf, Sum;
    var need := Need(RecipeOf(book, k.recipe), u, v);
    assert StepUse(book, t', u) == StepUse(book, t, u)[k := need];
    SumUpdate(StepUse(book, t, u), k, need);
  }

  lemma StepYieldWritten(book: Book, t: Tables, t': Tables, k: StepKey, v: int, u: Uid)
    requires k in t.steps && t'.steps == t.steps[k := v]
    ensures Sum(StepYield(book, t', u)) == Sum(StepYield(book, t, u)) + Yield(RecipeOf(book, k.recipe), u, v)
      - Yield(RecipeOf(book, k.recipe), u, t.steps[k])
  {
    hide Yield, RecipeOf, Sum;
    var gain := Yield(RecipeOf(book, k.recipe), u, v);
    assert StepYield(book, t', u) == StepYield(book, t, u)[k := gain];
    SumUpdate(StepYield(book, t, u), k, gain);
  }

  /** The effect on an item's craft sums of writing craft row `id`. */
  lemma CraftRowWritten(book: Book, t: Tables, t': Tables, id: int, c: Craft, u: Uid)
    requires t'.crafts == t.crafts[id := c]
    ensures Sum(CraftYield(book, t', u)) == Sum(CraftYield(book, t, u)) + Yield(RecipeOf(book, c.recipe), u, c.repeats)
      - if id in t.crafts then Yield(RecipeOf(book, t.crafts[id].recipe), u, t.crafts[id].repeats) else 0
    ensures Sum(CraftShare(book, t', u)) == Sum(CraftShare(book, t, u)) + Need(RecipeOf(book, c.recipe), u, Open(c))
      - if id in t.crafts then Need(RecipeOf(book, t.crafts[id].recipe), u, Open(t.crafts[id])) else 0
  {
    var r := RecipeOf(book, c.recipe);
    assert CraftYield(book, t', u) == CraftYield(book, t, u)[id := Yield(r, u, c.repeats)];
    SumUpdate(CraftYield(book, t, u), id, Yield(r, u, c.repeats));
    assert CraftShare(book, t', u) == CraftShare(book, t, u)[id := Need(r, u, Open(c))];
    SumUpdate(CraftShare(book, t, u), id, Need(r, u, Open(c)));
  }

  lemma CraftRowDeleted(book: Book, t: Tables, t': Tables, id: int, u: Uid)
    requires id in t.crafts && t'.crafts == t.crafts - {id}
    ensures Sum(CraftYield(book, t', u)) == Sum(CraftYield(book, t, u))
      - Yield(RecipeOf(book, t.crafts[id].recipe), u, t.crafts[id].repeats)
    ensures Sum(CraftShare(book, t', u)) == Sum(CraftShare(book, t, u))
      - Need(RecipeOf(book, t.crafts[id].recipe), u, Open(t.crafts[id]))
  {
    assert CraftYield(book, t', u) == CraftYield(book, t, u) - {id};
    SumRemove(CraftYield(book, t, u), id);
    assert CraftShare(book, t', u) == CraftShare(book, t, u) - {id};
    SumRemove(CraftShare(book, t, u), id);
  }

  lemma Distributes(a: int, n: int, m: int)
    ensures a * (n + m) == a * n + a * m && a * (n - m) == a * n - a * m && a * 0 == 0
  {
  }

  // ---------------------------------------------------------------- every move keeps the invariant

  predicate SameWork(a: Craft, b: Craft) {
    a.recipe == b.recipe && a.repeats == b.repeats && a.committed == b.committed
  }

  /** Sums depend on the step and craft rows alone. */
  lemma SameSums(book: Book, t: Tables, t': Tables, u: Uid)
    requires t'.steps == t.steps && t'.crafts.Keys == t.crafts.Keys
    requires forall c :: c in t.crafts ==> SameWork(t.crafts[c], t'.crafts[c])
    ensures Sum(StepUse(book, t', u)) == Sum(StepUse(book, t, u))
      && Sum(StepYield(book, t', u)) == Sum(StepYield(book, t, u))
    ensures Sum(CraftYield(book, t', u)) == Sum(CraftYield(book, t, u))
      && Sum(CraftShare(book, t', u)) == Sum(CraftShare(book, t, u))
  {
    assert StepUse(book, t', u) == StepUse(book, t, u);
    assert StepYield(book, t', u) == StepYield(book, t, u);
    forall c | c in t.crafts
      ensures CraftYield(book, t', u)[c] == CraftYield(book, t, u)[c]
        && CraftShare(book, t', u)[c] == CraftShare(book, t, u)[c] {
      assert SameWork(t.crafts[c], t'.crafts[c]);
    }
    assert CraftYield(book, t', u) == CraftYield(book, t, u);
    assert CraftShare(book, t', u) == CraftShare(book, t, u);
  }

  /** Everything a move changes about an item, as differences. */
  ghost predicate Shifts(book: Book, plan: int, w: World, w': World, u: Uid, required: int, phys: int, use: int,
                         planned: int, crafting: int, share: int, reserve: int) {
    && RequiredIn(w'.t, plan, u) == RequiredIn(w.t, plan, u) + required
    && Get(w'.phys, u) == Get(w.phys, u) + phys
    && Sum(StepUse(book, w'.t, u)) == Sum(StepUse(book, w.t, u)) + use
    && Sum(StepYield(book, w'.t, u)) == Sum(StepYield(book, w.t, u)) + planned
    && Sum(CraftYield(book, w'.t, u)) == Sum(CraftYield(book, w.t, u)) + crafting
    && Sum(CraftShare(book, w'.t, u)) == Sum(CraftShare(book, w.t, u)) + share
    && Get(w'.t.reserve, u) == Get(w.t.reserve, u) + reserve
  }

  lemma ShiftKeepsItem(book: Book, plan: int, goals: seq<Stack>, steps: seq<Planner.Step>, w: World, w': World, u: Uid,
                       required: int, phys: int, use: int, planned: int, crafting: int, share: int, reserve: int)
    requires ItemInv(book, plan, goals, steps, w, u)
    requires Shifts(book, plan, w, w', u, required, phys, use, planned, crafting, share, reserve)
    requires required == use && reserve <= phys && phys + planned + crafting - use - share >= 0
    ensures ItemInv(book, plan, goals, steps, w', u)
  {
    hide RequiredIn, Get, Sum, StepUse, StepYield, CraftYield, CraftShare, Base;
  }

  lemma SubmitKeepsItem(book: Book, plan: int, goals: seq<Stack>, steps: seq<Planner.Step>,
                        w: World, id: int, recipe: int, n: int, w': World, u: Uid)
    requires ItemInv(book, plan, goals, steps, w, u) && recipe in book && book[recipe].id == recipe && id !in w.t.crafts
    requires CanInsertCraft(w.t, plan, book[recipe], n)
    requires w' == World(AfterInsertCraft(w.t, id, plan, book[recipe], n), w.phys)
    ensures ItemInv(book, plan, goals, steps, w', u)
  {
    var r := book[recipe];
    SpendRequired(w.t, w'.t, plan, r, n, u);
    hide ItemInv, CanInsertCraft, Sum, AmountOf, StepUse, StepYield, CraftYield, CraftShare, Need, Yield, RequiredIn,
      Spend, Get;
    StepLowered(book, w.t, w'.t, StepKey(plan, recipe), n, u);
    CraftAdded(book, w.t, w'.t, id, Craft(plan, recipe, None, Pending, n, 0), u);
    var need, gain := Need(r, u, n), Yield(r, u, n);
    assert w'.t.reserve == w.t.reserve && w'.phys == w.phys;
    ShiftKeepsItem(book, plan, goals, steps, w, w', u, -need, 0, -need, -gain, gain, need, 0);
  }

  lemma StepLowered(book: Book, t: Tables, t': Tables, k: StepKey, n: int, u: Uid)
    requires k in t.steps && t'.steps == t.steps[k := t.steps[k] - n]
    ensures Sum(StepUse(book, t', u)) == Sum(StepUse(book, t, u)) - Need(RecipeOf(book, k.recipe), u, n)
    ensures Sum(StepYield(book, t', u)) == Sum(StepYield(book, t, u)) - Yield(RecipeOf(book, k.recipe), u, n)
  {
    hide Sum, StepUse, StepYield, Need, Yield, RecipeOf;
    StepUseWritten(book, t, t', k, t.steps[k] - n, u);
    StepYieldWritten(book, t, t', k, t.steps[k] - n, u);
    NeedSplits(RecipeOf(book, k.recipe), u, t.steps[k], n);
  }

  lemma CraftAdded(book: Book, t: Tables, t': Tables, id: int, c: Craft, u: Uid)
    requires id !in t.crafts && t'.crafts == t.crafts[id := c] && c.committed == 0
    ensures Sum(CraftYield(book, t', u)) == Sum(CraftYield(book, t, u)) + Yield(RecipeOf(book, c.recipe), u, c.repeats)
    ensures Sum(CraftShare(book, t', u)) == Sum(CraftShare(book, t, u)) + Need(RecipeOf(book, c.recipe), u, c.repeats)
  {
    hide Sum, CraftYield, CraftShare, Need, Yield, RecipeOf;
    CraftRowWritten(book, t, t', id, c, u);
  }

  lemma NeedSplits(r: Recipe, u: Uid, n: int, m: int)
    ensures Need(r, u, n - m) == Need(r, u, n) - Need(r, u, m)
    ensures Yield(r, u, n - m) == Yield(r, u, n) - Yield(r, u, m)
  {
    Distributes(AmountOf(r.ingredients, u), n, m);
    Distributes(AmountOf(r.results, u), n, m);
  }

  lemma SpendRequired(t: Tables, t': Tables, plan: int, r: Recipe, n: int, u: Uid)
    requires CanInsertCraft(t, plan, r, n) && t'.items == Spend(t.items, plan, r, n)
    ensures RequiredIn(t', plan, u) == RequiredIn(t, plan, u) - Need(r, u, n)
  {
    if ItemKey(plan, u) !in t.items {
      AmountOfNone(r.ingredients, u);
    }
  }

  lemma SameSteps(book: Book, t: Tables, t': Tables, u: Uid)
    requires t'.steps == t.steps
    ensures Sum(StepUse(book, t', u)) == Sum(StepUse(book, t, u))
      && Sum(StepYield(book, t', u)) == Sum(StepYield(book, t, u))
  {
    assert StepUse(book, t', u) == StepUse(book, t, u) && StepYield(book, t', u) == StepYield(book, t, u);
  }

  lemma CommitKeepsItem(book: Book, plan: int, goals: seq<Stack>, steps: seq<Planner.Step>,
                        w: World, id: int, n: int, w': World, u: Uid)
    requires ItemInv(book, plan, goals, steps, w, u) && Valid(book, w.t)
    requires CanCommit(w.t, id) && 1 <= n <= w.t.crafts[id].repeats
    requires w'.t == AfterCommit(w.t, id, RecipeOf(book, w.t.crafts[id].recipe), n).(waits := w'.t.waits)
    requires Taken(book, w, w', id, n)
    ensures ItemInv(book, plan, goals, steps, w', u)
  {
    var c := w.t.crafts[id];
    var need := Need(RecipeOf(book, c.recipe), u, n);
    CommitReleases(book, w.t, id, n, u);
    TakenAt(book, w, w', id, n, u);
    assert w'.t.crafts == w.t.crafts[id := c.(status := Committed, committed := n)] && w'.t.steps == w.t.steps;
    assert w'.t.items == w.t.items && w'.t.reserve == Release(w.t.reserve, RecipeOf(book, c.recipe), n)
      && c.committed == 0;
    hide *;
    CommitShifts(book, plan, w, id, n, w', u);
    ShiftKeepsItem(book, plan, goals, steps, w, w', u, 0, -need, 0, 0, 0, -need, -need);
  }

  lemma CommitShifts(book: Book, plan: int, w: World, id: int, n: int, w': World, u: Uid)
    requires id in w.t.crafts && w'.t.crafts == w.t.crafts[id := w.t.crafts[id].(status := Committed, committed := n)]
    requires w'.t.steps == w.t.steps && w'.t.items == w.t.items && w.t.crafts[id].committed == 0
    requires Get(w'.t.reserve, u) == Get(w.t.reserve, u) - Need(RecipeOf(book, w.t.crafts[id].recipe), u, n)
    requires Get(w'.phys, u) == Get(w.phys, u) - Need(RecipeOf(book, w.t.crafts[id].recipe), u, n)
    ensures var need := Need(RecipeOf(book, w.t.crafts[id].recipe), u, n);
      Shifts(book, plan, w, w', u, 0, -need, 0, 0, 0, -need, -need)
  {
    hide Sum, StepUse, StepYield, CraftYield, CraftShare, Need, Yield, RequiredIn, Get, RecipeOf;
    SameSteps(book, w.t, w'.t, u);
    CraftCommitted(book, w.t, w'.t, id, n, u);
    SameRequired(w.t, w'.t, plan, u);
  }

  lemma CraftCommitted(book: Book, t: Tables, t': Tables, id: int, n: int, u: Uid)
    requires id in t.crafts && t'.crafts == t.crafts[id := t.crafts[id].(status := Committed, committed := n)]
    requires t.crafts[id].committed == 0
    ensures Sum(CraftYield(book, t', u)) == Sum(CraftYield(book, t, u))
    ensures Sum(CraftShare(book, t', u)) == Sum(CraftShare(book, t, u))
      - Need(RecipeOf(book, t.crafts[id].recipe), u, n)
  {
    var c := t.crafts[id];
    hide Sum, StepUse, StepYield, CraftYield, CraftShare, Need, Yield, RecipeOf;
    CraftRowWritten(book, t, t', id, c.(status := Committed, committed := n), u);
    NeedSplits(RecipeOf(book, c.recipe), u, c.repeats, n);
  }

  lemma CommitReleases(book: Book, t: Tables, id: int, n: int, u: Uid)
    requires Valid(book, t) && CanCommit(t, id) && 1 <= n <= t.crafts[id].repeats
    ensures Get(Release(t.reserve, RecipeOf(book, t.crafts[id].recipe), n), u)
         == Get(t.reserve, u) - Need(RecipeOf(book, t.crafts[id].recipe), u, n)
  {
    ReleaseExact(book, t, id, n, u);
  }

  lemma TakenAt(book: Book, w: World, w': World, id: int, n: int, u: Uid)
    requires Taken(book, w, w', id, n)
    ensures Get(w'.phys, u) == Get(w.phys, u) - Need(RecipeOf(book, w.t.crafts[id].recipe), u, n)
  {
  }

  lemma SameRequired(t: Tables, t': Tables, plan: int, u: Uid)
    requires t'.items == t.items
    ensures RequiredIn(t', plan, u) == RequiredIn(t, plan, u)
  {
  }

  lemma CompleteKeepsItem(book: Book, plan: int, goals: seq<Stack>, steps: seq<Planner.Step>,
                          w: World, id: int, w': World, u: Uid)
    requires ItemInv(book, plan, goals, steps, w, u) && Valid(book, w.t)
    requires id in w.t.crafts && w.t.crafts[id].status.Committed?
    requires w'.t == AfterComplete(w.t, id).(waits := w'.t.waits) && Returned(book, w, w', id)
    ensures ItemInv(book, plan, goals, steps, w', u)
  {
    var c := w.t.crafts[id];
    var gain := Yield(RecipeOf(book, c.recipe), u, c.committed);
    YieldNonNegative(book, c.recipe, u, c.committed);
    ReturnedAt(book, w, w', id, u);
    assert w'.t.steps == w.t.steps && w'.t.items == w.t.items && w'.t.reserve == w.t.reserve;
    assert GoodCraft(book, c);
    CraftCompleted(book, w.t, w'.t, id, u);
    hide *;
    CompleteShifts(book, plan, w, w', u, gain);
    ShiftKeepsItem(book, plan, goals, steps, w, w', u, 0, gain, 0, 0, -gain, 0, 0);
  }

  lemma ReturnedAt(book: Book, w: World, w': World, id: int, u: Uid)
    requires Returned(book, w, w', id)
    ensures Get(w'.phys, u) == Get(w.phys, u) + Yield(RecipeOf(book, w.t.crafts[id].recipe), u,
      w.t.crafts[id].committed)
  {
  }

  lemma CompleteShifts(book: Book, plan: int, w: World, w': World, u: Uid, gain: int)
    requires w'.t.steps == w.t.steps && w'.t.items == w.t.items && w'.t.reserve == w.t.reserve
    requires Get(w'.phys, u) == Get(w.phys, u) + gain
    requires Sum(CraftYield(book, w'.t, u)) == Sum(CraftYield(book, w.t, u)) - gain
    requires Sum(CraftShare(book, w'.t, u)) == Sum(CraftShare(book, w.t, u))
    ensures Shifts(book, plan, w, w', u, 0, gain, 0, 0, -gain, 0, 0)
  {
    hide Sum, StepUse, StepYield, CraftYield, CraftShare, RequiredIn, Get;
    SameSteps(book, w.t, w'.t, u);
    SameRequired(w.t, w'.t, plan, u);
  }

  /** A completed batch leaves the craft's yields; the ingredients still open stay its share. */
  lemma CraftCompleted(book: Book, t: Tables, t': Tables, id: int, u: Uid)
    requires id in t.crafts && t.crafts[id].status.Committed? && t'.crafts == AfterComplete(t, id).crafts
    ensures Sum(CraftYield(book, t', u)) == Sum(CraftYield(book, t, u))
      - Yield(RecipeOf(book, t.crafts[id].recipe), u, t.crafts[id].committed)
    ensures Sum(CraftShare(book, t', u)) == Sum(CraftShare(book, t, u))
  {
    var c := t.crafts[id];
    var r := RecipeOf(book, c.recipe);
    hide Sum, CraftYield, CraftShare, Need, Yield, RecipeOf;
    NeedSplits(r, u, c.repeats, c.committed);
    NeedOfNone(r, u);
    if Open(c) != 0 {
      CraftRowWritten(book, t, t', id, c.(repeats := Open(c), committed := 0, status := Pending), u);
    } else {
      CraftRowDeleted(book, t, t', id, u);
    }
  }

  lemma NeedOfNone(r: Recipe, u: Uid)
    ensures Need(r, u, 0) == 0 && Yield(r, u, 0) == 0
  {
  }

  lemma YieldNonNegative(book: Book, recipe: int, u: Uid, n: int)
    requires GoodBook(book) && n >= 0
    ensures Yield(RecipeOf(book, recipe), u, n) >= 0
  {
    PositiveWhenMentioned(RecipeOf(book, recipe).results, u);
  }

  /** Moves that leave steps, crafts, reserves and requirements as they are. */
  lemma QuietKeepsItem(book: Book, plan: int, goals: seq<Stack>, steps: seq<Planner.Step>, w: World, w': World, u: Uid)
    requires ItemInv(book, plan, goals, steps, w, u)
    requires w'.t.steps == w.t.steps && w'.t.crafts.Keys == w.t.crafts.Keys
    requires forall c :: c in w.t.crafts ==> SameWork(w.t.crafts[c], w'.t.crafts[c])
    requires RequiredIn(w'.t, plan, u) == RequiredIn(w.t, plan, u)
    requires Get(w'.phys, u) >= Get(w.phys, u) && Get(w'.t.reserve, u) <= Get(w'.phys, u)
    ensures ItemInv(book, plan, goals, steps, w', u)
  {
    SameSums(book, w.t, w'.t, u);
  }

  lemma StepKeepsItem(book: Book, plan: int, goals: seq<Stack>, steps: seq<Planner.Step>, w: World, m: Move, w': World,
                      u: Uid)
    requires ItemInv(book, plan, goals, steps, w, u) && Valid(book, w.t) && Step(book, plan, w, m, w')
    ensures ItemInv(book, plan, goals, steps, w', u)
  {
    hide ItemInv, Valid, AfterInsertCraft, AfterCommit, CanInsertCraft, Fits;
    match m
    case Deposit(v, n) =>
      ItemFacts(book, plan, goals, steps, w, u);
      QuietKeepsItem(book, plan, goals, steps, w, w', u);
    case Ledger(e) =>
      match e
      case InsertCraft(id, p, recipe, n) => SubmitKeepsItem(book, plan, goals, steps, w, id, recipe, n, w', u);
      case Commit(id, n) => CommitKeepsItem(book, plan, goals, steps, w, id, n, w', u);
      case CommitAndWait(id, worker) => CommitKeepsItem(book, plan, goals, steps, w, id, 1, w', u);
      case Complete(id) => CompleteKeepsItem(book, plan, goals, steps, w, id, w', u);
      case CompleteWait(id, worker) =>
        WaitIsCommitted(book, w.t, id, worker);
        CompleteKeepsItem(book, plan, goals, steps, w, id, w', u);
      case Assign(id, worker) =>
        ItemFacts(book, plan, goals, steps, w, u);
        QuietKeepsItem(book, plan, goals, steps, w, w', u);
      case Cleanup(p) =>
        ItemFacts(book, plan, goals, steps, w, u);
        QuietKeepsItem(book, plan, goals, steps, w, w', u);
      case UpdateCount(v, count) =>
        ItemFacts(book, plan, goals, steps, w, u);
        QuietKeepsItem(book, plan, goals, steps, w, w', u);
  }

  lemma WaitIsCommitted(book: Book, t: Tables, id: int, worker: string)
    requires Valid(book, t) && Wait(worker, id) in t.waits
    ensures id in t.crafts && t.crafts[id].status.Committed?
  {
  }

  lemma ItemFacts(book: Book, plan: int, goals: seq<Stack>, steps: seq<Planner.Step>, w: World, u: Uid)
    requires ItemInv(book, plan, goals, steps, w, u)
    ensures Get(w.t.reserve, u) <= Get(w.phys, u)
  {
  }

  lemma StepKeepsOnePlan(book: Book, plan: int, steps: seq<Planner.Step>, w: World, m: Move, w': World)
    requires OnePlan(book, plan, steps, w.t) && Step(book, plan, w, m, w')
    ensures OnePlan(book, plan, steps, w'.t)
  {
  }

  lemma StepKeepsInv(book: Book, plan: int, goals: seq<Stack>, steps: seq<Planner.Step>, w: World, m: Move, w': World)
    requires Inv(book, plan, goals, steps, w) && Step(book, plan, w, m, w')
    ensures Inv(book, plan, goals, steps, w')
  {
    StepKeepsOnePlan(book, plan, steps, w, m, w');
    forall u ensures ItemInv(book, plan, goals, steps, w', u) {
      StepKeepsItem(book, plan, goals, steps, w, m, w', u);
    }
    if m.Ledger? {
      NextKeepsValid(book, w.t, m.e, w'.t);
    }
  }
}
