/**
  Runs of one accepted plan in the moves that the server makes: whole checks, exports of one batch,
  commits, completions, imports and count reports, with every item where it really is.
 */
module CodeRuns {
  import opened Recipes
  import opened Planner
  import opened Sums
  import opened Ledger
  import opened LedgerInvariant
  import opened LedgerRuns
  import opened Scheduler
  import opened PlanRuns
  import opened Progress
  import opened ProcessingRequest
  import CraftBatch

  /** What works on the crafts of a recipe: the crafting clients of its type, or a configured processing machine. */
  datatype Service = Crafting(clients: set<string>) | Processing(machine: Machine, site: Site)

  type Services = map<int, Service>

  /** The repeats taken at once; none where nothing works on the recipe, or what does refuses it or panics. */
  function Batch(book: Book, services: Services, recipe: int): Option<int> {
    if recipe !in services then None
    else
      match services[recipe]
      case Crafting(_) => CraftBatch.Portions(RecipeOf(book, recipe))
      case Processing(m, site) => if TakesOn(m, site, RecipeOf(book, recipe)) then Some(1) else None
  }

  /** At least one repeat is taken at once, by a client, or by a machine that sees what comes out if it waits for it. */
  predicate Served(book: Book, services: Services, recipe: int) {
    && Batch(book, services, recipe).Some? && Batch(book, services, recipe).value >= 1
    && match services[recipe]
       case Crafting(clients) => clients != {}
       case Processing(m, _) => m.wait ==> ShowsOutput(m, RecipeOf(book, recipe))
  }

  /** The client takes crafts of the recipe. */
  predicate Employs(services: Services, recipe: int, worker: string) {
    recipe in services && services[recipe].Crafting? && worker in services[recipe].clients
  }

  ghost predicate AllServed(book: Book, services: Services, steps: seq<Planner.Step>) {
    forall i :: 0 <= i < |steps| ==> Served(book, services, steps[i].recipe.id)
  }

  /**
    `stored` is what a count of the storage finds. `results` has left the machines and waits to be
    imported. `held` maps a craft to the repeats whose inputs were taken out for it and are not
    committed yet. `dirty` is set while an update pass has changed the plan and not yet checked it.
    The world's stock counts an item until it is used up, wherever it is.
   */
  datatype Code = Code(w: World, stored: map<Uid, int>, results: map<Uid, int>, held: map<int, int>, dirty: bool)

  datatype CodeMove =
    | Walk(pinged: bool, listed: seq<PlanStep>, trace: seq<Tables>)
    | Report(uid: Uid)
    | Forget
    | Hire(id: int, worker: string)
    | Export(id: int)
    | PutBack(id: int)
    | Start(id: int)
    | Finish(id: int)
    | Pull(uid: Uid, n: int)
    | Deliver(uid: Uid, n: int)

  // ---------------------------------------------------------------- counts

  function Uids(items: seq<RecipeItem>): (uids: set<Uid>)
    ensures forall u :: Mentions(items, u) ==> u in uids
  {
    set i | 0 <= i < |items| :: items[i].uid
  }

  /** The counts with `n` times the list put in. */
  function Plus(m: map<Uid, int>, items: seq<RecipeItem>, n: int): map<Uid, int> {
    map u | u in m.Keys + Uids(items) :: Get(m, u) + AmountOf(items, u) * n
  }

  lemma PlusGet(m: map<Uid, int>, items: seq<RecipeItem>, n: int, u: Uid)
    ensures Get(Plus(m, items, n), u) == Get(m, u) + AmountOf(items, u) * n
  {
    if !Mentions(items, u) {
      AmountOfNone(items, u);
    }
  }

  /** Ingredients and catalysts of `n` repeats put in. */
  function PlusInputs(m: map<Uid, int>, r: Recipe, n: int): map<Uid, int> {
    Plus(Plus(m, r.ingredients, n), r.catalysts, n)
  }

  /** Results of `n` repeats put in, and the catalysts that were lent for them. */
  function PlusOutputs(m: map<Uid, int>, r: Recipe, n: int): map<Uid, int> {
    Plus(Plus(m, r.results, n), r.catalysts, n)
  }

  lemma PlusInputsGet(m: map<Uid, int>, r: Recipe, n: int, u: Uid)
    ensures Get(PlusInputs(m, r, n), u) == Get(m, u) + Intake(r, u) * n
  {
    PlusGet(m, r.ingredients, n, u);
    PlusGet(Plus(m, r.ingredients, n), r.catalysts, n, u);
    hide Plus, AmountOf;
  }

  lemma PlusOutputsGet(m: map<Uid, int>, r: Recipe, n: int, u: Uid)
    ensures Get(PlusOutputs(m, r, n), u) == Get(m, u) + Yield(r, u, n) + AmountOf(r.catalysts, u) * n
  {
    PlusGet(m, r.results, n, u);
    PlusGet(Plus(m, r.results, n), r.catalysts, n, u);
    hide Plus, AmountOf;
  }

  /** The repeats that are really worked on: a batch limit below one moves nothing. */
  function Portion(n: int): int {
    if n > 0 then n else 0
  }

  // ---------------------------------------------------------------- the moves

  /** The step rows of the plan, each listed once, in any order. */
  ghost predicate Lists(plan: int, t: Tables, listed: seq<PlanStep>) {
    forall k :: k in t.steps && k.plan == plan ==> exists i :: 0 <= i < |listed| && listed[i].recipe == k.recipe
  }

  /** A check of the freshly read plan, asked for by hand or by an update pass that changed the plan. */
  ghost predicate WalkStep(book: Book, plan: int, s: Code, pinged: bool, listed: seq<PlanStep>, trace: seq<Tables>,
                           s': Code) {
    && (pinged || s.dirty)
    && Lists(plan, s.w.t, listed) && Fresh(book, s.w.t, plan, listed)
    && Checked(book, s.w.t, plan, listed, trace, s'.w.t)
    && s' == s.(w := World(s'.w.t, s.w.phys), dirty := pinged && s.dirty)
  }

  /** An update pass reports the count of a reserved item of which more is stored than reserved. */
  ghost predicate ReportStep(s: Code, u: Uid, s': Code) {
    && u in s.w.t.reserve && Get(s.stored, u) > Get(s.w.t.reserve, u)
    && Allocates(s.w.t, s'.w.t, u, Get(s.stored, u))
    && s' == s.(w := World(s'.w.t, s.w.phys), dirty := s.dirty || s'.w.t.items != s.w.t.items)
  }

  /** The inputs of the craft's next batch are all stored. */
  ghost predicate InputsStored(book: Book, services: Services, s: Code, id: int)
    requires id in s.w.t.crafts && Batch(book, services, s.w.t.crafts[id].recipe).Some?
  {
    var c := s.w.t.crafts[id];
    var r, n := RecipeOf(book, c.recipe), CraftBatch.Min(c.repeats, Batch(book, services, c.recipe).value);
    forall u :: Intake(r, u) > 0 ==> Intake(r, u) * Portion(n) <= Get(s.stored, u)
  }

  /** Something works on the craft, and the inputs of one batch are all there. */
  ghost predicate CanExport(book: Book, services: Services, s: Code, id: int) {
    && CanCommit(s.w.t, id) && id !in s.held && Batch(book, services, s.w.t.crafts[id].recipe).Some?
    && (services[s.w.t.crafts[id].recipe].Crafting? ==> s.w.t.crafts[id].worker.Some?)
    && InputsStored(book, services, s, id)
  }

  ghost predicate ExportStep(book: Book, services: Services, s: Code, id: int, s': Code) {
    && CanExport(book, services, s, id)
    && var c := s.w.t.crafts[id];
       var n := CraftBatch.Min(c.repeats, Batch(book, services, c.recipe).value);
       s' == s.(stored := PlusInputs(s.stored, RecipeOf(book, c.recipe), -Portion(n)), held := s.held[id := n])
  }

  /** An export that was not committed is imported again before the next one. */
  ghost predicate PutBackStep(book: Book, s: Code, id: int, s': Code) {
    && id in s.held && id in s.w.t.crafts
    && var r := RecipeOf(book, s.w.t.crafts[id].recipe);
       s' == s.(stored := PlusInputs(s.stored, r, Portion(s.held[id])), held := s.held - {id})
  }

  /** A worker that waits for results does not start another craft. */
  ghost predicate Unengaged(t: Tables, m: Machine) {
    forall w :: w in t.waits ==> w.worker != m.worker
  }

  /** The machine completes a craft in the transaction that commits it. */
  predicate Direct(services: Services, recipe: int) {
    recipe in services && services[recipe].Processing? && !services[recipe].machine.wait
  }

  /**
    The tables after the transaction that commits `n` repeats: with a wait row, or with the
    completion, for machines.
   */
  function Started(services: Services, t: Tables, id: int, r: Recipe, n: int): Tables
    requires id in t.crafts && t.crafts[id].recipe in services
  {
    match services[t.crafts[id].recipe]
    case Crafting(_) => AfterCommit(t, id, r, n)
    case Processing(m, _) => AfterStart(m, t, id, r, n)
  }

  /** The commit after an export. */
  ghost predicate StartStep(book: Book, services: Services, s: Code, id: int, s': Code) {
    && CanCommit(s.w.t, id) && id in s.held && s.w.t.crafts[id].recipe in services
    && var t, n, r := s.w.t, s.held[id], RecipeOf(book, s.w.t.crafts[id].recipe);
       var used := Plus(s.w.phys, r.ingredients, -Portion(n));
       && (services[t.crafts[id].recipe].Processing? && services[t.crafts[id].recipe].machine.wait ==>
            Unengaged(t, services[t.crafts[id].recipe].machine))
       && s' ==
         if Direct(services, t.crafts[id].recipe) then
           s.(w := World(Started(services, t, id, r, n), Plus(used, r.results, Portion(n))),
              results := PlusOutputs(s.results, r, Portion(n)), held := s.held - {id})
         else
           s.(w := World(Started(services, t, id, r, n), used), held := s.held - {id})
  }

  /** The machine is done with the committed repeats, and the craft is completed. */
  ghost predicate FinishStep(book: Book, services: Services, s: Code, id: int, s': Code) {
    && id in s.w.t.crafts && s.w.t.crafts[id].recipe in services
    && var t, r, n := s.w.t, RecipeOf(book, s.w.t.crafts[id].recipe), Portion(s.w.t.crafts[id].committed);
       && (match services[t.crafts[id].recipe]
           case Crafting(_) => t.crafts[id].status.Committed? && s'.w.t == AfterComplete(t, id)
           case Processing(m, _) =>
             && m.wait && Wait(m.worker, id) in t.waits && ShowsOutput(m, r)
             && s'.w.t == AfterComplete(DropWait(t, id, m.worker), id))
       && s' == s.(w := World(s'.w.t, Plus(s.w.phys, r.results, n)), results := PlusOutputs(s.results, r, n))
  }

  ghost predicate CodeStep(book: Book, services: Services, plan: int, s: Code, m: CodeMove, s': Code) {
    match m
    case Walk(pinged, listed, trace) => WalkStep(book, plan, s, pinged, listed, trace, s')
    case Report(u) => ReportStep(s, u, s')
    case Forget => s' == s.(dirty := false)
    case Hire(id, worker) =>
      && id in s.w.t.crafts && Employs(services, s.w.t.crafts[id].recipe, worker)
      && s' == s.(w := World(AfterAssign(s.w.t, id, worker), s.w.phys))
    case Export(id) => ExportStep(book, services, s, id, s')
    case PutBack(id) => PutBackStep(book, s, id, s')
    case Start(id) => StartStep(book, services, s, id, s')
    case Finish(id) => FinishStep(book, services, s, id, s')
    case Pull(u, n) =>
      && 0 <= n <= Get(s.results, u)
      && s' == s.(stored := s.stored[u := Get(s.stored, u) + n], results := s.results[u := Get(s.results, u) - n])
    case Deliver(u, n) =>
      && n >= 0
      && s' == s.(w := World(s.w.t, s.w.phys[u := Get(s.w.phys, u) + n]), stored := s.stored[u := Get(s.stored, u) + n])
  }

  ghost predicate IsCodeRun(book: Book, services: Services, plan: int, states: seq<Code>, moves: seq<CodeMove>) {
    && |states| == |moves| + 1
    && forall i :: 0 <= i < |moves| ==> CodeStep(book, services, plan, states[i], moves[i], states[i + 1])
  }

  /** What a move is, case by case. */
  lemma StepCases(book: Book, services: Services, plan: int, s: Code, m: CodeMove, s': Code)
    requires CodeStep(book, services, plan, s, m, s')
    ensures m.Walk? ==> WalkStep(book, plan, s, m.pinged, m.listed, m.trace, s')
    ensures m.Report? ==> ReportStep(s, m.uid, s')
    ensures m.Forget? ==> s' == s.(dirty := false)
    ensures m.Hire? ==>
      && m.id in s.w.t.crafts && Employs(services, s.w.t.crafts[m.id].recipe, m.worker)
      && s' == s.(w := World(AfterAssign(s.w.t, m.id, m.worker), s.w.phys))
    ensures m.Export? ==> ExportStep(book, services, s, m.id, s')
    ensures m.PutBack? ==> PutBackStep(book, s, m.id, s')
    ensures m.Start? ==> StartStep(book, services, s, m.id, s')
    ensures m.Finish? ==> FinishStep(book, services, s, m.id, s')
    ensures m.Pull? ==>
      && 0 <= m.n <= Get(s.results, m.uid)
      && s' == s.(stored := s.stored[m.uid := Get(s.stored, m.uid) + m.n],
                  results := s.results[m.uid := Get(s.results, m.uid) - m.n])
    ensures m.Deliver? ==>
      && m.n >= 0
      && s' == s.(w := World(s.w.t, s.w.phys[m.uid := Get(s.w.phys, m.uid) + m.n]),
                  stored := s.stored[m.uid := Get(s.stored, m.uid) + m.n])
    ensures m.Export? || m.PutBack? || m.Pull? || m.Forget? ==> s'.w == s.w
  {
    hide WalkStep, ReportStep, StartStep, FinishStep, AfterAssign, CanExport, PlusInputs, RecipeOf;
  }

  lemma WorksOnly(services: Services, s: Code, m: CodeMove, s': Code)
    ensures m.Walk? ==> CodeWorks(services, s, m, s') == (s'.w.t != s.w.t)
    ensures m.Finish? ==> CodeWorks(services, s, m, s')
    ensures m.Start? && m.id in s.w.t.crafts ==>
      CodeWorks(services, s, m, s') == Direct(services, s.w.t.crafts[m.id].recipe)
    ensures !m.Walk? && !m.Finish? && !m.Start? ==> !CodeWorks(services, s, m, s')
  {
  }

  lemma RunStep(book: Book, services: Services, plan: int, states: seq<Code>, moves: seq<CodeMove>, n: nat)
    requires IsCodeRun(book, services, plan, states, moves) && 0 < n < |states|
    ensures |states| == |moves| + 1 && CodeStep(book, services, plan, states[n - 1], moves[n - 1], states[n])
  {
    hide CodeStep;
    assert CodeStep(book, services, plan, states[n - 1], moves[n - 1], states[n - 1 + 1]);
  }

  // ---------------------------------------------------------------- what every move keeps

  /** Wait rows belong to committed crafts of the machine that waits, and committed crafts to what works on them. */
  ghost predicate WaitsMatch(services: Services, t: Tables) {
    && (forall w :: w in t.waits ==>
        && w.craft in t.crafts && t.crafts[w.craft].status.Committed? && t.crafts[w.craft].recipe in services
        && services[t.crafts[w.craft].recipe].Processing?
        && services[t.crafts[w.craft].recipe].machine.worker == w.worker)
    && (forall c :: c in t.crafts && t.crafts[c].status.Committed? ==> Working(services, t, c))
  }

  ghost predicate Working(services: Services, t: Tables, c: int)
    requires c in t.crafts
  {
    && t.crafts[c].recipe in services
    && match services[t.crafts[c].recipe]
       case Crafting(_) => true
       case Processing(m, _) => m.wait && Wait(m.worker, c) in t.waits
  }

  /** Inputs are taken out for pending crafts only, one batch each, and by the client that has the craft. */
  ghost predicate HeldMatches(book: Book, services: Services, s: Code) {
    forall id :: id in s.held ==>
      && CanCommit(s.w.t, id) && Batch(book, services, s.w.t.crafts[id].recipe).Some?
      && (services[s.w.t.crafts[id].recipe].Crafting? ==> s.w.t.crafts[id].worker.Some?)
      && s.held[id] == CraftBatch.Min(s.w.t.crafts[id].repeats, Batch(book, services, s.w.t.crafts[id].recipe).value)
  }

  /** A craft is assigned to none but the clients of its type. */
  ghost predicate HiredMatches(services: Services, t: Tables) {
    forall c :: c in t.crafts && t.crafts[c].worker.Some? ==>
      Employs(services, t.crafts[c].recipe, t.crafts[c].worker.value)
  }

  ghost predicate Orderly(book: Book, services: Services, s: Code) {
    WaitsMatch(services, s.w.t) && HeldMatches(book, services, s) && HiredMatches(services, s.w.t)
  }

  /** What a check does to the rows that the workers use: at most one new craft per step. */
  lemma StepRows(book: Book, t: Tables, plan: int, p: PlanStep, t': Tables)
    requires StepChecked(book, t, plan, p, t') && (p.recipe in book ==> book[p.recipe].id == p.recipe)
    ensures t'.waits == t.waits && t'.reserve == t.reserve && t'.items.Keys == t.items.Keys
    ensures t'.crafts == t.crafts
      || exists id, n ::
        id !in t.crafts && n >= 1 && t'.crafts == t.crafts[id := Craft(plan, p.recipe, None, Pending, n, 0)]
  {
    hide Fits, CanInsertCraft, CanSubmit;
  }

  lemma CraftAddedOrderly(book: Book, services: Services, s: Code, s': Code, id: int, c: Craft)
    requires Orderly(book, services, s) && id !in s.w.t.crafts && c.status.Pending? && c.worker.None?
    requires s'.w.t.crafts == s.w.t.crafts[id := c] && s'.w.t.waits == s.w.t.waits && s'.held == s.held
    ensures Orderly(book, services, s')
  {
    hide Batch;
    forall k | k in s'.w.t.crafts && s'.w.t.crafts[k].status.Committed? ensures Working(services, s'.w.t, k) {
      assert k != id && Working(services, s.w.t, k);
    }
  }

  lemma SameRowsOrderly(book: Book, services: Services, s: Code, s': Code)
    requires Orderly(book, services, s)
    requires s'.w.t.crafts == s.w.t.crafts && s'.w.t.waits == s.w.t.waits && s'.held == s.held
    ensures Orderly(book, services, s')
  {
    hide Batch;
    forall k | k in s'.w.t.crafts && s'.w.t.crafts[k].status.Committed? ensures Working(services, s'.w.t, k) {
      assert Working(services, s.w.t, k);
    }
  }

  lemma {:induction false} WalkOrderly(book: Book, services: Services, plan: int, s: Code, listed: seq<PlanStep>,
      trace: seq<Tables>, n: nat)
    requires Orderly(book, services, s) && Walked(book, plan, listed, trace) && trace[0] == s.w.t
    requires Fresh(book, s.w.t, plan, listed) && n <= |listed|
    ensures Orderly(book, services, s.(w := World(trace[n], s.w.phys)))
    ensures trace[n].reserve == s.w.t.reserve && trace[n].items.Keys == s.w.t.items.Keys
  {
    var s' := s.(w := World(trace[n], s.w.phys));
    if n == 0 {
      assert s' == s;
    } else {
      var before := s.(w := World(trace[n - 1], s.w.phys));
      WalkOrderly(book, services, plan, s, listed, trace, n - 1);
      assert StepChecked(book, trace[n - 1], plan, listed[n - 1], trace[n - 1 + 1]);
      assert FreshStep(book, s.w.t, plan, listed[n - 1]);
      hide Orderly, StepChecked, FreshStep, Walked;
      StepRows(book, trace[n - 1], plan, listed[n - 1], trace[n]);
      if trace[n].crafts == trace[n - 1].crafts {
        SameRowsOrderly(book, services, before, s');
      } else {
        var id, k :| id !in trace[n - 1].crafts && k >= 1
          && trace[n].crafts == trace[n - 1].crafts[id := Craft(plan, listed[n - 1].recipe, None, Pending, k, 0)];
        CraftAddedOrderly(book, services, before, s', id, Craft(plan, listed[n - 1].recipe, None, Pending, k, 0));
      }
    }
  }

  predicate SameHands(c: Craft, c': Craft) {
    c'.recipe == c.recipe && c'.worker == c.worker
  }

  /** Writing or deleting one craft's row, with its wait rows as they should be, keeps the others in order. */
  lemma OneCraftOrderly(book: Book, services: Services, s: Code, s': Code, id: int)
    requires Orderly(book, services, s) && id in s.w.t.crafts
    requires s'.w.t.crafts - {id} == s.w.t.crafts - {id} && s'.held == s.held - {id}
    requires forall w: Wait :: w.craft != id ==> (w in s'.w.t.waits <==> w in s.w.t.waits)
    requires forall w: Wait :: w in s'.w.t.waits && w.craft == id ==>
      && id in s'.w.t.crafts && s'.w.t.crafts[id].status.Committed? && s'.w.t.crafts[id].recipe in services
      && services[s'.w.t.crafts[id].recipe].Processing? && services[s'.w.t.crafts[id].recipe].machine.worker == w.worker
    requires id in s'.w.t.crafts && s'.w.t.crafts[id].status.Committed? ==> Working(services, s'.w.t, id)
    requires id in s'.w.t.crafts ==> SameHands(s.w.t.crafts[id], s'.w.t.crafts[id])
    ensures Orderly(book, services, s')
  {
    hide Batch;
    var t, t' := s.w.t, s'.w.t;
    forall k | k in t'.crafts && k != id ensures k in t.crafts && t'.crafts[k] == t.crafts[k] {
      assert k in t'.crafts - {id} && (t'.crafts - {id})[k] == t'.crafts[k];
    }
    forall k | k in t.crafts && k != id ensures k in t'.crafts {
      assert k in t.crafts - {id};
    }
    forall k | k in t'.crafts && t'.crafts[k].status.Committed? ensures Working(services, t', k) {
      if k != id {
        assert Working(services, t, k);
      }
    }
  }

  /** What the start of a craft does to its row and wait rows, and to those of the others. */
  lemma StartedRows(services: Services, t: Tables, id: int, r: Recipe, n: int)
    requires id in t.crafts && t.crafts[id].recipe in services
    ensures var t' := Started(services, t, id, r, n);
      && t'.crafts - {id} == t.crafts - {id}
      && (forall w: Wait :: w.craft != id ==> (w in t'.waits <==> w in t.waits))
      && (forall w: Wait :: w in t'.waits && w.craft == id ==>
        && id in t'.crafts && t'.crafts[id].status.Committed? && t'.crafts[id].recipe in services
        && services[t'.crafts[id].recipe].Processing? && services[t'.crafts[id].recipe].machine.worker == w.worker)
      && (id in t'.crafts && t'.crafts[id].status.Committed? ==> Working(services, t', id))
      && (id in t'.crafts ==> SameHands(t.crafts[id], t'.crafts[id]))
  {
    hide Release, RecipeOf;
  }

  lemma StartOrderly(book: Book, services: Services, s: Code, id: int, s': Code)
    requires Orderly(book, services, s) && StartStep(book, services, s, id, s')
    ensures Orderly(book, services, s')
  {
    hide Orderly, HeldMatches, Batch, Plus, PlusOutputs, Unengaged, RecipeOf, Started, Working;
    StartedRows(services, s.w.t, id, RecipeOf(book, s.w.t.crafts[id].recipe), s.held[id]);
    OneCraftOrderly(book, services, s, s', id);
  }

  /** A craft being finished has no other wait row than the one that its machine removes. */
  lemma FinishedWaits(services: Services, t: Tables, id: int, w: Wait)
    requires WaitsMatch(services, t) && w in t.waits && w.craft == id
    ensures id in t.crafts && t.crafts[id].recipe in services && services[t.crafts[id].recipe].Processing?
    ensures w == Wait(services[t.crafts[id].recipe].machine.worker, id) && t.crafts[id].status.Committed?
  {
  }

  lemma NotHeld(book: Book, services: Services, s: Code, id: int)
    requires HeldMatches(book, services, s) && id in s.w.t.crafts && s.w.t.crafts[id].status.Committed?
    ensures s.held == s.held - {id}
  {
  }

  lemma FinishOrderly(book: Book, services: Services, s: Code, id: int, s': Code)
    requires Orderly(book, services, s) && FinishStep(book, services, s, id, s')
    ensures Orderly(book, services, s')
  {
    assert WaitsMatch(services, s.w.t);
    forall w | w in s.w.t.waits && w.craft == id
      ensures services[s.w.t.crafts[id].recipe].Processing?
      ensures w == Wait(services[s.w.t.crafts[id].recipe].machine.worker, id) && s.w.t.crafts[id].status.Committed?
    {
      FinishedWaits(services, s.w.t, id, w);
    }
    if s.w.t.crafts[id].status.Committed? {
      NotHeld(book, services, s, id);
    }
    hide Orderly, WaitsMatch, HeldMatches, Batch, Plus, PlusOutputs, RecipeOf;
    OneCraftOrderly(book, services, s, s', id);
  }

  /** Every move keeps the wait rows and the exports in order, whatever the batch limits are. */
  lemma StepKeepsOrderly(book: Book, services: Services, plan: int, s: Code, m: CodeMove, s': Code)
    requires Orderly(book, services, s) && CodeStep(book, services, plan, s, m, s')
    ensures Orderly(book, services, s')
  {
    hide Batch, Checked, Fresh, PlusInputs, Allocates, Lists, StartStep, FinishStep;
    match m
    case Walk(pinged, listed, trace) =>
      WalkRows(book, plan, s.w.t, listed, trace, s'.w.t);
      WalkOrderly(book, services, plan, s, listed, trace, |listed|);
      SameRowsOrderly(book, services, s.(w := World(trace[|listed|], s.w.phys)), s');
    case Report(u) =>
      AllocateRows(s.w.t, s'.w.t, u, Get(s.stored, u));
      SameRowsOrderly(book, services, s, s');
    case Forget => SameRowsOrderly(book, services, s, s');
    case Hire(id, worker) => HireOrderly(book, services, s, id, worker, s');
    case Export(id) => KeepsWorking(services, s, s');
    case PutBack(id) => KeepsWorking(services, s, s');
    case Start(id) => StartOrderly(book, services, s, id, s');
    case Finish(id) => FinishOrderly(book, services, s, id, s');
    case Pull(u, n) => SameRowsOrderly(book, services, s, s');
    case Deliver(u, n) => SameRowsOrderly(book, services, s, s');
  }

  lemma KeepsWorking(services: Services, s: Code, s': Code)
    requires WaitsMatch(services, s.w.t) && s'.w == s.w
    ensures WaitsMatch(services, s'.w.t)
  {
  }

  lemma HireOrderly(book: Book, services: Services, s: Code, id: int, worker: string, s': Code)
    requires Orderly(book, services, s) && id in s.w.t.crafts && Employs(services, s.w.t.crafts[id].recipe, worker)
    requires s' == s.(w := World(AfterAssign(s.w.t, id, worker), s.w.phys))
    ensures Orderly(book, services, s')
  {
    hide Batch;
    var t, t' := s.w.t, s'.w.t;
    assert t'.crafts.Keys == t.crafts.Keys;
    forall k | k in t'.crafts && t'.crafts[k].status.Committed? ensures Working(services, t', k) {
      assert Working(services, t, k);
    }
  }

  /** The parts of a check that its cleanup leaves alone. */
  lemma WalkRows(book: Book, plan: int, t: Tables, listed: seq<PlanStep>, trace: seq<Tables>, t': Tables)
    requires Checked(book, t, plan, listed, trace, t')
    ensures Walked(book, plan, listed, trace) && |trace| == |listed| + 1 && trace[0] == t
    ensures t'.crafts == trace[|listed|].crafts && t'.waits == trace[|listed|].waits
    ensures t'.steps == trace[|listed|].steps && t'.reserve == trace[|listed|].reserve
    ensures t'.items.Keys <= trace[|listed|].items.Keys
  {
  }

  lemma AllocateRows(t: Tables, t': Tables, u: Uid, count: int)
    requires Allocates(t, t', u, count)
    ensures t'.crafts == t.crafts && t'.waits == t.waits && t'.steps == t.steps
    ensures t'.items.Keys == t.items.Keys && t.reserve.Keys <= t'.reserve.Keys
  {
  }

  // ---------------------------------------------------------------- the moves as moves of the plan

  ghost predicate Leads(book: Book, plan: int, w: World, worlds: seq<World>, moves: seq<Move>, w': World) {
    IsPlanRun(book, plan, worlds, moves) && worlds[0] == w && worlds[|moves|] == w'
  }

  ghost predicate CanReach(book: Book, plan: int, w: World, w': World) {
    exists worlds, moves :: Leads(book, plan, w, worlds, moves, w')
  }

  lemma ReachSelf(book: Book, plan: int, w: World)
    ensures CanReach(book, plan, w, w)
  {
    assert Leads(book, plan, w, [w], [], w);
  }

  lemma ReachByMove(book: Book, plan: int, w: World, m: Move, w': World)
    requires PlanRuns.Step(book, plan, w, m, w')
    ensures CanReach(book, plan, w, w')
  {
    assert Leads(book, plan, w, [w, w'], [m], w');
  }

  lemma ReachJoins(book: Book, plan: int, w: World, mid: World, w': World)
    requires CanReach(book, plan, w, mid) && CanReach(book, plan, mid, w')
    ensures CanReach(book, plan, w, w')
  {
    hide PlanRuns.Step;
    var worlds, moves :| Leads(book, plan, w, worlds, moves, mid);
    var worlds', moves' :| Leads(book, plan, mid, worlds', moves', w');
    var n := |moves|;
    var joined, all := worlds + worlds'[1..], moves + moves';
    forall j | 0 <= j < |all| ensures PlanRuns.Step(book, plan, joined[j], all[j], joined[j + 1]) {
      if j < n {
        assert PlanRuns.Step(book, plan, worlds[j], moves[j], worlds[j + 1]);
      } else {
        assert PlanRuns.Step(book, plan, worlds'[j - n], moves'[j - n], worlds'[j - n + 1]);
      }
    }
    assert Leads(book, plan, w, joined, all, w');
  }

  /** Every item row has a reserve row, so that an update pass looks at it. */
  ghost predicate RowsReserved(t: Tables) {
    forall k :: k in t.items ==> k.uid in t.reserve
  }

  /** What every move of the plan keeps. */
  ghost predicate Going(book: Book, plan: int, goals: seq<Stack>, steps: seq<Planner.Step>, w: World) {
    && Inv(book, plan, goals, steps, w) && CraftsUpTo(steps, |steps|, w.t) && RowsReserved(w.t)
    && AllCatalystsHeld(book, plan, steps, w.t)
  }

  /** A craft is of the recipe of an old craft, or of a step row. */
  lemma CraftsFrom(book: Book, plan: int, w: World, m: Move, w': World, c: int)
    requires PlanRuns.Step(book, plan, w, m, w') && c in w'.t.crafts
    ensures (c in w.t.crafts && w'.t.crafts[c].recipe == w.t.crafts[c].recipe)
      || StepKey(plan, w'.t.crafts[c].recipe) in w.t.steps
  {
    hide Fits, Spend, Release, Taken, Returned, CanInsertCraft, Allocates, Next;
    if m.Ledger? {
      CraftsOfNext(book, w.t, m.e, w'.t, c);
    }
  }

  lemma CraftsOfNext(book: Book, t: Tables, e: Event, t': Tables, c: int)
    requires Next(book, t, e, t') && c in t'.crafts && !e.InsertPlan? && !e.RemovePlan?
    ensures (c in t.crafts && t'.crafts[c].recipe == t.crafts[c].recipe)
      || (e.InsertCraft? && t'.crafts[c].recipe == e.recipe && StepKey(e.plan, e.recipe) in t.steps)
  {
    hide Spend, Release, CanInsertCraft, Allocates;
    match e
    case InsertCraft(id, plan, recipe, n) => InsertFacts(t, plan, book[recipe], n);
    case UpdateCount(u, count) => AllocateRows(t, t', u, count);
    case _ =>
  }

  lemma StepKeepsCrafts(book: Book, plan: int, steps: seq<Planner.Step>, w: World, m: Move, w': World)
    requires OnePlan(book, plan, steps, w.t) && CraftsUpTo(steps, |steps|, w.t) && PlanRuns.Step(book, plan, w, m, w')
    ensures CraftsUpTo(steps, |steps|, w'.t)
  {
    hide PlanRuns.Step;
    forall c | c in w'.t.crafts
      ensures exists a :: 0 <= a <= |steps| && a < |steps| && steps[a].recipe.id == w'.t.crafts[c].recipe
    {
      CraftsFrom(book, plan, w, m, w', c);
    }
  }

  lemma StepKeepsReserved(book: Book, plan: int, w: World, m: Move, w': World)
    requires RowsReserved(w.t) && PlanRuns.Step(book, plan, w, m, w')
    ensures RowsReserved(w'.t)
  {
    hide Fits, CanInsertCraft, Taken, Returned, Valid;
    if m.Ledger? && m.e.UpdateCount? {
      AllocateRows(w.t, w'.t, m.e.uid, m.e.count);
      hide Allocates;
    }
  }

  /** Moves of the plan lead from one state to the other, keep what they keep, and leave no more work than before. */
  ghost predicate Onward(book: Book, plan: int, goals: seq<Stack>, steps: seq<Planner.Step>, w: World, w': World,
                         works: bool) {
    && CanReach(book, plan, w, w') && Going(book, plan, goals, steps, w')
    && 0 <= Rank(w'.t) <= Rank(w.t) && (works ==> Rank(w'.t) < Rank(w.t))
  }

  lemma OnwardByMove(book: Book, plan: int, goals: seq<Stack>, steps: seq<Planner.Step>, w: World, m: Move, w': World)
    requires Going(book, plan, goals, steps, w) && PlanRuns.Step(book, plan, w, m, w')
    ensures Onward(book, plan, goals, steps, w, w', Works(m))
  {
    ReachByMove(book, plan, w, m, w');
    assert Valid(book, w.t);
    StepKeepsInv(book, plan, goals, steps, w, m, w');
    assert Valid(book, w'.t);
    RankFalls(book, plan, w, m, w');
    RankNonNegative(book, w'.t);
    StepKeepsCrafts(book, plan, steps, w, m, w');
    StepKeepsReserved(book, plan, w, m, w');
    StepKeepsCatalysts(book, plan, steps, w, m, w');
    hide Inv, CanReach, PlanRuns.Step, Rank, AllCatalystsHeld;
  }

  lemma OnwardSelf(book: Book, plan: int, goals: seq<Stack>, steps: seq<Planner.Step>, w: World)
    requires Going(book, plan, goals, steps, w)
    ensures Onward(book, plan, goals, steps, w, w, false)
  {
    ReachSelf(book, plan, w);
    RankNonNegative(book, w.t);
    hide CanReach, Rank;
  }

  lemma OnwardJoins(book: Book, plan: int, goals: seq<Stack>, steps: seq<Planner.Step>, w: World, mid: World,
                    w': World, a: bool, b: bool)
    requires Onward(book, plan, goals, steps, w, mid, a) && Onward(book, plan, goals, steps, mid, w', b)
    ensures Onward(book, plan, goals, steps, w, w', a || b)
  {
    hide CanReach, Going, Rank;
    ReachJoins(book, plan, w, mid, w');
  }

  lemma OnwardFacts(book: Book, plan: int, goals: seq<Stack>, steps: seq<Planner.Step>, w: World, w': World,
                    works: bool)
    requires Onward(book, plan, goals, steps, w, w', works)
    ensures Going(book, plan, goals, steps, w') && CanReach(book, plan, w, w')
    ensures 0 <= Rank(w'.t) <= Rank(w.t) && (works ==> Rank(w'.t) < Rank(w.t))
  {
  }

  /** One step of a check is nothing, or a submission. */
  lemma CheckedStepOnward(book: Book, plan: int, goals: seq<Stack>, steps: seq<Planner.Step>, w: World, p: PlanStep,
                          t': Tables)
    requires Going(book, plan, goals, steps, w) && FreshStep(book, w.t, plan, p) && StepChecked(book, w.t, plan, p, t')
    ensures Onward(book, plan, goals, steps, w, World(t', w.phys), t' != w.t)
  {
    hide Going, Onward, Fits, CanInsertCraft, AfterInsertCraft;
    if CanSubmit(book, w.t, plan, p) {
      var id, n :| Submits(book, w.t, plan, p, id, n, t');
      var e := InsertCraft(id, plan, p.recipe, n);
      assert Next(book, w.t, e, t');
      OnwardByMove(book, plan, goals, steps, w, Move.Ledger(e), World(t', w.phys));
      InsertChanges(book, w.t, id, plan, book[p.recipe], n);
    } else {
      OnwardSelf(book, plan, goals, steps, w);
      assert World(t', w.phys) == w;
    }
  }

  lemma InsertChanges(book: Book, t: Tables, id: int, plan: int, r: Recipe, n: int)
    requires CanInsertCraft(t, plan, r, n) && id !in t.crafts
    ensures AfterInsertCraft(t, id, plan, r, n) != t
  {
    assert id in AfterInsertCraft(t, id, plan, r, n).crafts;
  }

  lemma {:induction false} WalkOnward(book: Book, plan: int, goals: seq<Stack>, steps: seq<Planner.Step>, w: World,
                                      listed: seq<PlanStep>, trace: seq<Tables>, n: nat)
    requires Going(book, plan, goals, steps, w) && Walked(book, plan, listed, trace) && trace[0] == w.t
    requires Fresh(book, w.t, plan, listed) && n <= |listed|
    ensures Onward(book, plan, goals, steps, w, World(trace[n], w.phys), trace[n] != w.t)
  {
    hide Going, Onward, Fresh, FreshStep, StepChecked;
    if n == 0 {
      OnwardSelf(book, plan, goals, steps, w);
      assert World(trace[0], w.phys) == w;
    } else {
      var mid := World(trace[n - 1], w.phys);
      WalkOnward(book, plan, goals, steps, w, listed, trace, n - 1);
      OnwardFacts(book, plan, goals, steps, w, mid, trace[n - 1] != w.t);
      WalkFacts(book, w.t, plan, listed, trace, n - 1);
      assert StepChecked(book, trace[n - 1], plan, listed[n - 1], trace[n - 1 + 1]);
      CheckedStepOnward(book, plan, goals, steps, mid, listed[n - 1], trace[n]);
      OnwardJoins(book, plan, goals, steps, w, mid, World(trace[n], w.phys), trace[n - 1] != w.t,
        trace[n] != trace[n - 1]);
      WalkFacts(book, w.t, plan, listed, trace, n);
      OnwardWeakens(book, plan, goals, steps, w, World(trace[n], w.phys),
        trace[n - 1] != w.t || trace[n] != trace[n - 1], trace[n] != w.t);
    }
  }

  lemma OnwardWeakens(book: Book, plan: int, goals: seq<Stack>, steps: seq<Planner.Step>, w: World, w': World, a: bool,
                      b: bool)
    requires Onward(book, plan, goals, steps, w, w', a) && (b ==> a)
    ensures Onward(book, plan, goals, steps, w, w', b)
  {
  }

  /** A whole check is a run of submissions and a cleanup. */
  lemma CheckOnward(book: Book, plan: int, goals: seq<Stack>, steps: seq<Planner.Step>, w: World,
                    listed: seq<PlanStep>, trace: seq<Tables>, t': Tables)
    requires Going(book, plan, goals, steps, w) && Fresh(book, w.t, plan, listed)
    requires Checked(book, w.t, plan, listed, trace, t')
    ensures Onward(book, plan, goals, steps, w, World(t', w.phys), trace[|listed|] != w.t)
  {
    WalkRows(book, plan, w.t, listed, trace, t');
    hide Going, Onward, Fresh, Walked;
    var n := |listed|;
    var mid := World(trace[n], w.phys);
    WalkOnward(book, plan, goals, steps, w, listed, trace, n);
    if trace[n] == w.t {
      assert World(t', w.phys) == mid;
    } else {
      OnwardFacts(book, plan, goals, steps, w, mid, true);
      OnwardByMove(book, plan, goals, steps, mid, Move.Ledger(Cleanup(plan)), World(t', w.phys));
      OnwardJoins(book, plan, goals, steps, w, mid, World(t', w.phys), true, false);
    }
  }

  // ---------------------------------------------------------------- where the items are

  /** What is out of storage for a craft: the inputs of an export, or the catalysts of committed repeats. */
  function LentBy(r: Recipe, committed: int, out: int, u: Uid): int {
    Intake(r, u) * out + AmountOf(r.catalysts, u) * committed
  }

  function LentOf(book: Book, t: Tables, held: map<int, int>, id: int, u: Uid): int {
    if id in t.crafts then LentBy(RecipeOf(book, t.crafts[id].recipe), t.crafts[id].committed, Get(held, id), u) else 0
  }

  ghost function Lent(book: Book, t: Tables, held: map<int, int>, u: Uid): map<int, int> {
    map c | c in t.crafts :: LentOf(book, t, held, c, u)
  }

  /** An item of the stock is stored, among the results, or lent. */
  ghost predicate PlacedItem(book: Book, s: Code, u: Uid) {
    && Get(s.stored, u) >= 0 && Get(s.results, u) >= 0
    && Get(s.w.phys, u) == Get(s.stored, u) + Get(s.results, u) + Sum(Lent(book, s.w.t, s.held, u))
  }

  ghost predicate Placed(book: Book, s: Code) {
    forall u :: PlacedItem(book, s, u)
  }

  ghost predicate CodeInv(book: Book, services: Services, plan: int, goals: seq<Stack>, steps: seq<Planner.Step>,
                          s: Code) {
    Going(book, plan, goals, steps, s.w) && Orderly(book, services, s) && Placed(book, s)
  }

  /** Changing one craft changes what is lent by the difference for it. */
  lemma LentMoves(book: Book, t: Tables, held: map<int, int>, t': Tables, held': map<int, int>, id: int, u: Uid)
    requires t'.crafts - {id} == t.crafts - {id} && forall c :: c != id ==> Get(held', c) == Get(held, c)
    ensures Sum(Lent(book, t', held', u)) - LentOf(book, t', held', id, u)
         == Sum(Lent(book, t, held, u)) - LentOf(book, t, held, id, u)
  {
    hide LentBy, RecipeOf;
    var before, after := Lent(book, t, held, u), Lent(book, t', held', u);
    forall c | c != id
      ensures (c in t'.crafts <==> c in t.crafts) && (c in t.crafts ==> t'.crafts[c] == t.crafts[c])
    {
      assert c in t.crafts <==> c in t.crafts - {id};
      assert c in t'.crafts <==> c in t'.crafts - {id};
      assert c in t.crafts ==> (t.crafts - {id})[c] == t.crafts[c];
      assert c in t'.crafts ==> (t'.crafts - {id})[c] == t'.crafts[c];
    }
    assert after - {id} == before - {id};
    if id in t.crafts {
      SumRemove(before, id);
    } else {
      assert before - {id} == before;
    }
    if id in t'.crafts {
      SumRemove(after, id);
    } else {
      assert after - {id} == after;
    }
  }

  lemma SameLent(book: Book, t: Tables, held: map<int, int>, t': Tables, u: Uid)
    requires t'.crafts.Keys == t.crafts.Keys
    requires forall c :: c in t.crafts ==>
      t'.crafts[c].recipe == t.crafts[c].recipe && t'.crafts[c].committed == t.crafts[c].committed
    ensures Sum(Lent(book, t', held, u)) == Sum(Lent(book, t, held, u))
  {
    assert Lent(book, t', held, u) == Lent(book, t, held, u);
  }

  lemma SamePlaced(book: Book, s: Code, s': Code)
    requires Placed(book, s) && s'.w.t.crafts.Keys == s.w.t.crafts.Keys
    requires forall c :: c in s.w.t.crafts ==>
      s'.w.t.crafts[c].recipe == s.w.t.crafts[c].recipe && s'.w.t.crafts[c].committed == s.w.t.crafts[c].committed
    requires s' == s.(w := World(s'.w.t, s.w.phys), dirty := s'.dirty)
    ensures Placed(book, s')
  {
    hide Sum, Lent, RecipeOf;
    forall u ensures PlacedItem(book, s', u) {
      assert PlacedItem(book, s, u);
      SameLent(book, s.w.t, s.held, s'.w.t, u);
    }
  }

  /** No count of the storage exceeds the stock. */
  lemma StoredIsThere(book: Book, services: Services, plan: int, goals: seq<Stack>, steps: seq<Planner.Step>, s: Code,
                      u: Uid)
    requires CodeInv(book, services, plan, goals, steps, s) && forall id :: id in s.held ==> s.held[id] >= 0
    ensures 0 <= Get(s.stored, u) <= Get(s.w.phys, u)
  {
    forall c | c in s.w.t.crafts ensures Lent(book, s.w.t, s.held, u)[c] >= 0 {
      LentNonNegative(book, s.w.t, s.held, c, u);
    }
    SumNonNegative(Lent(book, s.w.t, s.held, u));
    assert PlacedItem(book, s, u);
  }

  lemma LentNonNegative(book: Book, t: Tables, held: map<int, int>, c: int, u: Uid)
    requires Valid(book, t) && c in t.crafts && Get(held, c) >= 0
    ensures LentOf(book, t, held, c, u) >= 0
  {
    assert GoodCraft(book, t.crafts[c]) && GoodBook(book);
    hide Valid, Intake, AmountOf;
    RecipeIntake(book, t.crafts[c].recipe, Get(held, c), u);
    OutputsNonNegative(book, t.crafts[c].recipe, t.crafts[c].committed, u);
  }

  /** Where every recipe is served, an export is of one to all repeats. */
  lemma HeldCounts(book: Book, services: Services, plan: int, goals: seq<Stack>, steps: seq<Planner.Step>, s: Code,
                   id: int)
    requires Going(book, plan, goals, steps, s.w) && Orderly(book, services, s) && AllServed(book, services, steps)
      && id in s.held
    ensures CanCommit(s.w.t, id) && 1 <= s.held[id] <= s.w.t.crafts[id].repeats
    ensures s.held[id] == Portion(s.held[id]) && s.w.t.crafts[id].recipe in services
  {
    assert CanCommit(s.w.t, id) && GoodCraft(book, s.w.t.crafts[id]);
    var a :| 0 <= a <= |steps| && a < |steps| && steps[a].recipe.id == s.w.t.crafts[id].recipe;
    assert Served(book, services, steps[a].recipe.id);
  }

  lemma HeldNonNegative(book: Book, services: Services, plan: int, goals: seq<Stack>, steps: seq<Planner.Step>, s: Code)
    requires Going(book, plan, goals, steps, s.w) && Orderly(book, services, s) && AllServed(book, services, steps)
    ensures forall id :: id in s.held ==> s.held[id] >= 0
  {
    hide Going, Orderly, AllServed;
    forall id | id in s.held ensures s.held[id] >= 0 {
      HeldCounts(book, services, plan, goals, steps, s, id);
    }
  }

  lemma ExportFacts(book: Book, services: Services, s: Code, id: int, s': Code)
    requires ExportStep(book, services, s, id, s') && s'.held[id] >= 1
    ensures id in s.w.t.crafts && s'.w == s.w && s'.results == s.results
    ensures id !in s.held && id in s'.held && s'.held == s.held[id := s'.held[id]]
    ensures var r, n := RecipeOf(book, s.w.t.crafts[id].recipe), s'.held[id];
      s'.stored == PlusInputs(s.stored, r, -n) && forall u :: Intake(r, u) > 0 ==> Intake(r, u) * n <= Get(s.stored, u)
  {
    hide PlusInputs, RecipeOf, Intake, Batch;
  }

  lemma PutBackFacts(book: Book, s: Code, id: int, s': Code)
    requires PutBackStep(book, s, id, s') && s.held[id] >= 1
    ensures id in s.w.t.crafts && s'.w == s.w && s'.results == s.results && id in s.held && s'.held == s.held - {id}
    ensures s'.stored == PlusInputs(s.stored, RecipeOf(book, s.w.t.crafts[id].recipe), s.held[id])
  {
    hide PlusInputs, RecipeOf;
  }

  lemma LentShifts(r: Recipe, committed: int, out: int, k: int, u: Uid)
    ensures LentBy(r, committed, out + k, u) == LentBy(r, committed, out, u) + Intake(r, u) * k
    ensures Intake(r, u) * -k == -(Intake(r, u) * k)
  {
    Distributes(Intake(r, u), out, k);
    hide Intake, AmountOf;
  }

  /** Taking inputs out of storage for a craft, or putting them back, changes what is lent by as much. */
  lemma TakenPlaced(book: Book, s: Code, id: int, k: int, s': Code, u: Uid)
    requires PlacedItem(book, s, u) && id in s.w.t.crafts && s'.w == s.w && s'.results == s.results
    requires Get(s'.held, id) == Get(s.held, id) + k && forall c :: c != id ==> Get(s'.held, c) == Get(s.held, c)
    requires s'.stored == PlusInputs(s.stored, RecipeOf(book, s.w.t.crafts[id].recipe), -k) && Get(s'.stored, u) >= 0
    ensures PlacedItem(book, s', u)
  {
    hide Sum, Lent, PlusInputs, Intake, AmountOf, RecipeOf, LentBy;
    var r := RecipeOf(book, s.w.t.crafts[id].recipe);
    PlusInputsGet(s.stored, r, -k, u);
    LentMoves(book, s.w.t, s.held, s'.w.t, s'.held, id, u);
    LentShifts(r, s.w.t.crafts[id].committed, Get(s.held, id), k, u);
  }

  lemma ExportedStock(book: Book, s: Code, recipe: int, n: int, u: Uid)
    requires GoodBook(book) && n >= 0 && Get(s.stored, u) >= 0
    requires Intake(RecipeOf(book, recipe), u) > 0 ==> Intake(RecipeOf(book, recipe), u) * n <= Get(s.stored, u)
    ensures Get(PlusInputs(s.stored, RecipeOf(book, recipe), -n), u) >= 0
  {
    PlusInputsGet(s.stored, RecipeOf(book, recipe), -n, u);
    RecipeIntake(book, recipe, n, u);
    hide PlusInputs, GoodBook, Intake, RecipeOf;
  }

  lemma ExportPlaced(book: Book, services: Services, s: Code, id: int, s': Code)
    requires Placed(book, s) && GoodBook(book) && ExportStep(book, services, s, id, s') && s'.held[id] >= 1
    ensures Placed(book, s')
  {
    ExportFacts(book, services, s, id, s');
    hide ExportStep, Intake, InputsStored, PlusInputs, GoodBook, RecipeOf, Sum, Lent;
    var n := s'.held[id];
    forall u ensures PlacedItem(book, s', u) {
      assert PlacedItem(book, s, u);
      ExportedStock(book, s, s.w.t.crafts[id].recipe, n, u);
      TakenPlaced(book, s, id, n, s', u);
    }
  }

  lemma RecipeIntake(book: Book, recipe: int, n: int, u: Uid)
    requires GoodBook(book) && n >= 0
    ensures Intake(RecipeOf(book, recipe), u) >= 0 && Intake(RecipeOf(book, recipe), u) * n >= 0
    ensures Intake(RecipeOf(book, recipe), u) == 0 ==> Intake(RecipeOf(book, recipe), u) * n == 0
    ensures Intake(RecipeOf(book, recipe), u) * -n == -(Intake(RecipeOf(book, recipe), u) * n)
  {
    IntakePositive(RecipeOf(book, recipe), u);
  }

  lemma PutBackPlaced(book: Book, s: Code, id: int, s': Code)
    requires Placed(book, s) && GoodBook(book) && PutBackStep(book, s, id, s') && s.held[id] >= 1
    ensures Placed(book, s')
  {
    PutBackFacts(book, s, id, s');
    hide PutBackStep, Intake;
    var r, n := RecipeOf(book, s.w.t.crafts[id].recipe), s.held[id];
    forall u ensures PlacedItem(book, s', u) {
      PlusInputsGet(s.stored, r, n, u);
      RecipeIntake(book, s.w.t.crafts[id].recipe, n, u);
      hide PlusInputs, GoodBook;
      assert PlacedItem(book, s, u);
      TakenPlaced(book, s, id, -n, s', u);
    }
  }

  lemma StartedLent(book: Book, services: Services, t: Tables, id: int, n: int, u: Uid)
    requires CanCommit(t, id) && t.crafts[id].recipe in services
    ensures var r := RecipeOf(book, t.crafts[id].recipe);
      LentOf(book, Started(services, t, id, r, n), map[], id, u)
        == if Direct(services, t.crafts[id].recipe) then 0 else AmountOf(r.catalysts, u) * n
  {
    hide Release, AmountOf, RecipeOf, Intake;
  }

  lemma StartPlaced(book: Book, services: Services, s: Code, id: int, s': Code)
    requires Placed(book, s) && GoodBook(book) && StartStep(book, services, s, id, s') && s.held[id] >= 1
    ensures Placed(book, s')
  {
    StartFacts(book, services, s, id, s');
    hide StartStep;
    forall u ensures PlacedItem(book, s', u) {
      assert PlacedItem(book, s, u);
      StartPlacedItem(book, services, s, id, s', u);
    }
  }

  lemma StartFacts(book: Book, services: Services, s: Code, id: int, s': Code)
    requires StartStep(book, services, s, id, s') && s.held[id] >= 1
    ensures var t, n := s.w.t, s.held[id];
      var r, done := RecipeOf(book, t.crafts[id].recipe), Direct(services, t.crafts[id].recipe);
      var used := Plus(s.w.phys, r.ingredients, -n);
      && CanCommit(t, id) && t.crafts[id].recipe in services && s'.w.t == Started(services, t, id, r, n)
      && s'.w.phys == (if done then Plus(used, r.results, n) else used)
      && s'.results == (if done then PlusOutputs(s.results, r, n) else s.results)
      && s'.stored == s.stored && s'.held == s.held - {id}
      && t.crafts[id].committed == 0 && s'.w.t.crafts - {id} == t.crafts - {id}
  {
    StartedRows(services, s.w.t, id, RecipeOf(book, s.w.t.crafts[id].recipe), s.held[id]);
    hide Plus, PlusOutputs, RecipeOf, Started, Unengaged, Direct;
  }

  lemma StartPlacedItem(book: Book, services: Services, s: Code, id: int, s': Code, u: Uid)
    requires PlacedItem(book, s, u) && GoodBook(book) && id in s.held && s.held[id] >= 1
    requires CanCommit(s.w.t, id) && s.w.t.crafts[id].recipe in services
    requires var t, n := s.w.t, s.held[id];
      var r, done := RecipeOf(book, t.crafts[id].recipe), Direct(services, t.crafts[id].recipe);
      var used := Plus(s.w.phys, r.ingredients, -n);
      && s'.w.t == Started(services, t, id, r, n)
      && s'.w.phys == (if done then Plus(used, r.results, n) else used)
      && s'.results == (if done then PlusOutputs(s.results, r, n) else s.results)
      && s'.stored == s.stored && s'.held == s.held - {id}
      && t.crafts[id].committed == 0 && s'.w.t.crafts - {id} == t.crafts - {id}
    ensures PlacedItem(book, s', u)
  {
    hide Sum, Lent, Plus, PlusOutputs, Intake, AmountOf, RecipeOf, GoodBook, Started, LentOf, Direct, Yield;
    var t, n := s.w.t, s.held[id];
    var r := RecipeOf(book, t.crafts[id].recipe);
    LentMoves(book, t, s.held, s'.w.t, s'.held, id, u);
    StartedLent(book, services, t, id, n, u);
    LentAround(book, t, s.held, s'.w.t, id, u);
    PlusGet(s.w.phys, r.ingredients, -n, u);
    PlusGet(Plus(s.w.phys, r.ingredients, -n), r.results, n, u);
    PlusOutputsGet(s.results, r, n, u);
    LineAmounts(r, n, u);
    OutputsNonNegative(book, t.crafts[id].recipe, n, u);
  }

  lemma LentAround(book: Book, t: Tables, held: map<int, int>, t': Tables, id: int, u: Uid)
    requires id in t.crafts && t.crafts[id].committed == 0 && id in held
    ensures LentOf(book, t, held, id, u) == Intake(RecipeOf(book, t.crafts[id].recipe), u) * held[id]
    ensures LentOf(book, t', held - {id}, id, u) == LentOf(book, t', map[], id, u)
  {
    hide Intake, AmountOf, RecipeOf;
  }

  lemma LineAmounts(r: Recipe, n: int, u: Uid)
    ensures Intake(r, u) * n == AmountOf(r.ingredients, u) * n + AmountOf(r.catalysts, u) * n
    ensures AmountOf(r.ingredients, u) * -n == -(AmountOf(r.ingredients, u) * n)
    ensures Yield(r, u, n) == AmountOf(r.results, u) * n
  {
    hide AmountOf;
    AddedTimes(AmountOf(r.ingredients, u), AmountOf(r.catalysts, u), n);
  }

  lemma AddedTimes(a: int, b: int, n: int)
    ensures (a + b) * n == a * n + b * n && a * -n == -(a * n)
  {
  }

  lemma OutputsNonNegative(book: Book, recipe: int, n: int, u: Uid)
    requires GoodBook(book) && n >= 0
    ensures Yield(RecipeOf(book, recipe), u, n) >= 0 && AmountOf(RecipeOf(book, recipe).catalysts, u) * n >= 0
  {
    var r := RecipeOf(book, recipe);
    PositiveWhenMentioned(r.results, u);
    PositiveWhenMentioned(r.catalysts, u);
  }

  /** The tables after a completion. */
  lemma FinishedRows(book: Book, services: Services, s: Code, id: int, s': Code)
    requires FinishStep(book, services, s, id, s') && WaitsMatch(services, s.w.t)
    ensures s'.w.t.crafts - {id} == s.w.t.crafts - {id}
    ensures id in s'.w.t.crafts ==> s'.w.t.crafts[id].committed == 0
    ensures id in s'.w.t.crafts ==> SameHands(s.w.t.crafts[id], s'.w.t.crafts[id])
    ensures s.w.t.crafts[id].status.Committed?
  {
    hide Plus, PlusOutputs, RecipeOf;
  }

  lemma FinishFacts(book: Book, services: Services, s: Code, id: int, s': Code)
    requires FinishStep(book, services, s, id, s') && Orderly(book, services, s) && s.w.t.crafts[id].committed >= 0
    ensures var r, n := RecipeOf(book, s.w.t.crafts[id].recipe), s.w.t.crafts[id].committed;
      && s'.w.phys == Plus(s.w.phys, r.results, n) && s'.results == PlusOutputs(s.results, r, n)
      && s'.stored == s.stored && s'.held == s.held && id !in s.held
      && s'.w.t.crafts - {id} == s.w.t.crafts - {id} && (id in s'.w.t.crafts ==> s'.w.t.crafts[id].committed == 0)
  {
    FinishedRows(book, services, s, id, s');
    NotHeld(book, services, s, id);
    hide Plus, PlusOutputs, RecipeOf, Orderly, AfterComplete, DropWait;
    assert id !in s.held - {id};
  }

  lemma FinishPlacedItem(book: Book, s: Code, id: int, s': Code, u: Uid)
    requires PlacedItem(book, s, u) && GoodBook(book) && id in s.w.t.crafts && s.w.t.crafts[id].committed >= 0
    requires var r, n := RecipeOf(book, s.w.t.crafts[id].recipe), s.w.t.crafts[id].committed;
      && s'.w.phys == Plus(s.w.phys, r.results, n) && s'.results == PlusOutputs(s.results, r, n)
      && s'.stored == s.stored && s'.held == s.held && id !in s.held
      && s'.w.t.crafts - {id} == s.w.t.crafts - {id} && (id in s'.w.t.crafts ==> s'.w.t.crafts[id].committed == 0)
    ensures PlacedItem(book, s', u)
  {
    hide Sum, Lent, Plus, PlusOutputs, AmountOf, RecipeOf, GoodBook, Yield, Intake, LentOf;
    var r, n := RecipeOf(book, s.w.t.crafts[id].recipe), s.w.t.crafts[id].committed;
    LentMoves(book, s.w.t, s.held, s'.w.t, s'.held, id, u);
    LentIdle(book, s.w.t, s.held, id, u);
    LentIdle(book, s'.w.t, s'.held, id, u);
    PlusGet(s.w.phys, r.results, n, u);
    PlusOutputsGet(s.results, r, n, u);
    OutputsNonNegative(book, s.w.t.crafts[id].recipe, n, u);
    LineAmounts(r, n, u);
  }

  lemma LentIdle(book: Book, t: Tables, held: map<int, int>, id: int, u: Uid)
    requires id !in held
    ensures id in t.crafts ==>
      LentOf(book, t, held, id, u) == AmountOf(RecipeOf(book, t.crafts[id].recipe).catalysts,
        u) * t.crafts[id].committed
    ensures id in t.crafts && t.crafts[id].committed == 0 ==> LentOf(book, t, held, id, u) == 0
    ensures id !in t.crafts ==> LentOf(book, t, held, id, u) == 0
  {
    hide AmountOf, RecipeOf, Intake;
  }

  lemma FinishPlaced(book: Book, services: Services, s: Code, id: int, s': Code)
    requires Placed(book, s) && GoodBook(book) && FinishStep(book, services, s, id, s') && Orderly(book, services, s)
    requires s.w.t.crafts[id].committed >= 0
    ensures Placed(book, s')
  {
    assert id in s.w.t.crafts;
    FinishFacts(book, services, s, id, s');
    hide FinishStep, Orderly, GoodBook, PlacedItem, RecipeOf, Plus, PlusOutputs;
    forall u ensures PlacedItem(book, s', u) {
      assert PlacedItem(book, s, u);
      FinishPlacedItem(book, s, id, s', u);
    }
  }

  lemma {:induction false} WalkPlaced(book: Book, services: Services, plan: int, s: Code, listed: seq<PlanStep>,
      trace: seq<Tables>, n: nat)
    requires Placed(book, s) && Orderly(book, services, s) && Walked(book, plan, listed, trace) && trace[0] == s.w.t
    requires Fresh(book, s.w.t, plan, listed) && n <= |listed|
    ensures Placed(book, s.(w := World(trace[n], s.w.phys)))
  {
    var s' := s.(w := World(trace[n], s.w.phys));
    if n == 0 {
      assert s' == s;
    } else {
      var before := s.(w := World(trace[n - 1], s.w.phys));
      WalkPlaced(book, services, plan, s, listed, trace, n - 1);
      WalkOrderly(book, services, plan, s, listed, trace, n - 1);
      assert StepChecked(book, trace[n - 1], plan, listed[n - 1], trace[n - 1 + 1]);
      assert FreshStep(book, s.w.t, plan, listed[n - 1]);
      hide Orderly, StepChecked, FreshStep, Walked, Placed;
      StepRows(book, trace[n - 1], plan, listed[n - 1], trace[n]);
      if trace[n].crafts == trace[n - 1].crafts {
        SamePlaced(book, before, s');
      } else {
        var id, k :| id !in trace[n - 1].crafts && k >= 1
          && trace[n].crafts == trace[n - 1].crafts[id := Craft(plan, listed[n - 1].recipe, None, Pending, k, 0)];
        CraftAddedPlaced(book, services, before, s', id, Craft(plan, listed[n - 1].recipe, None, Pending, k, 0));
      }
    }
  }

  lemma CraftAddedPlaced(book: Book, services: Services, s: Code, s': Code, id: int, c: Craft)
    requires Placed(book, s) && Orderly(book, services, s) && id !in s.w.t.crafts && c.committed == 0
    requires s'.w.t.crafts == s.w.t.crafts[id := c] && s' == s.(w := World(s'.w.t, s.w.phys))
    ensures Placed(book, s')
  {
    assert id !in s.held;
    assert s'.w.t.crafts - {id} == s.w.t.crafts - {id};
    hide Sum, Lent, RecipeOf, Orderly;
    forall u ensures PlacedItem(book, s', u) {
      assert PlacedItem(book, s, u);
      LentMoves(book, s.w.t, s.held, s'.w.t, s'.held, id, u);
    }
  }

  // ---------------------------------------------------------------- starts and completions as plan moves

  lemma TakenByPlus(book: Book, w: World, w': World, id: int, n: int)
    requires id in w.t.crafts && w'.phys == Plus(w.phys, RecipeOf(book, w.t.crafts[id].recipe).ingredients, -n)
    ensures Taken(book, w, w', id, n)
  {
    var r := RecipeOf(book, w.t.crafts[id].recipe);
    hide Plus, AmountOf, RecipeOf;
    forall u ensures Get(w'.phys, u) == Get(w.phys, u) - Need(r, u, n) {
      PlusGet(w.phys, r.ingredients, -n, u);
      LineAmounts(r, n, u);
    }
  }

  lemma ReturnedByPlus(book: Book, w: World, w': World, id: int)
    requires id in w.t.crafts
    requires w'.phys == Plus(w.phys, RecipeOf(book, w.t.crafts[id].recipe).results, w.t.crafts[id].committed)
    ensures Returned(book, w, w', id)
  {
    var r := RecipeOf(book, w.t.crafts[id].recipe);
    hide Plus, AmountOf, RecipeOf;
    forall u ensures Get(w'.phys, u) == Get(w.phys, u) + Yield(r, u, w.t.crafts[id].committed) {
      PlusGet(w.phys, r.results, w.t.crafts[id].committed, u);
    }
  }

  lemma CommitIsMove(book: Book, plan: int, w: World, id: int, n: int, w': World)
    requires CanCommit(w.t, id) && 1 <= n <= w.t.crafts[id].repeats
    requires w' == World(AfterCommit(w.t, id, RecipeOf(book, w.t.crafts[id].recipe), n),
                         Plus(w.phys, RecipeOf(book, w.t.crafts[id].recipe).ingredients, -n))
    ensures PlanRuns.Step(book, plan, w, Move.Ledger(Commit(id, n)), w')
  {
    TakenByPlus(book, w, w', id, n);
    hide Taken, Plus, AfterCommit, RecipeOf;
  }

  lemma CommitAndWaitIsMove(book: Book, plan: int, w: World, id: int, worker: string, w': World)
    requires CanCommit(w.t, id) && 1 <= w.t.crafts[id].repeats
    requires w' == World(AddWait(AfterCommit(w.t, id, RecipeOf(book, w.t.crafts[id].recipe), 1), id, worker),
                         Plus(w.phys, RecipeOf(book, w.t.crafts[id].recipe).ingredients, -1))
    ensures PlanRuns.Step(book, plan, w, Move.Ledger(CommitAndWait(id, worker)), w')
  {
    TakenByPlus(book, w, w', id, 1);
    hide Taken, Plus, AfterCommit, RecipeOf, AddWait;
  }

  lemma CompleteIsMove(book: Book, plan: int, w: World, id: int, w': World)
    requires id in w.t.crafts && w.t.crafts[id].status.Committed? && forall x :: x in w.t.waits ==> x.craft != id
    requires w' == World(AfterComplete(w.t, id),
                         Plus(w.phys, RecipeOf(book, w.t.crafts[id].recipe).results, w.t.crafts[id].committed))
    ensures PlanRuns.Step(book, plan, w, Move.Ledger(Complete(id)), w')
  {
    ReturnedByPlus(book, w, w', id);
    hide Returned, Plus, AfterComplete, RecipeOf;
  }

  lemma CompleteWaitIsMove(book: Book, plan: int, w: World, id: int, worker: string, w': World)
    requires id in w.t.crafts && Wait(worker, id) in w.t.waits
    requires forall x :: x in w.t.waits && x.craft == id ==> x.worker == worker
    requires w' == World(AfterComplete(DropWait(w.t, id, worker), id),
                         Plus(w.phys, RecipeOf(book, w.t.crafts[id].recipe).results, w.t.crafts[id].committed))
    ensures PlanRuns.Step(book, plan, w, Move.Ledger(CompleteWait(id, worker)), w')
  {
    ReturnedByPlus(book, w, w', id);
    hide Returned, Plus, AfterComplete, RecipeOf, DropWait;
  }

  /** A machine takes one repeat at a time. */
  lemma MachineTakesOne(book: Book, services: Services, plan: int, goals: seq<Stack>, steps: seq<Planner.Step>,
                        s: Code, id: int)
    requires Going(book, plan, goals, steps, s.w) && Orderly(book, services, s) && AllServed(book, services, steps)
      && id in s.held
    requires services[s.w.t.crafts[id].recipe].Processing?
    ensures s.held[id] == 1
  {
    HeldCounts(book, services, plan, goals, steps, s, id);
    hide Going, WaitsMatch, AllServed, CanCommit;
  }

  lemma CommitOnward(book: Book, plan: int, goals: seq<Stack>, steps: seq<Planner.Step>, w: World, id: int, n: int,
                     w': World)
    requires Going(book, plan, goals, steps, w) && CanCommit(w.t, id) && 1 <= n <= w.t.crafts[id].repeats
    requires w' == World(AfterCommit(w.t, id, RecipeOf(book, w.t.crafts[id].recipe), n),
                         Plus(w.phys, RecipeOf(book, w.t.crafts[id].recipe).ingredients, -n))
    ensures Onward(book, plan, goals, steps, w, w', false)
  {
    CommitIsMove(book, plan, w, id, n, w');
    hide Going, Onward, PlanRuns.Step, AfterCommit, Plus, RecipeOf, CanCommit;
    OnwardByMove(book, plan, goals, steps, w, Move.Ledger(Commit(id, n)), w');
  }

  lemma WaitOnward(book: Book, plan: int, goals: seq<Stack>, steps: seq<Planner.Step>, w: World, id: int,
                   worker: string, w': World)
    requires Going(book, plan, goals, steps, w) && CanCommit(w.t, id) && 1 <= w.t.crafts[id].repeats
    requires w' == World(AddWait(AfterCommit(w.t, id, RecipeOf(book, w.t.crafts[id].recipe), 1), id, worker),
                         Plus(w.phys, RecipeOf(book, w.t.crafts[id].recipe).ingredients, -1))
    ensures Onward(book, plan, goals, steps, w, w', false)
  {
    CommitAndWaitIsMove(book, plan, w, id, worker, w');
    hide Going, Onward, PlanRuns.Step, AfterCommit, AddWait, Plus, RecipeOf, CanCommit;
    OnwardByMove(book, plan, goals, steps, w, Move.Ledger(CommitAndWait(id, worker)), w');
  }

  /** A machine that completes at once commits and completes one repeat. */
  lemma DirectOnward(book: Book, plan: int, goals: seq<Stack>, steps: seq<Planner.Step>, w: World, id: int, n: int,
                     mid: World, w': World)
    requires Going(book, plan, goals, steps, w) && CanCommit(w.t, id) && 1 <= n <= w.t.crafts[id].repeats
    requires mid == World(AfterCommit(w.t, id, RecipeOf(book, w.t.crafts[id].recipe), n),
                          Plus(w.phys, RecipeOf(book, w.t.crafts[id].recipe).ingredients, -n))
    requires w' == World(AfterComplete(mid.t, id), Plus(mid.phys, RecipeOf(book, w.t.crafts[id].recipe).results, n))
    ensures Onward(book, plan, goals, steps, w, w', true)
  {
    CommitOnward(book, plan, goals, steps, w, id, n, mid);
    CommittedRow(w.t, id, RecipeOf(book, w.t.crafts[id].recipe), n);
    hide Going, Onward, PlanRuns.Step, AfterCommit, AfterComplete, Plus, RecipeOf, CanCommit;
    OnwardFacts(book, plan, goals, steps, w, mid, false);
    CompleteIsMove(book, plan, mid, id, w');
    OnwardByMove(book, plan, goals, steps, mid, Move.Ledger(Complete(id)), w');
    OnwardJoins(book, plan, goals, steps, w, mid, w', false, true);
  }

  lemma StartOnward(book: Book, services: Services, plan: int, goals: seq<Stack>, steps: seq<Planner.Step>, s: Code,
                    id: int, s': Code)
    requires CodeInv(book, services, plan, goals, steps, s) && AllServed(book, services, steps)
    requires StartStep(book, services, s, id, s')
    ensures Onward(book, plan, goals, steps, s.w, s'.w, Direct(services, s.w.t.crafts[id].recipe))
  {
    HeldCounts(book, services, plan, goals, steps, s, id);
    StartFacts(book, services, s, id, s');
    InvParts(book, services, plan, goals, steps, s);
    hide CodeInv, Going, Orderly, AllServed, StartStep, Onward, AfterCommit, AfterComplete, AddWait, Plus, PlusOutputs,
      Placed, Valid, WaitsMatch, GoodBook;
    var t, n := s.w.t, s.held[id];
    var r := RecipeOf(book, t.crafts[id].recipe);
    match services[t.crafts[id].recipe] {
      case Crafting(_) => CommitOnward(book, plan, goals, steps, s.w, id, n, s'.w);
      case Processing(m, _) =>
        MachineTakesOne(book, services, plan, goals, steps, s, id);
        if m.wait {
          WaitOnward(book, plan, goals, steps, s.w, id, m.worker, s'.w);
        } else {
          var mid := World(AfterCommit(t, id, r, n), Plus(s.w.phys, r.ingredients, -n));
          DirectOnward(book, plan, goals, steps, s.w, id, n, mid, s'.w);
        }
    }
  }

  lemma InvParts(book: Book, services: Services, plan: int, goals: seq<Stack>, steps: seq<Planner.Step>, s: Code)
    requires CodeInv(book, services, plan, goals, steps, s)
    ensures Going(book, plan, goals, steps, s.w) && Orderly(book, services, s) && Placed(book, s)
    ensures GoodBook(book) && WaitsMatch(services, s.w.t) && Valid(book, s.w.t)
  {
  }

  lemma CommittedRow(t: Tables, id: int, r: Recipe, n: int)
    requires id in t.crafts
    ensures var t' := AfterCommit(t, id, r, n);
      && id in t'.crafts && t'.crafts[id].status.Committed? && t'.crafts[id].committed == n
      && t'.crafts[id].recipe == t.crafts[id].recipe && forall x :: x in t'.waits ==> x.craft != id
  {
  }

  lemma FinishOnward(book: Book, services: Services, plan: int, goals: seq<Stack>, steps: seq<Planner.Step>, s: Code,
                     id: int, s': Code)
    requires CodeInv(book, services, plan, goals, steps, s) && FinishStep(book, services, s, id, s')
    ensures Onward(book, plan, goals, steps, s.w, s'.w, true) && s.w.t.crafts[id].committed >= 0
  {
    InvParts(book, services, plan, goals, steps, s);
    FinishedRows(book, services, s, id, s');
    assert GoodCraft(book, s.w.t.crafts[id]);
    forall x | x in s.w.t.waits && x.craft == id
      ensures services[s.w.t.crafts[id].recipe].Processing?
        && x.worker == services[s.w.t.crafts[id].recipe].machine.worker
    {
      FinishedWaits(services, s.w.t, id, x);
    }
    hide CodeInv, Going, Orderly, WaitsMatch, Onward, AfterComplete, DropWait, Plus, PlusOutputs, PlanRuns.Step, Valid;
    match services[s.w.t.crafts[id].recipe] {
      case Crafting(_) =>
        CompleteIsMove(book, plan, s.w, id, s'.w);
        OnwardByMove(book, plan, goals, steps, s.w, Move.Ledger(Complete(id)), s'.w);
      case Processing(m, _) =>
        CompleteWaitIsMove(book, plan, s.w, id, m.worker, s'.w);
        OnwardByMove(book, plan, goals, steps, s.w, Move.Ledger(CompleteWait(id, m.worker)), s'.w);
    }
  }

  // ---------------------------------------------------------------- every move

  /** Submissions and completions. */
  predicate CodeWorks(services: Services, s: Code, m: CodeMove, s': Code) {
    || (m.Walk? && s'.w.t != s.w.t)
    || m.Finish?
    || (m.Start? && m.id in s.w.t.crafts && Direct(services, s.w.t.crafts[m.id].recipe))
  }

  lemma WalkStepOnward(book: Book, plan: int, goals: seq<Stack>, steps: seq<Planner.Step>, s: Code,
                       pinged: bool, listed: seq<PlanStep>, trace: seq<Tables>, s': Code)
    requires Going(book, plan, goals, steps, s.w) && WalkStep(book, plan, s, pinged, listed, trace, s')
    ensures Onward(book, plan, goals, steps, s.w, s'.w, s'.w.t != s.w.t)
  {
    hide Going, Onward, Checked, Fresh, Lists;
    CheckOnward(book, plan, goals, steps, s.w, listed, trace, s'.w.t);
    WalkChanges(book, plan, s.w.t, listed, trace, s'.w.t);
    OnwardWeakens(book, plan, goals, steps, s.w, s'.w, trace[|listed|] != s.w.t, s'.w.t != s.w.t);
  }

  lemma ReportOnward(book: Book, services: Services, plan: int, goals: seq<Stack>, steps: seq<Planner.Step>, s: Code,
                     u: Uid, s': Code)
    requires CodeInv(book, services, plan, goals, steps, s) && AllServed(book, services, steps) && ReportStep(s, u, s')
    ensures Onward(book, plan, goals, steps, s.w, s'.w, false)
  {
    InvParts(book, services, plan, goals, steps, s);
    hide CodeInv, Going, Orderly, AllServed, Onward, Allocates, Placed, Valid;
    HeldNonNegative(book, services, plan, goals, steps, s);
    StoredIsThere(book, services, plan, goals, steps, s, u);
    OnwardByMove(book, plan, goals, steps, s.w, Move.Ledger(UpdateCount(u, Get(s.stored, u))), s'.w);
  }

  lemma HireOnward(book: Book, plan: int, goals: seq<Stack>, steps: seq<Planner.Step>, w: World, id: int,
                   worker: string, w': World)
    requires Going(book, plan, goals, steps, w) && id in w.t.crafts && w' == World(AfterAssign(w.t, id, worker), w.phys)
    ensures Onward(book, plan, goals, steps, w, w', false)
  {
    hide Going, Onward, AfterAssign;
    OnwardByMove(book, plan, goals, steps, w, Move.Ledger(Assign(id, worker)), w');
  }

  lemma DeliverOnward(book: Book, plan: int, goals: seq<Stack>, steps: seq<Planner.Step>, w: World, u: Uid, n: int,
                      w': World)
    requires Going(book, plan, goals, steps, w) && n >= 0 && w' == World(w.t, w.phys[u := Get(w.phys, u) + n])
    ensures Onward(book, plan, goals, steps, w, w', false)
  {
    hide Going, Onward;
    OnwardByMove(book, plan, goals, steps, w, Deposit(u, n), w');
  }

  /** Every move of the server is a run of plan moves, of which each submission and completion takes work away. */
  lemma CodeStepOnward(book: Book, services: Services, plan: int, goals: seq<Stack>, steps: seq<Planner.Step>, s: Code,
                       m: CodeMove, s': Code)
    requires CodeInv(book, services, plan, goals, steps, s) && AllServed(book, services, steps)
    requires CodeStep(book, services, plan, s, m, s')
    ensures Onward(book, plan, goals, steps, s.w, s'.w, CodeWorks(services, s, m, s'))
  {
    hide *;
    InvParts(book, services, plan, goals, steps, s);
    StepCases(book, services, plan, s, m, s');
    WorksOnly(services, s, m, s');
    match m
    case Walk(pinged, listed, trace) => WalkStepOnward(book, plan, goals, steps, s, pinged, listed, trace, s');
    case Report(u) => ReportOnward(book, services, plan, goals, steps, s, u, s');
    case Hire(id, worker) => HireOnward(book, plan, goals, steps, s.w, id, worker, s'.w);
    case Start(id) =>
      StartHolds(book, services, s, id, s');
      StartOnward(book, services, plan, goals, steps, s, id, s');
    case Finish(id) => FinishOnward(book, services, plan, goals, steps, s, id, s');
    case Deliver(u, n) => DeliverOnward(book, plan, goals, steps, s.w, u, n, s'.w);
    case _ => OnwardSelf(book, plan, goals, steps, s.w);
  }

  lemma WalkChanges(book: Book, plan: int, t: Tables, listed: seq<PlanStep>, trace: seq<Tables>, t': Tables)
    requires Checked(book, t, plan, listed, trace, t')
    ensures |trace| == |listed| + 1 && (t' != t ==> trace[|listed|] != t)
  {
  }

  lemma ExportHolds(book: Book, services: Services, s: Code, id: int, s': Code)
    requires ExportStep(book, services, s, id, s')
    ensures id in s'.held && s'.w == s.w
  {
    hide PlusInputs, RecipeOf, Batch;
  }

  lemma PutBackHolds(book: Book, s: Code, id: int, s': Code)
    requires PutBackStep(book, s, id, s')
    ensures id in s.held
  {
  }

  lemma StartHolds(book: Book, services: Services, s: Code, id: int, s': Code)
    requires StartStep(book, services, s, id, s')
    ensures id in s.held && id in s.w.t.crafts
  {
  }

  lemma PullPlaced(book: Book, s: Code, u: Uid, n: int, s': Code)
    requires Placed(book, s) && 0 <= n <= Get(s.results, u)
    requires s' == s.(stored := s.stored[u := Get(s.stored, u) + n], results := s.results[u := Get(s.results, u) - n])
    ensures Placed(book, s')
  {
    hide Lent, Sum;
    forall v ensures PlacedItem(book, s', v) {
      assert PlacedItem(book, s, v);
    }
  }

  lemma DeliverPlaced(book: Book, s: Code, u: Uid, n: int, s': Code)
    requires Placed(book, s) && n >= 0
    requires s' == s.(w := World(s.w.t, s.w.phys[u := Get(s.w.phys, u) + n]),
      stored := s.stored[u := Get(s.stored, u) + n])
    ensures Placed(book, s')
  {
    hide Lent, Sum;
    forall v ensures PlacedItem(book, s', v) {
      assert PlacedItem(book, s, v);
    }
  }

  lemma WalkStepPlaced(book: Book, services: Services, plan: int, s: Code, pinged: bool, listed: seq<PlanStep>,
                       trace: seq<Tables>, s': Code)
    requires Placed(book, s) && Orderly(book, services, s) && WalkStep(book, plan, s, pinged, listed, trace, s')
    ensures Placed(book, s')
  {
    hide Placed, Orderly, Checked, Fresh, Lists;
    WalkRows(book, plan, s.w.t, listed, trace, s'.w.t);
    WalkPlaced(book, services, plan, s, listed, trace, |listed|);
    SamePlaced(book, s.(w := World(trace[|listed|], s.w.phys)), s');
  }

  lemma ReportPlaced(book: Book, s: Code, u: Uid, s': Code)
    requires Placed(book, s) && ReportStep(s, u, s')
    ensures Placed(book, s')
  {
    hide Placed, Allocates;
    AllocateRows(s.w.t, s'.w.t, u, Get(s.stored, u));
    SamePlaced(book, s, s');
  }

  lemma HirePlaced(book: Book, s: Code, id: int, worker: string, s': Code)
    requires Placed(book, s) && id in s.w.t.crafts && s' == s.(w := World(AfterAssign(s.w.t, id, worker), s.w.phys))
    ensures Placed(book, s')
  {
    hide Placed;
    SamePlaced(book, s, s');
  }

  lemma CodeStepPlaced(book: Book, services: Services, plan: int, goals: seq<Stack>, steps: seq<Planner.Step>, s: Code,
                       m: CodeMove, s': Code)
    requires CodeInv(book, services, plan, goals, steps, s) && AllServed(book, services, steps)
    requires CodeStep(book, services, plan, s, m, s')
    ensures Placed(book, s')
  {
    hide *;
    InvParts(book, services, plan, goals, steps, s);
    StepCases(book, services, plan, s, m, s');
    match m
    case Walk(pinged, listed, trace) => WalkStepPlaced(book, services, plan, s, pinged, listed, trace, s');
    case Report(u) => ReportPlaced(book, s, u, s');
    case Forget => SamePlaced(book, s, s');
    case Hire(id, worker) => HirePlaced(book, s, id, worker, s');
    case Export(id) =>
      StepKeepsOrderly(book, services, plan, s, m, s');
      ExportHolds(book, services, s, id, s');
      HeldCounts(book, services, plan, goals, steps, s', id);
      ExportPlaced(book, services, s, id, s');
    case PutBack(id) =>
      PutBackHolds(book, s, id, s');
      HeldCounts(book, services, plan, goals, steps, s, id);
      PutBackPlaced(book, s, id, s');
    case Start(id) =>
      StartHolds(book, services, s, id, s');
      HeldCounts(book, services, plan, goals, steps, s, id);
      StartPlaced(book, services, s, id, s');
    case Finish(id) =>
      FinishOnward(book, services, plan, goals, steps, s, id, s');
      FinishPlaced(book, services, s, id, s');
    case Pull(u, n) => PullPlaced(book, s, u, n, s');
    case Deliver(u, n) => DeliverPlaced(book, s, u, n, s');
  }

  /** Every move of the server keeps the plan's invariant, the order of its rows, and track of every item. */
  lemma CodeStepKeepsInv(book: Book, services: Services, plan: int, goals: seq<Stack>, steps: seq<Planner.Step>,
                         s: Code, m: CodeMove, s': Code)
    requires CodeInv(book, services, plan, goals, steps, s) && AllServed(book, services, steps)
    requires CodeStep(book, services, plan, s, m, s')
    ensures CodeInv(book, services, plan, goals, steps, s')
    ensures Onward(book, plan, goals, steps, s.w, s'.w, CodeWorks(services, s, m, s'))
  {
    CodeStepOnward(book, services, plan, goals, steps, s, m, s');
    OnwardFacts(book, plan, goals, steps, s.w, s'.w, CodeWorks(services, s, m, s'));
    CodeStepPlaced(book, services, plan, goals, steps, s, m, s');
    StepKeepsOrderly(book, services, plan, s, m, s');
    hide Going, Orderly, Placed, Onward, CodeStep, AllServed;
  }

  // ---------------------------------------------------------------- what helps a run along

  /**
    A machine takes the crafts of its type in the order of their rows; a client takes up its own
    first, and then the first that nobody has. A pass goes on to the next craft only after the one
    before it; in turn is the first of the queue each time.
   */
  ghost predicate InTurn(services: Services, t: Tables, m: CodeMove) {
    match m
    case Hire(id, worker) =>
      forall c :: c in t.crafts ==>
        && t.crafts[c].worker != Some(worker)
        && (Employs(services, t.crafts[c].recipe, worker) && t.crafts[c].worker.None? ==> id <= c)
    case Export(id) =>
      id in t.crafts && forall c :: c in t.crafts && SameQueue(services, t.crafts[id], t.crafts[c]) ==> id <= c
    case _ => true
  }

  /** The same client has both crafts, or the same machine works on both. */
  predicate SameQueue(services: Services, a: Craft, b: Craft) {
    && a.recipe in services && b.recipe in services
    && match services[a.recipe]
       case Crafting(_) => a.worker.Some? && b.worker == a.worker
       case Processing(m, _) => services[b.recipe].Processing? && services[b.recipe].machine == m
  }

  /** One client takes crafts of both recipes, or one machine works on both. */
  predicate Shares(services: Services, a: int, b: int) {
    && a in services && b in services
    && match services[a]
       case Crafting(clients) => services[b].Crafting? && clients * services[b].clients != {}
       case Processing(m, _) => services[b].Processing? && services[b].machine == m
  }

  /** A step with catalysts that some step uses up shares its clients or its machine with no other step. */
  ghost predicate QueueSafe(services: Services, steps: seq<Planner.Step>) {
    forall i, j ::
      0 <= i < |steps| && 0 <= j < |steps| && Shares(services, steps[i].recipe.id, steps[j].recipe.id) ==>
        steps[i].recipe.id == steps[j].recipe.id || Uncontested(steps, steps[i].recipe.id)
  }

  /** What a run may do beyond working in turn by itself. */
  datatype Manner = Manner(pings: bool, deliveries: bool, anyTurn: bool)

  const ANYHOW := Manner(true, true, true)
  const UNAIDED := Manner(false, false, true)
  const IN_TURN := Manner(true, false, false)
  const ANY_TURN := Manner(true, false, true)

  ghost predicate Allowed(manner: Manner, services: Services, s: Code, m: CodeMove) {
    && (m.Walk? && m.pinged ==> manner.pings) && (m.Deliver? ==> manner.deliveries)
    && (manner.anyTurn || InTurn(services, s.w.t, m))
  }

  /** A run from one state to the other with no more help than is allowed. */
  ghost predicate CodeLeads(book: Book, services: Services, plan: int, manner: Manner, s: Code,
                            states: seq<Code>, moves: seq<CodeMove>, s': Code) {
    && IsCodeRun(book, services, plan, states, moves) && states[0] == s && states[|moves|] == s'
    && forall i :: 0 <= i < |moves| ==> Allowed(manner, services, states[i], moves[i])
  }

  ghost predicate CodeReach(book: Book, services: Services, plan: int, manner: Manner, s: Code, s': Code) {
    exists states, moves :: CodeLeads(book, services, plan, manner, s, states, moves, s')
  }

  /** A run of the server is a run of plan moves, with all that those keep. */
  lemma {:induction false} CodeRunOnward(book: Book, services: Services, plan: int, goals: seq<Stack>,
      steps: seq<Planner.Step>, states: seq<Code>, moves: seq<CodeMove>, n: nat)
    requires IsCodeRun(book, services, plan, states, moves) && n < |states|
    requires CodeInv(book, services, plan, goals, steps, states[0]) && AllServed(book, services, steps)
    ensures CodeInv(book, services, plan, goals, steps, states[n])
    ensures Onward(book, plan, goals, steps, states[0].w, states[n].w, false)
  {
    if n == 0 {
      InvParts(book, services, plan, goals, steps, states[0]);
      hide CodeInv, Going;
      OnwardSelf(book, plan, goals, steps, states[0].w);
    } else {
      CodeRunOnward(book, services, plan, goals, steps, states, moves, n - 1);
      assert CodeStep(book, services, plan, states[n - 1], moves[n - 1], states[n - 1 + 1]);
      hide CodeInv, CodeStep, Onward, AllServed, IsCodeRun;
      CodeStepKeepsInv(book, services, plan, goals, steps, states[n - 1], moves[n - 1], states[n]);
      var works := CodeWorks(services, states[n - 1], moves[n - 1], states[n]);
      OnwardJoins(book, plan, goals, steps, states[0].w, states[n - 1].w, states[n].w, false, works);
      OnwardWeakens(book, plan, goals, steps, states[0].w, states[n].w, works, false);
    }
  }
}
