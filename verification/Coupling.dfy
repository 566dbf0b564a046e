/**
  Starting a craft on a processing machine: the transfer's record and the craft's row are written in
  one database transaction (internal/services/worker/processing_crafter_worker.go).
 */
module Coupling {
  import opened Recipes
  import opened Sums
  import opened Ledger
  import opened LedgerInvariant
  import opened LedgerRuns
  import opened Transfer
  import opened TransferSafety
  import opened TransferTheorems
  import opened Deliveries
  import opened ProcessingRequest

  /** The craft being started, with its recipe, as they were read when the request was made. */
  datatype Job = Job(machine: Machine, craft: int, recipe: Recipe)

  /**
    The transfers, the tables, and the transaction that is open between them: `draft` holds the
    tables as it will leave them. `jobs` records for which start each transfer was stored.
   */
  datatype Joint = Joint(sys: Sys, tables: Tables, job: Option<Job>, draft: Option<Tables>, jobs: map<int, Job>)

  datatype JointAct =
    | Ask(job: Job, req: Request)
    | Carry(act: Act)
    | Advance
    | Store
    | Write(e: Event)

  /**
    One step of the transfers, the tables, or both. The tables are not written while a transfer's
    transaction is open; the guarded commit of the craft is the only way for that to end in a
    record, and whatever gives the transaction up gives the draft up.
   */
  ghost predicate JointNext(cfg: Config, book: Book, s: Joint, x: JointAct, s': Joint) {
    match x
    case Ask(job, req) =>
      && RequestFor(job.machine, job.recipe, req) && Transfer.Next(cfg, s.sys, Begin(req), s'.sys)
      && s' == s.(sys := s'.sys, job := Some(job), draft := None)
    case Carry(a) =>
      && !a.Begin? && !a.CommitDb? && Transfer.Next(cfg, s.sys, a, s'.sys)
      && s' == s.(sys := s'.sys, draft := None)
    case Advance =>
      && s.sys.pc.Prepared? && s.draft.None? && s.job.Some? && CanCommit(s.tables, s.job.value.craft)
      && s' == s.(draft := Some(AfterStart(s.job.value.machine, s.tables, s.job.value.craft, s.job.value.recipe, 1)))
    case Store =>
      && s.draft.Some? && s.job.Some? && s.sys.pc.Prepared? && Transfer.Next(cfg, s.sys, CommitDb, s'.sys)
      && s' == s.(sys := s'.sys, tables := s.draft.value, draft := None, jobs := s.jobs[s.sys.pc.id := s.job.value])
    case Write(e) =>
      && !s.sys.pc.Prepared? && LedgerRuns.Next(book, s.tables, e, s'.tables)
      && s' == s.(tables := s'.tables)
  }

  ghost predicate JointInit(s: Joint) {
    Init(s.sys) && s.tables == EmptyTables && s.job == None && s.draft == None && s.jobs == map[]
  }

  /** The recipe read with the craft is still that of the row, if the row can be committed at all. */
  ghost predicate CurrentRead(book: Book, s: Joint, x: JointAct) {
    x.Advance? && s.job.Some? && CanCommit(s.tables, s.job.value.craft) ==>
      RecipeOf(book, s.tables.crafts[s.job.value.craft].recipe) == s.job.value.recipe
  }

  ghost predicate IsJointRun(cfg: Config, book: Book, states: seq<Joint>, acts: seq<JointAct>) {
    && |states| == |acts| + 1 && JointInit(states[0])
    && forall i :: 0 <= i < |acts| ==>
      JointNext(cfg, book, states[i], acts[i], states[i + 1]) && CurrentRead(book, states[i], acts[i])
  }

  // ---------------------------------------------------------------- what every step keeps

  function RequestOf(pc: Counter): Option<Request> {
    match pc
    case Idle => None
    case Restoring(req, _) => Some(req)
    case Dumping(req) => Some(req)
    case Staging(req, _) => Some(req)
    case Prepared(req, _) => Some(req)
    case Draining(_, _, after) => if after.Resume? then Some(after.req) else None
  }

  /** The request in progress is the one for the job; a draft is that job's start of the tables as they are. */
  ghost predicate DraftMatches(book: Book, s: Joint) {
    && (RequestOf(s.sys.pc).Some? ==>
        s.job.Some? && RequestFor(s.job.value.machine, s.job.value.recipe, RequestOf(s.sys.pc).value))
    && (s.draft.Some? ==>
      && s.sys.pc.Prepared? && s.job.Some? && CanCommit(s.tables, s.job.value.craft)
      && RecipeOf(book, s.tables.crafts[s.job.value.craft].recipe) == s.job.value.recipe
      && s.draft.value == AfterStart(s.job.value.machine, s.tables, s.job.value.craft, s.job.value.recipe, 1))
  }

  /** The record moves what one start of the job takes in. */
  ghost predicate RecordMatches(cfg: Config, r: Record, job: Job) {
    exists req: Request ::
      |req.fluids| <= |cfg.tanks| && RequestFor(job.machine, job.recipe, req) && r == RecordOf(cfg, req)
  }

  ghost predicate JobsMatch(cfg: Config, s: Joint) {
    && s.jobs.Keys == s.sys.log.Keys
    && forall x :: x in s.jobs ==> RecordMatches(cfg, s.sys.log[x], s.jobs[x])
  }

  ghost predicate JointInv(cfg: Config, book: Book, s: Joint) {
    AllHold(cfg, s.sys) && Valid(book, s.tables) && DraftMatches(book, s) && JobsMatch(cfg, s)
  }

  /** The steps of a transfer but its commit leave the stored records alone and keep the request in progress. */
  lemma CarryKeeps(cfg: Config, s: Sys, a: Act, s': Sys)
    requires Transfer.Next(cfg, s, a, s') && !a.Begin? && !a.CommitDb?
    ensures s'.log == s.log && (RequestOf(s'.pc).Some? ==> RequestOf(s'.pc) == RequestOf(s.pc))
  {
    OnlyDumpsSpoil(cfg, s, a, s');
    hide MoveStep, StageStep, Finds, StoresEmpty, Admitted, Lines, Subjects, Dumped, RecordOf, TakeFrom, Returned;
  }

  lemma BeginKeeps(cfg: Config, s: Sys, req: Request, s': Sys)
    requires Transfer.Next(cfg, s, Begin(req), s')
    ensures s'.log == s.log && RequestOf(s'.pc) == Some(req)
  {
    hide Finds, Admitted, Subjects;
  }

  lemma StoreKeeps(cfg: Config, s: Sys, s': Sys)
    requires AllHold(cfg, s) && Transfer.Next(cfg, s, CommitDb, s')
    ensures s.pc.Prepared? && s.pc.id !in s.log && |s.pc.req.fluids| <= |cfg.tanks|
    ensures s'.log == s.log[s.pc.id := RecordOf(cfg, s.pc.req)] && RequestOf(s'.pc) == None
  {
    hide RecordOf, Lines, Holds, StagedSoFar, Subjects, Dumped, TargetsExact;
  }

  /** Starting a craft by the recipe of its row keeps the ledger, with the wait row or the completion. */
  lemma StartKeepsValid(book: Book, t: Tables, m: Machine, id: int, r: Recipe)
    requires Valid(book, t) && CanCommit(t, id) && RecipeOf(book, t.crafts[id].recipe) == r
    ensures Valid(book, AfterStart(m, t, id, r, 1))
  {
    assert GoodCraft(book, t.crafts[id]);
    var mid := AfterCommit(t, id, r, 1);
    assert LedgerRuns.Next(book, t, LedgerRuns.Event.Commit(id, 1), mid);
    NextKeepsValid(book, t, LedgerRuns.Event.Commit(id, 1), mid);
    if m.wait {
      assert LedgerRuns.Next(book, t, CommitAndWait(id, m.worker), AddWait(mid, id, m.worker));
      hide Valid;
      NextKeepsValid(book, t, CommitAndWait(id, m.worker), AddWait(mid, id, m.worker));
    } else {
      StartedRow(t, id, r);
      hide Valid, AfterCommit;
      NextKeepsValid(book, mid, LedgerRuns.Event.Complete(id), AfterComplete(mid, id));
    }
  }

  lemma StartedRow(t: Tables, id: int, r: Recipe)
    requires id in t.crafts
    ensures var mid := AfterCommit(t, id, r, 1);
      id in mid.crafts && mid.crafts[id].status.Committed? && forall w :: w in mid.waits ==> w.craft != id
  {
  }

  lemma StoreKeepsJobs(cfg: Config, book: Book, s: Joint, s': Joint)
    requires JointInv(cfg, book, s) && JointNext(cfg, book, s, Store, s')
    ensures JobsMatch(cfg, s')
  {
    StoreKeeps(cfg, s.sys, s'.sys);
    var id, req := s.sys.pc.id, s.sys.pc.req;
    assert RequestFor(s.job.value.machine, s.job.value.recipe, req);
    hide AllHold, Valid, RecordOf, RequestFor, Transfer.Next, DraftMatches;
    forall x | x in s'.jobs ensures x in s'.sys.log && RecordMatches(cfg, s'.sys.log[x], s'.jobs[x]) {
      if x != id {
        assert RecordMatches(cfg, s.sys.log[x], s.jobs[x]);
      }
    }
  }

  /** Every joint step keeps the transfers exact, the ledger valid, and the records those of their jobs. */
  lemma JointStepKeepsInv(cfg: Config, book: Book, s: Joint, x: JointAct, s': Joint)
    requires GoodConfig(cfg) && JointInv(cfg, book, s) && JointNext(cfg, book, s, x, s') && CurrentRead(book, s, x)
    ensures JointInv(cfg, book, s')
  {
    hide AllHold, Valid, RecordMatches, Transfer.Next, LedgerRuns.Next, RequestFor, AfterStart, CanCommit;
    match x
    case Ask(job, req) =>
      NextKeepsAll(cfg, s.sys, Begin(req), s'.sys);
      BeginKeeps(cfg, s.sys, req, s'.sys);
    case Carry(a) =>
      NextKeepsAll(cfg, s.sys, a, s'.sys);
      CarryKeeps(cfg, s.sys, a, s'.sys);
    case Advance =>
    case Store =>
      NextKeepsAll(cfg, s.sys, CommitDb, s'.sys);
      StoreKeeps(cfg, s.sys, s'.sys);
      StoreKeepsJobs(cfg, book, s, s');
      StartKeepsValid(book, s.tables, s.job.value.machine, s.job.value.craft, s.job.value.recipe);
    case Write(e) =>
      NextKeepsValid(book, s.tables, e, s'.tables);
  }

  lemma {:induction false} JointRunKeepsInv(cfg: Config, book: Book, states: seq<Joint>, acts: seq<JointAct>, n: nat)
    requires GoodConfig(cfg) && GoodBook(book) && IsJointRun(cfg, book, states, acts) && n < |states|
    ensures JointInv(cfg, book, states[n])
  {
    if n == 0 {
      InitHolds(cfg, states[0].sys);
      NothingIsValid(book);
      hide Init, AllHold, Valid;
    } else {
      JointRunKeepsInv(cfg, book, states, acts, n - 1);
      assert JointNext(cfg, book, states[n - 1], acts[n - 1], states[n - 1 + 1])
        && CurrentRead(book, states[n - 1], acts[n - 1]);
      hide JointNext, CurrentRead, JointInv, IsJointRun;
      JointStepKeepsInv(cfg, book, states[n - 1], acts[n - 1], states[n]);
    }
  }

  // ---------------------------------------------------------------- repeats and records

  /** The repeats of a craft that are not started yet; none once its row is gone. */
  function OpenAt(t: Tables, id: int): int {
    if id in t.crafts then Open(t.crafts[id]) else 0
  }

  /** The transfers stored for a craft. */
  ghost function RecordsFor(s: Joint, id: int): set<int> {
    set x | x in s.jobs && s.jobs[x].craft == id
  }

  /** The repeats of the craft that an act commits without a transfer. */
  function Elsewhere(x: JointAct, id: int): int {
    match x
    case Write(e) =>
      (match e
       case Commit(c, n) => if c == id then n else 0
       case CommitAndWait(c, _) => if c == id then 1 else 0
       case _ => 0)
    case _ => 0
  }

  function ElsewhereIn(acts: seq<JointAct>, id: int): int {
    if acts == [] then 0 else ElsewhereIn(acts[..|acts| - 1], id) + Elsewhere(acts[|acts| - 1], id)
  }

  /** The act makes or cancels the craft. */
  predicate Remakes(x: JointAct, id: int) {
    x.Write? && ((x.e.InsertCraft? && x.e.id == id) || (x.e.Cancel? && x.e.id == id))
  }

  lemma WriteCounts(book: Book, t: Tables, e: Event, t': Tables, id: int)
    requires LedgerRuns.Next(book, t, e, t') && !Remakes(Write(e), id)
    requires Valid(book, t)
    ensures OpenAt(t', id) == OpenAt(t, id) - Elsewhere(Write(e), id)
  {
    hide Valid, Spend, Release, CanInsertCraft, Allocates, PlanRows, PlanSteps;
    match e
    case UpdateCount(u, count) => SameCraftRows(t, t', u, count);
    case CompleteWait(c, worker) => WaitedIsCommitted(book, t, c, worker);
    case _ =>
  }

  lemma WaitedIsCommitted(book: Book, t: Tables, c: int, worker: string)
    requires Valid(book, t) && Wait(worker, c) in t.waits
    ensures c in t.crafts && t.crafts[c].status.Committed?
  {
  }

  lemma SameCraftRows(t: Tables, t': Tables, u: Uid, count: int)
    requires Allocates(t, t', u, count)
    ensures t'.crafts == t.crafts
  {
  }

  lemma StartCounts(m: Machine, t: Tables, c: int, r: Recipe, id: int)
    requires CanCommit(t, c)
    ensures OpenAt(AfterStart(m, t, c, r, 1), id) == OpenAt(t, id) - if c == id then 1 else 0
  {
    hide Release;
  }

  lemma RecordAdded(s: Joint, s': Joint, x: int, job: Job, id: int)
    requires x !in s.jobs && s'.jobs == s.jobs[x := job]
    ensures |RecordsFor(s', id)| == |RecordsFor(s, id)| + if job.craft == id then 1 else 0
  {
    if job.craft == id {
      assert RecordsFor(s', id) == RecordsFor(s, id) + {x};
    } else {
      assert RecordsFor(s', id) == RecordsFor(s, id);
    }
  }

  /** No step starts a repeat without storing a record for it, or stores a record without starting a repeat. */
  lemma StepCounts(cfg: Config, book: Book, s: Joint, x: JointAct, s': Joint, id: int)
    requires JointInv(cfg, book, s) && JointNext(cfg, book, s, x, s') && !Remakes(x, id)
    ensures OpenAt(s'.tables, id) + |RecordsFor(s', id)|
      == OpenAt(s.tables, id) + |RecordsFor(s, id)| - Elsewhere(x, id)
    ensures RecordsFor(s, id) <= RecordsFor(s', id)
  {
    hide AllHold, Valid, RecordMatches, Transfer.Next, LedgerRuns.Next, RequestFor, AfterStart, CanCommit, OpenAt;
    match x
    case Ask(_, _) => assert RecordsFor(s', id) == RecordsFor(s, id);
    case Carry(_) => assert RecordsFor(s', id) == RecordsFor(s, id);
    case Advance => assert RecordsFor(s', id) == RecordsFor(s, id);
    case Store =>
      StoreKeeps(cfg, s.sys, s'.sys);
      RecordAdded(s, s', s.sys.pc.id, s.job.value, id);
      StartCounts(s.job.value.machine, s.tables, s.job.value.craft, s.job.value.recipe, id);
    case Write(e) =>
      assert RecordsFor(s', id) == RecordsFor(s, id);
      WriteCounts(book, s.tables, e, s'.tables, id);
  }

  /**
    Between any two states of a run in which a craft was not made or cancelled, its open repeats
    have gone down by the transfers stored for it and the repeats committed without one.
   */
  lemma {:induction false} StartsMatchRecords(cfg: Config, book: Book, states: seq<Joint>, acts: seq<JointAct>, i: nat,
      j: nat, id: int)
    requires GoodConfig(cfg) && GoodBook(book) && IsJointRun(cfg, book, states, acts) && i <= j < |states|
    requires forall k :: i <= k < j ==> !Remakes(acts[k], id)
    ensures RecordsFor(states[i], id) <= RecordsFor(states[j], id)
    ensures OpenAt(states[i].tables, id) - OpenAt(states[j].tables, id)
         == |RecordsFor(states[j], id) - RecordsFor(states[i], id)| + ElsewhereIn(acts[i..j], id)
    decreases j
  {
    hide JointNext, CurrentRead, JointInit, OpenAt, Elsewhere, Remakes, RecordsFor;
    if i < j {
      StartsMatchRecords(cfg, book, states, acts, i, j - 1, id);
      JointRunKeepsInv(cfg, book, states, acts, j - 1);
      assert JointNext(cfg, book, states[j - 1], acts[j - 1], states[j - 1 + 1]);
      StepCounts(cfg, book, states[j - 1], acts[j - 1], states[j], id);
      assert acts[i..j][..j - 1 - i] == acts[i..j - 1] && acts[i..j][j - 1 - i] == acts[j - 1];
      SizeOfRest(RecordsFor(states[j], id), RecordsFor(states[j - 1], id), RecordsFor(states[i], id));
    }
  }

  lemma SizeOfRest(after: set<int>, mid: set<int>, before: set<int>)
    requires before <= mid <= after
    ensures |after - before| == |mid - before| + |after| - |mid|
  {
    assert after == before + (after - before) && mid == before + (mid - before);
    assert |after| == |before| + |after - before| && |mid| == |before| + |mid - before|;
  }

  // ---------------------------------------------------------------- what is released and what moves

  /** The amount of an item, named as in the recipes, over the lines of a record. */
  function LinesOf(r: Record, u: Uid): int
    requires r.items <= |r.lines|
  {
    LineSum(r.lines[..r.items], false, u) + LineSum(r.lines[r.items..], true, u)
  }

  function LineSum(lines: seq<Line>, fluid: bool, u: Uid): int {
    if lines == [] then 0
    else
      var last := lines[|lines| - 1];
      LineSum(lines[..|lines| - 1], fluid, u)
        + if (if fluid then FluidItem(last.uid) else last.uid) == u then last.amount else 0
  }

  lemma {:induction false} LineSumIsAsked(lines: seq<Line>, asked: seq<Asked>, fluid: bool, u: Uid)
    requires |lines| == |asked|
    requires forall i :: 0 <= i < |lines| ==> lines[i].uid == asked[i].uid && lines[i].amount == asked[i].amount
    ensures LineSum(lines, fluid, u) == AskedOf(asked, fluid, u)
  {
    if lines != [] {
      var n := |lines| - 1;
      LineSumIsAsked(lines[..n], asked[..n], fluid, u);
    }
  }

  /** A stored record's lines hold one repeat's ingredients and catalysts, to the last item. */
  lemma RecordHoldsInputs(cfg: Config, r: Record, job: Job, u: Uid)
    requires RecordMatches(cfg, r, job)
    ensures r.items <= |r.lines|
    ensures LinesOf(r, u) == AmountOf(job.recipe.ingredients, u) + AmountOf(job.recipe.catalysts, u)
  {
    hide RequestFor, RecordOf, LineSum, AskedOf;
    var req: Request :| |req.fluids| <= |cfg.tanks| && RequestFor(job.machine, job.recipe, req)
      && r == RecordOf(cfg, req);
    RequestAmounts(job.machine, job.recipe, req, u);
    RecordLines(cfg, req);
    LineSumIsAsked(r.lines[..r.items], req.items, false, u);
    LineSumIsAsked(r.lines[r.items..], req.fluids, true, u);
  }

  lemma RecordLines(cfg: Config, req: Request)
    requires |req.fluids| <= |cfg.tanks|
    ensures var r := RecordOf(cfg, req);
      && r.items == |req.items| && |r.lines| == |req.items| + |req.fluids|
      && (forall i :: 0 <= i < |req.items| ==>
          r.lines[..r.items][i].uid == req.items[i].uid && r.lines[..r.items][i].amount == req.items[i].amount)
      && (forall i :: 0 <= i < |req.fluids| ==>
          r.lines[r.items..][i].uid == req.fluids[i].uid && r.lines[r.items..][i].amount == req.fluids[i].amount)
  {
    var r := RecordOf(cfg, req);
    forall i | 0 <= i < |req.fluids|
      ensures r.lines[r.items..][i].uid == req.fluids[i].uid && r.lines[r.items..][i].amount == req.fluids[i].amount
    {
      assert r.lines[r.items..][i] == r.lines[r.items + i] == LineAt(cfg, req, r.items + i);
    }
  }

  /** A stored record's lines send each place what one repeat of its job is due there. */
  lemma RecordIsDue(cfg: Config, r: Record, job: Job, p: Place, u: Uid)
    requires RecordMatches(cfg, r, job)
    ensures LinesTo(r.lines, p, u) == DueTo(job.machine, job.recipe, p, u)
  {
    hide RequestFor, RecordOf, LinesTo, DueTo, AskedTo;
    var req: Request :| |req.fluids| <= |cfg.tanks| && RequestFor(job.machine, job.recipe, req)
      && r == RecordOf(cfg, req);
    RecordSends(cfg, req, p, u);
    RequestIsDue(job.machine, job.recipe, req, p, u);
  }

  /** A transfer sends each place what its job is due there and, once dropped, has brought just that. */
  ghost predicate BringsItsDue(s: Joint, x: int)
    requires DeliveredKnown(s.sys) && x in s.jobs && x in s.sys.log
  {
    forall p, u ::
      && LinesTo(s.sys.log[x].lines, p, u) == DueTo(s.jobs[x].machine, s.jobs[x].recipe, p, u)
      && (x !in s.sys.live && x !in s.sys.spoiled ==>
          BroughtBy(s.sys, x, TargetKey(p, u)) == DueTo(s.jobs[x].machine, s.jobs[x].recipe, p, u))
  }

  lemma RecordBringsItsDue(cfg: Config, s: Joint, x: int)
    requires Holds(s.sys) && JobsMatch(cfg, s) && x in s.jobs
    ensures BringsItsDue(s, x)
  {
    var job, lines := s.jobs[x], s.sys.log[x].lines;
    var due := x !in s.sys.live && x !in s.sys.spoiled;
    assert RecordMatches(cfg, s.sys.log[x], job) && DeliveredKnown(s.sys);
    assert due ==> FullyDelivered(s.sys, x);
    hide Holds, DeliveredKnown, JobsMatch, RecordMatches, FullyDelivered, LinesTo, DueTo, BroughtBy;
    forall p, u
      ensures LinesTo(lines, p, u) == DueTo(job.machine, job.recipe, p, u)
      ensures due ==> BroughtBy(s.sys, x, TargetKey(p, u)) == DueTo(job.machine, job.recipe, p, u)
    {
      RecordIsDue(cfg, s.sys.log[x], job, p, u);
      if due {
        DeliveredInFull(s.sys, x, TargetKey(p, u));
      }
    }
  }

  /**
    In every state of every run, what has arrived at a place is what the stored transfers brought
    there, each counted by itself; and each that was dropped, unless a setup emptied its stores,
    brought the machine's slots and tank exactly what one repeat of its craft is due.
   */
  lemma EachJobIsBrought(cfg: Config, book: Book, states: seq<Joint>, acts: seq<JointAct>, n: nat)
    requires GoodConfig(cfg) && GoodBook(book) && IsJointRun(cfg, book, states, acts) && n < |states|
    ensures var s := states[n];
      && DeliveredKnown(s.sys) && s.jobs.Keys == s.sys.log.Keys
      && (forall t :: Get(s.sys.targets, t) == Sum(map x | x in s.sys.log :: BroughtBy(s.sys, x, t)))
      && (forall x :: x in s.jobs ==> BringsItsDue(s, x))
  {
    JointRunKeepsInv(cfg, book, states, acts, n);
    var s := states[n];
    assert Holds(s.sys) && TargetsExact(s.sys) && DeliveredKnown(s.sys) && JobsMatch(cfg, s);
    hide IsJointRun, JointInv, Holds, TargetsExact, DeliveredKnown, RecordMatches, BroughtBy, BringsItsDue;
    forall t ensures Get(s.sys.targets, t) == Sum(map x | x in s.sys.log :: BroughtBy(s.sys, x, t)) {
      ArrivedIsBrought(s.sys, t);
    }
    forall x | x in s.jobs ensures BringsItsDue(s, x) {
      RecordBringsItsDue(cfg, s, x);
    }
  }

  /**
    The commit that stores a record releases exactly what the record's lines hold, but for the
    catalysts, which are lent and not used up; no other step stores a record.
   */
  lemma StoreReleasesLines(cfg: Config, book: Book, s: Joint, x: JointAct, s': Joint, u: Uid)
    requires JointInv(cfg, book, s) && JointNext(cfg, book, s, x, s')
    ensures s'.sys.log != s.sys.log <==> x.Store?
    ensures x.Store? ==>
      && var id := s.sys.pc.id;
      && s'.sys.log.Keys == s.sys.log.Keys + {id} && s'.sys.log[id].items <= |s'.sys.log[id].lines|
      && Get(s.tables.reserve, u) - Get(s'.tables.reserve, u)
           == LinesOf(s'.sys.log[id], u) - AmountOf(s.job.value.recipe.catalysts, u)
  {
    match x
    case Store =>
      StoreKeeps(cfg, s.sys, s'.sys);
      StoreKeepsJobs(cfg, book, s, s');
      var job := s.job.value;
      assert RecordMatches(cfg, s'.sys.log[s.sys.pc.id], job);
      assert CanCommit(s.tables, job.craft) && RecipeOf(book, s.tables.crafts[job.craft].recipe) == job.recipe;
      assert s'.tables == AfterStart(job.machine, s.tables, job.craft, job.recipe, 1);
      hide AllHold, RequestFor, Transfer.Next, RecordMatches, JobsMatch, LinesOf;
      RecordHoldsInputs(cfg, s'.sys.log[s.sys.pc.id], job, u);
      assert GoodCraft(book, s.tables.crafts[job.craft]);
      hide DraftMatches;
      StartReleases(book, s.tables, job.machine, job.craft, u);
    case Ask(_, req) => BeginKeeps(cfg, s.sys, req, s'.sys);
    case Carry(a) => CarryKeeps(cfg, s.sys, a, s'.sys);
    case Advance =>
    case Write(_) =>
  }

  lemma StartReleases(book: Book, t: Tables, m: Machine, id: int, u: Uid)
    requires Valid(book, t) && CanCommit(t, id) && t.crafts[id].repeats >= 1
    ensures var r := RecipeOf(book, t.crafts[id].recipe);
      Get(t.reserve, u) - Get(AfterStart(m, t, id, r, 1).reserve, u) == AmountOf(r.ingredients, u)
  {
    ReleaseExact(book, t, id, 1, u);
    hide Release, RecipeOf, AmountOf, Valid;
  }

  // ---------------------------------------------------------------- a craft from its first start to its last

  lemma WriteKeepsRow(book: Book, t: Tables, e: Event, t': Tables, id: int)
    requires LedgerRuns.Next(book, t, e, t') && !Remakes(Write(e), id) && id in t'.crafts
    ensures id in t.crafts && t'.crafts[id].recipe == t.crafts[id].recipe
  {
    hide Spend, Release, CanInsertCraft, Allocates, PlanRows, PlanSteps;
    if e.UpdateCount? {
      SameCraftRows(t, t', e.uid, e.count);
    }
  }

  lemma StartKeepsRow(m: Machine, t: Tables, c: int, r: Recipe, id: int)
    requires c in t.crafts && id in AfterStart(m, t, c, r, 1).crafts
    ensures id in t.crafts && AfterStart(m, t, c, r, 1).crafts[id].recipe == t.crafts[id].recipe
  {
    hide Release;
  }

  /** A craft's row stays one of its recipe, and a record stored for it is for that recipe. */
  lemma StepKeepsRecipe(cfg: Config, book: Book, s: Joint, x: JointAct, s': Joint, id: int)
    requires JointInv(cfg, book, s) && JointNext(cfg, book, s, x, s') && !Remakes(x, id)
    ensures id in s'.tables.crafts ==>
      id in s.tables.crafts && s'.tables.crafts[id].recipe == s.tables.crafts[id].recipe
    ensures forall y :: y in s.jobs ==> y in s'.jobs && s'.jobs[y] == s.jobs[y]
    ensures forall y :: y in s'.jobs && y !in s.jobs && s'.jobs[y].craft == id ==>
      id in s.tables.crafts && s'.jobs[y].recipe == RecipeOf(book, s.tables.crafts[id].recipe)
  {
    hide AllHold, Valid, RecordMatches, Transfer.Next, LedgerRuns.Next, RequestFor, AfterStart, Remakes;
    match x
    case Store =>
      StoreKeeps(cfg, s.sys, s'.sys);
      if id in s'.tables.crafts {
        StartKeepsRow(s.job.value.machine, s.tables, s.job.value.craft, s.job.value.recipe, id);
      }
    case Write(e) =>
      if id in s'.tables.crafts {
        WriteKeepsRow(book, s.tables, e, s'.tables, id);
      }
    case _ =>
  }

  lemma {:induction false} RecordsAreOfRecipe(cfg: Config, book: Book, states: seq<Joint>, acts: seq<JointAct>, i: nat,
      j: nat, id: int)
    requires GoodConfig(cfg) && GoodBook(book) && IsJointRun(cfg, book, states, acts) && i <= j < |states|
    requires (forall k :: i <= k < j ==> !Remakes(acts[k], id)) && id in states[i].tables.crafts
    ensures id in states[j].tables.crafts ==> states[j].tables.crafts[id].recipe == states[i].tables.crafts[id].recipe
    ensures forall x :: x in states[i].jobs ==> x in states[j].jobs && states[j].jobs[x] == states[i].jobs[x]
    ensures forall x :: x in states[j].jobs && x !in states[i].jobs && states[j].jobs[x].craft == id ==>
      states[j].jobs[x].recipe == RecipeOf(book, states[i].tables.crafts[id].recipe)
    decreases j
  {
    hide JointNext, CurrentRead, JointInit, Remakes, RecipeOf;
    if i < j {
      RecordsAreOfRecipe(cfg, book, states, acts, i, j - 1, id);
      JointRunKeepsInv(cfg, book, states, acts, j - 1);
      assert JointNext(cfg, book, states[j - 1], acts[j - 1], states[j - 1 + 1]);
      hide JointInv;
      StepKeepsRecipe(cfg, book, states[j - 1], acts[j - 1], states[j], id);
    }
  }

  /**
    Take a craft that is neither made nor cancelled between two states of a run, nor committed by
    anything but its machine, and that is gone at the second. Then one transfer was stored for each
    repeat that was open at the first; each holds the inputs of one repeat of the craft's recipe, to
    the last item, sent to the slots and the tank that the recipe's lines stand for; nothing had
    arrived for it at the first state; and each that has left the store was delivered in full, and
    brought each place its due, unless a setup emptied its stores.
   */
  lemma CraftGetsItsInputs(cfg: Config, book: Book, states: seq<Joint>, acts: seq<JointAct>, i: nat, j: nat, id: int)
    requires GoodConfig(cfg) && GoodBook(book) && IsJointRun(cfg, book, states, acts) && i <= j < |states|
    requires forall k :: i <= k < j ==> !Remakes(acts[k], id)
    requires id in states[i].tables.crafts && id !in states[j].tables.crafts && ElsewhereIn(acts[i..j], id) == 0
    ensures var stored := RecordsFor(states[j], id) - RecordsFor(states[i], id);
      var r := RecipeOf(book, states[i].tables.crafts[id].recipe);
      && |stored| == Open(states[i].tables.crafts[id])
      && forall x :: x in stored ==>
        && x in states[j].sys.log && states[j].sys.log[x].items <= |states[j].sys.log[x].lines|
        && (forall u :: LinesOf(states[j].sys.log[x], u) == AmountOf(r.ingredients, u) + AmountOf(r.catalysts, u))
        && (x !in states[j].sys.live ==> (FullyDelivered(states[j].sys, x) <==> x !in states[j].sys.spoiled))
        && DeliveredKnown(states[j].sys) && x in states[j].jobs
        && states[j].jobs[x].craft == id && states[j].jobs[x].recipe == r && BringsItsDue(states[j], x)
        && DeliveredKnown(states[i].sys) && forall t :: BroughtBy(states[i].sys, x, t) == 0
  {
    StartsMatchRecords(cfg, book, states, acts, i, j, id);
    RecordsAreOfRecipe(cfg, book, states, acts, i, j, id);
    JointRunKeepsInv(cfg, book, states, acts, i);
    JointRunKeepsInv(cfg, book, states, acts, j);
    var s := states[j];
    var r := RecipeOf(book, states[i].tables.crafts[id].recipe);
    var before := states[i];
    assert Holds(s.sys) && JobsMatch(cfg, s) && DeliveredKnown(s.sys);
    assert DeliveredKnown(before.sys) && before.jobs.Keys == before.sys.log.Keys;
    hide Holds, JointInv, IsJointRun, RecordMatches, LinesOf, FullyDelivered, Remakes, ElsewhereIn, RecipeOf;
    hide BroughtBy, BringsItsDue, DeliveredKnown;
    forall x | x in RecordsFor(s, id) - RecordsFor(states[i], id)
      ensures x in s.sys.log && s.sys.log[x].items <= |s.sys.log[x].lines|
      ensures forall u :: LinesOf(s.sys.log[x], u) == AmountOf(r.ingredients, u) + AmountOf(r.catalysts, u)
      ensures x !in s.sys.live ==> (FullyDelivered(s.sys, x) <==> x !in s.sys.spoiled)
      ensures x in s.jobs && s.jobs[x].craft == id && s.jobs[x].recipe == r && BringsItsDue(s, x)
      ensures forall t :: BroughtBy(before.sys, x, t) == 0
    {
      RecordBringsItsDue(cfg, s, x);
      forall t ensures BroughtBy(before.sys, x, t) == 0 {
        NothingBroughtBefore(before.sys, x, t);
      }
      assert x !in states[i].jobs && s.jobs[x].recipe == r && RecordMatches(cfg, s.sys.log[x], s.jobs[x]);
      forall u ensures s.sys.log[x].items <= |s.sys.log[x].lines|
        && LinesOf(s.sys.log[x], u) == AmountOf(r.ingredients, u) + AmountOf(r.catalysts, u)
      {
        RecordHoldsInputs(cfg, s.sys.log[x], s.jobs[x], u);
      }
      WholeIff(s.sys, x);
      if x !in s.sys.live {
        WholeIsDelivered(s.sys, x);
      }
    }
  }
}
