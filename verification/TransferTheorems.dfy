/** Exactly-once delivery and conservation over every run, and the runs on which nothing is lost. */
module TransferTheorems {
  import opened Recipes
  import opened Sums
  import opened Transfer
  import opened TransferSafety

  ghost predicate HeldBy(s: Sys, id: int, store: string) {
    id in s.live && id in s.log && store in s.log[id].subjects
  }

  /**
    Every live record with items still in a store the request will empty also shares one of the
    request's subjects, so the setup drains it first. Checked when the request begins.
   */
  ghost predicate Shares(cfg: Config, s: Sys, req: Request) {
    |req.fluids| <= |cfg.tanks| &&
    forall p, id :: p in s.staged && p.store in Dumped(cfg, req) && HeldBy(s, id, p.store)
      ==> Meets(s.log, id, Subjects(cfg, req))
  }

  /** Requests in progress keep sharing: records can only be dropped while one is being set up. */
  ghost predicate PendingShares(cfg: Config, s: Sys) {
    match s.pc
    case Restoring(req, _) => Shares(cfg, s, req)
    case Dumping(req) => Shares(cfg, s, req)
    case Draining(_, _, after) => after.Resume? ==> Shares(cfg, s, after.req)
    case _ => true
  }

  ghost predicate GoodAct(cfg: Config, s: Sys, a: Act) {
    a.Begin? ==> Shares(cfg, s, a.req)
  }

  lemma SubjectsDumped(cfg: Config, req: Request)
    requires |req.fluids| <= |cfg.tanks|
    ensures Subjects(cfg, req) <= Dumped(cfg, req)
  {
  }

  /** Without configured tanks, or when a request locks all of them, nothing more is asked of it. */
  lemma AllTanksLockedShares(cfg: Config, s: Sys, req: Request)
    requires |req.fluids| == |cfg.tanks|
    ensures Shares(cfg, s, req)
  {
    assert Dumped(cfg, req) == Subjects(cfg, req);
    forall p, id | p in s.staged && p.store in Dumped(cfg, req) && HeldBy(s, id, p.store)
      ensures Meets(s.log, id, Subjects(cfg, req))
    {
      assert p.store in s.log[id].subjects && p.store in Subjects(cfg, req);
    }
  }

  lemma DumpedIsUnheld(cfg: Config, s: Sys, p: Place)
    requires CounterKnown(cfg, s) && PendingShares(cfg, s) && s.pc.Dumping?
    requires p in s.staged && p.store in Dumped(cfg, s.pc.req)
    ensures !HeldByLive(s, p.store)
  {
    var subjects := Subjects(cfg, s.pc.req);
    assert forall id :: HeldBy(s, id, p.store) ==> Meets(s.log, id, subjects);
    assert forall id :: id in s.live ==> !Meets(s.log, id, subjects);
    assert forall id :: id in s.live && id in s.log && p.store in s.log[id].subjects ==> HeldBy(s, id, p.store);
  }

  lemma DumpKeepsInv(cfg: Config, s: Sys, p: Place, k: int, s': Sys)
    requires Inv(cfg, s) && DumpStep(cfg, s, p, k, s')
    ensures Inv(cfg, s')
  {
    DumpKeepsHolds(s, p, k);
    hide Holds, Meets;
  }

  lemma DumpDoneKeepsInv(cfg: Config, s: Sys, s': Sys)
    requires Inv(cfg, s) && DumpDoneStep(cfg, s, s')
    ensures Inv(cfg, s')
  {
    hide Holds, Meets;
    HoldsIgnoresCounter(s, s'.pc);
    SubjectsDumped(cfg, s.pc.req);
  }

  lemma InsertKeepsInv(cfg: Config, s: Sys, id: int, s': Sys)
    requires Inv(cfg, s) && InsertStep(cfg, s, id, s')
    ensures Inv(cfg, s')
  {
    hide Holds, Meets;
    HoldsIgnoresCounter(s, s'.pc);
  }

  lemma CommitKeepsInv(cfg: Config, s: Sys, s': Sys)
    requires GoodConfig(cfg) && Inv(cfg, s) && CommitStep(cfg, s, s')
    ensures Inv(cfg, s')
  {
    CommitKeepsHolds(cfg, s, s');
    CommitWrites(cfg, s, s');
    StartsDraining(cfg, s', s.pc.id);
    hide *;
    assert Inv(cfg, s') by { KnownHolds(cfg, s'); }
  }

  lemma StartsDraining(cfg: Config, s: Sys, id: int)
    requires id in s.live && id in s.log && s.pc == Draining(id, 0, Nothing)
    ensures CounterKnown(cfg, s)
  {
  }

  lemma KnownHolds(cfg: Config, s: Sys)
    requires Holds(s) && CounterKnown(cfg, s)
    ensures Inv(cfg, s)
  {
  }

  lemma NextKeepsInv(cfg: Config, s: Sys, a: Act, s': Sys)
    requires GoodConfig(cfg) && Inv(cfg, s) && Next(cfg, s, a, s')
    ensures Inv(cfg, s')
  {
    hide MoveStep, StageStep, BeginStep, RestoreStep, DropStep, DumpStep, DumpDoneStep, InsertStep, CommitStep, Inv;
    match a
    case Begin(_) => CounterStepKeepsInv(cfg, s, a, s');
    case RestoreNext => CounterStepKeepsInv(cfg, s, a, s');
    case Ping(_) => CounterStepKeepsInv(cfg, s, a, s');
    case NotEmpty => CounterStepKeepsInv(cfg, s, a, s');
    case Abort => CounterStepKeepsInv(cfg, s, a, s');
    case MoveLine(k) => MoveKeepsInv(cfg, s, k, s');
    case LoseReply(k) => MoveKeepsInv(cfg, s, k, s');
    case Drop => DropKeepsInv(cfg, s, s');
    case Stage => StageKeepsInv(cfg, s, NextLine(cfg, s).amount, s');
    case StageShort(k) => StageKeepsInv(cfg, s, k, s');
    case Dump(p, k) => DumpKeepsInv(cfg, s, p, k, s');
    case DumpDone => DumpDoneKeepsInv(cfg, s, s');
    case Insert(id) => InsertKeepsInv(cfg, s, id, s');
    case CommitDb => CommitKeepsInv(cfg, s, s');
  }

  lemma NextKeepsShares(cfg: Config, s: Sys, a: Act, s': Sys)
    requires CounterKnown(cfg, s) && PendingShares(cfg, s) && GoodAct(cfg, s, a) && Next(cfg, s, a, s')
    ensures PendingShares(cfg, s')
  {
    hide CounterKnown, MoveStep, StageStep, Finds, Shares, StoresEmpty, Admitted, Lines, Subjects, Dumped, RecordOf;
    match a
    case RestoreNext => SharesShrinks(cfg, s, s', s.pc.req);
    case MoveLine(k) => MoveKeepsShares(cfg, s, k, s');
    case Drop => if s.pc.after.Resume? { SharesShrinks(cfg, s, s', s.pc.after.req); }
    case Dump(_, _) => SharesShrinks(cfg, s, s', s.pc.req);
    case Begin(req) => SharesShrinks(cfg, s, s', req);
    case _ =>
  }

  lemma MoveKeepsShares(cfg: Config, s: Sys, k: int, s': Sys)
    requires PendingShares(cfg, s) && Next(cfg, s, MoveLine(k), s')
    ensures PendingShares(cfg, s')
  {
    hide MovesLine, Shares;
    MoveKeepsLog(s, s.pc.id, s.pc.next, s.log[s.pc.id].lines[s.pc.next], k, s'.(pc := s.pc));
    if s.pc.after.Resume? { SharesShrinks(cfg, s, s', s.pc.after.req); }
  }

  lemma SharesShrinks(cfg: Config, s: Sys, s': Sys, req: Request)
    requires Shares(cfg, s, req) && s'.live <= s.live && s'.log == s.log && s'.staged.Keys <= s.staged.Keys
    ensures Shares(cfg, s', req)
  {
    forall p, id | p in s'.staged && p.store in Dumped(cfg, req) && HeldBy(s', id, p.store)
      ensures Meets(s'.log, id, Subjects(cfg, req))
    {
      assert p in s.staged && HeldBy(s, id, p.store);
    }
  }

  // ---------------------------------------------------------------- deliveries

  function LineOf(s: Sys, k: LineKey): Line
    requires k.tx in s.log && 0 <= k.line < |s.log[k.tx].lines|
  {
    s.log[k.tx].lines[k.line]
  }

  predicate GoesTo(s: Sys, k: LineKey, t: TargetKey)
    requires k.tx in s.log && 0 <= k.line < |s.log[k.tx].lines|
  {
    LineOf(s, k).target == t.place && LineOf(s, k).uid == t.uid
  }

  /** The deliveries of committed lines that went to one target. */
  ghost function DeliveredTo(s: Sys, t: TargetKey): map<LineKey, int>
    requires DeliveredKnown(s)
  {
    map k | k in s.delivered && GoesTo(s, k, t) :: s.delivered[k]
  }

  /** What arrived anywhere is exactly what the committed lines delivered there. */
  ghost predicate TargetsExact(s: Sys) {
    DeliveredKnown(s) && forall t :: Get(s.targets, t) == Sum(DeliveredTo(s, t))
  }

  /** What a move of a line that still has its own items writes. */
  lemma MoveWrites(s: Sys, id: int, i: nat, line: Line, k: int, s': Sys)
    requires LineExact(s, id, i, line) && MovesLine(s, id, i, line, k, s')
    ensures k == 0 ==> s' == s
    ensures k > 0 ==>
      && var key, t := LineKey(id, i), TargetKey(line.target, line.uid);
      && s'.targets == s.targets[t := Get(s.targets, t) + k]
      && s'.delivered == s.delivered[key := Get(s.delivered, key) + k]
      && s'.log == s.log
  {
  }

  lemma MoveKeepsTargets(s: Sys, id: int, i: nat, line: Line, k: int, s': Sys)
    requires id in s.log && i < |s.log[id].lines| && s.log[id].lines[i] == line
    requires LineExact(s, id, i, line) && MovesLine(s, id, i, line, k, s') && TargetsExact(s)
    ensures TargetsExact(s')
  {
    hide LineExact, TargetsExact, MovesLine, Sum, DeliveredKnown, DeliveredTo, Get;
    MoveWrites(s, id, i, line, k, s');
    if k != 0 {
      assert k > 0 by { MoveIsPositive(s, id, i, line, k, s'); }
      WritesKeepTargets(s, LineKey(id, i), k, s');
    }
  }

  lemma MoveIsPositive(s: Sys, id: int, i: nat, line: Line, k: int, s': Sys)
    requires MovesLine(s, id, i, line, k, s')
    ensures k >= 0
  {
  }

  lemma WritesKeepTargets(s: Sys, key: LineKey, k: int, s': Sys)
    requires TargetsExact(s) && k > 0 && s'.log == s.log
    requires key.tx in s.log && 0 <= key.line < |s.log[key.tx].lines|
    requires s'.delivered == s.delivered[key := Get(s.delivered, key) + k]
    requires var t := TargetKey(LineOf(s, key).target, LineOf(s, key).uid);
      s'.targets == s.targets[t := Get(s.targets, t) + k]
    ensures TargetsExact(s')
  {
    assert DeliveredKnown(s');
    forall t ensures Get(s'.targets, t) == Sum(DeliveredTo(s', t)) {
      assert Get(s.targets, t) == Sum(DeliveredTo(s, t));
      DeliveredMoves(s, s', key, k, t);
    }
  }

  lemma SameGoals(s: Sys, s': Sys, t: TargetKey, k: LineKey)
    requires k.tx in s.log && 0 <= k.line < |s.log[k.tx].lines| && k.tx in s'.log && s'.log[k.tx] == s.log[k.tx]
    ensures GoesTo(s', k, t) <==> GoesTo(s, k, t)
  {
  }

  lemma DeliveredMoves(s: Sys, s': Sys, key: LineKey, k: int, t: TargetKey)
    requires DeliveredKnown(s) && DeliveredKnown(s') && s'.log == s.log
    requires key.tx in s.log && 0 <= key.line < |s.log[key.tx].lines|
    requires s'.delivered == s.delivered[key := Get(s.delivered, key) + k]
    ensures Sum(DeliveredTo(s', t)) == Sum(DeliveredTo(s, t)) + if GoesTo(s, key, t) then k else 0
  {
    forall j | j in s'.delivered ensures GoesTo(s', j, t) <==> GoesTo(s, j, t) {
      SameGoals(s, s', t, j);
    }
    hide GoesTo, Sum;
    var v := Get(s.delivered, key) + k;
    if GoesTo(s, key, t) {
      assert DeliveredTo(s', t) == DeliveredTo(s, t)[key := v];
      SumUpdate(DeliveredTo(s, t), key, v);
    } else {
      assert DeliveredTo(s', t) == DeliveredTo(s, t);
    }
  }

  lemma SameDeliveries(s: Sys, s': Sys)
    requires TargetsExact(s) && s'.delivered == s.delivered && s'.targets == s.targets
    requires forall id :: id in s.log ==> id in s'.log && s'.log[id] == s.log[id]
    ensures TargetsExact(s')
  {
    forall t ensures Get(s'.targets, t) == Sum(DeliveredTo(s', t)) {
      assert Get(s.targets, t) == Sum(DeliveredTo(s, t));
      assert DeliveredTo(s', t) == DeliveredTo(s, t);
    }
  }

  lemma MoveStepKeepsTargets(cfg: Config, s: Sys, k: int, s': Sys)
    requires Inv(cfg, s) && TargetsExact(s) && AtLine(s) && MoveStep(s, k, s')
    ensures TargetsExact(s')
  {
    var id, i := s.pc.id, s.pc.next;
    var line := s.log[id].lines[i];
    LiveLineExact(cfg, s, id, i);
    hide Inv, TargetsExact, MovesLine, LineExact, DeliveredKnown, DeliveredTo, Sum;
    MoveKeepsTargets(s, id, i, line, k, s'.(pc := s.pc));
    SameDeliveries(s'.(pc := s.pc), s');
  }

  lemma LiveLineExact(cfg: Config, s: Sys, id: int, i: nat)
    requires Inv(cfg, s) && s.pc.Draining? && s.pc.id == id && i < |s.log[id].lines|
    ensures id in s.live && LineExact(s, id, i, s.log[id].lines[i])
  {
    hide LineExact, GoodRecord, Locked, DeliveredKnown, FullyDelivered;
    assert Owns(s, id);
  }

  /** No step but a move changes what is delivered, and no step rewrites a stored record. */
  lemma OnlyMovesDeliver(cfg: Config, s: Sys, a: Act, s': Sys)
    requires CounterKnown(cfg, s) && Next(cfg, s, a, s') && !a.MoveLine? && !a.LoseReply?
    ensures s'.delivered == s.delivered && s'.targets == s.targets
    ensures forall id :: id in s.log ==> id in s'.log && s'.log[id] == s.log[id]
  {
    hide Finds, StoresEmpty, StageStep, RecordOf, Lines, Free, StagedSoFar, Subjects, Dumped, Admitted, QueueKnown, Get;
    match a
    case CommitDb =>
    case Stage => StageKeepsRest(cfg, s, NextLine(cfg, s).amount, s');
    case StageShort(k) => StageKeepsRest(cfg, s, k, s');
    case _ =>
  }

  lemma StageKeepsRest(cfg: Config, s: Sys, k: int, s': Sys)
    requires AtStage(cfg, s) && StageStep(cfg, s, k, s')
    ensures s'.delivered == s.delivered && s'.targets == s.targets && s'.log == s.log && s'.spoiled == s.spoiled
  {
    hide NextLine;
  }

  lemma NextKeepsTargets(cfg: Config, s: Sys, a: Act, s': Sys)
    requires Inv(cfg, s) && TargetsExact(s) && Next(cfg, s, a, s')
    ensures TargetsExact(s')
  {
    if a.MoveLine? || a.LoseReply? {
      MoveStepKeepsTargets(cfg, s, a.k, s');
    } else {
      InvKnows(cfg, s);
      hide Next, Inv, TargetsExact, CounterKnown;
      OnlyMovesDeliver(cfg, s, a, s');
      SameDeliveries(s, s');
    }
  }

  /** Only the database commit adds a record, and only a setup that empties a store spoils one. */
  lemma OnlyDumpsSpoil(cfg: Config, s: Sys, a: Act, s': Sys)
    requires Next(cfg, s, a, s')
    ensures !a.CommitDb? ==> s'.log == s.log
    ensures s'.spoiled == s.spoiled + if a.Dump? then Holders(s, a.place.store) else {}
  {
    hide Finds, StoresEmpty, MoveStep, StageStep, RecordOf, Lines, Subjects, Dumped, Admitted, Get;
    match a
    case MoveLine(k) => MoveKeepsRest(s, k, s');
    case LoseReply(k) => MoveKeepsRest(s, k, s');
    case Stage => StageKeepsRest(cfg, s, NextLine(cfg, s).amount, s');
    case StageShort(k) => StageKeepsRest(cfg, s, k, s');
    case _ =>
  }

  lemma MoveKeepsRest(s: Sys, k: int, s': Sys)
    requires AtLine(s) && MoveStep(s, k, s')
    ensures s'.log == s.log && s'.spoiled == s.spoiled
  {
    hide MovesLine;
    MoveKeepsLog(s, s.pc.id, s.pc.next, s.log[s.pc.id].lines[s.pc.next], k, s'.(pc := s.pc));
  }

  // ---------------------------------------------------------------- runs

  /** Nothing committed yet; what lies in the staging stores is litter of earlier attempts. */
  ghost predicate Init(s: Sys) {
    && s.log == map[] && s.live == {} && s.targets == map[] && s.delivered == map[] && s.spoiled == {}
    && s.pc == Idle && forall p :: p in s.staged ==> s.staged[p].count > 0
  }

  ghost predicate InitRun(cfg: Config, states: seq<Sys>, acts: seq<Act>) {
    IsRun(cfg, states, acts) && Init(states[0])
  }

  lemma RunGrows(cfg: Config, states: seq<Sys>, acts: seq<Act>, a: Act, s': Sys)
    requires InitRun(cfg, states, acts) && Next(cfg, states[|acts|], a, s')
    ensures InitRun(cfg, states + [s'], acts + [a])
  {
    hide Next, Init;
    var states', acts' := states + [s'], acts + [a];
    forall i | 0 <= i < |acts'| ensures Next(cfg, states'[i], acts'[i], states'[i + 1]) {
      if i < |acts| {
        assert Next(cfg, states[i], acts[i], states[i + 1]);
      }
    }
  }

  ghost predicate AllHold(cfg: Config, s: Sys) {
    Inv(cfg, s) && TargetsExact(s)
  }

  lemma InitHolds(cfg: Config, s: Sys)
    requires Init(s)
    ensures AllHold(cfg, s)
  {
    forall t ensures Sum(DeliveredTo(s, t)) == 0 {
      SumZero(DeliveredTo(s, t));
    }
  }

  lemma NextKeepsAll(cfg: Config, s: Sys, a: Act, s': Sys)
    requires GoodConfig(cfg) && AllHold(cfg, s) && Next(cfg, s, a, s')
    ensures AllHold(cfg, s')
  {
    hide Inv, TargetsExact, Next;
    NextKeepsInv(cfg, s, a, s');
    NextKeepsTargets(cfg, s, a, s');
  }

  lemma InvKnows(cfg: Config, s: Sys)
    requires Inv(cfg, s)
    ensures CounterKnown(cfg, s)
  {
  }

  lemma {:induction false} RunKeepsAll(cfg: Config, states: seq<Sys>, acts: seq<Act>, n: nat)
    requires GoodConfig(cfg) && InitRun(cfg, states, acts) && n < |states|
    ensures AllHold(cfg, states[n])
  {
    hide Next, AllHold, Init;
    if n == 0 {
      InitHolds(cfg, states[0]);
    } else {
      RunKeepsAll(cfg, states, acts, n - 1);
      assert Next(cfg, states[n - 1], acts[n - 1], states[n - 1 + 1]);
      NextKeepsAll(cfg, states[n - 1], acts[n - 1], states[n]);
    }
  }

  /** While the record was stored, a setup returned items from a store that it locks. */
  ghost predicate SpoiledBy(states: seq<Sys>, acts: seq<Act>, n: nat, id: int) {
    exists j ::
      0 <= j < n && j < |acts| && j < |states| && acts[j].Dump? && id in Holders(states[j], acts[j].place.store)
  }

  lemma {:induction false} SpoiledIff(cfg: Config, states: seq<Sys>, acts: seq<Act>, n: nat, id: int)
    requires InitRun(cfg, states, acts) && n < |states|
    ensures id in states[n].spoiled <==> SpoiledBy(states, acts, n, id)
  {
    hide Next, Holders;
    if n > 0 {
      SpoiledIff(cfg, states, acts, n - 1, id);
      assert Next(cfg, states[n - 1], acts[n - 1], states[n - 1 + 1]);
      OnlyDumpsSpoil(cfg, states[n - 1], acts[n - 1], states[n]);
    }
  }

  /**
    In every state of every run, crash states included: no line of a stored transfer has more than
    its amount delivered and still staged; all of it is there, and a dropped transfer is delivered
    in full, if and only if no setup ever returned items from a store the transfer locked; nothing
    arrives that no committed transfer sent; and at most one stored transfer holds any store.
   */
  lemma ExactlyOnce(cfg: Config, states: seq<Sys>, acts: seq<Act>, n: nat)
    requires GoodConfig(cfg) && InitRun(cfg, states, acts) && n < |states|
    ensures var s := states[n];
      && (forall id, i :: id in s.live && id in s.log && 0 <= i < |s.log[id].lines| ==>
          Get(s.delivered, LineKey(id, i)) + CountAt(s.staged, s.log[id].lines[i].from) <= s.log[id].lines[i].amount)
      && (forall id :: id in s.log ==> (Whole(s, id) <==> !SpoiledBy(states, acts, n, id)))
      && (forall id :: id in s.log && id !in s.live ==> (FullyDelivered(s, id) <==> !SpoiledBy(states, acts, n, id)))
      && TargetsExact(s) && Locked(s)
  {
    RunKeepsAll(cfg, states, acts, n);
    var s := states[n];
    forall id, i | id in s.live && id in s.log && 0 <= i < |s.log[id].lines|
      ensures Get(s.delivered, LineKey(id, i)) + CountAt(s.staged, s.log[id].lines[i].from) <= s.log[id].lines[i].amount
    {
      assert Owns(s, id);
      assert LineExact(s, id, i, s.log[id].lines[i]);
    }
    assert Locked(s) && Holds(s);
    hide Holds, Owns, Locked, InitRun, Whole, FullyDelivered, SpoiledBy;
    forall id | id in s.log
      ensures Whole(s, id) <==> !SpoiledBy(states, acts, n, id)
      ensures id !in s.live ==> (FullyDelivered(s, id) <==> !SpoiledBy(states, acts, n, id))
    {
      WholeIff(s, id);
      SpoiledIff(cfg, states, acts, n, id);
      if id !in s.live {
        WholeIsDelivered(s, id);
      }
    }
  }

  lemma WholeIsDelivered(s: Sys, id: int)
    requires id in s.log && id !in s.live
    ensures Whole(s, id) <==> FullyDelivered(s, id)
  {
    forall i | 0 <= i < |s.log[id].lines|
      ensures Accounted(s, id, i, s.log[id].lines[i]) == Get(s.delivered, LineKey(id, i))
    {
    }
  }

  // ---------------------------------------------------------------- runs on which nothing is lost

  ghost predicate GoodRun(cfg: Config, states: seq<Sys>, acts: seq<Act>) {
    InitRun(cfg, states, acts) && forall i :: 0 <= i < |acts| ==> GoodAct(cfg, states[i], acts[i])
  }

  lemma PendingSpoilsNothing(cfg: Config, s: Sys, a: Act, s': Sys)
    requires CounterKnown(cfg, s) && PendingShares(cfg, s) && Next(cfg, s, a, s')
    ensures s'.spoiled == s.spoiled
  {
    hide Next, CounterKnown, PendingShares;
    OnlyDumpsSpoil(cfg, s, a, s');
    if a.Dump? {
      assert s.pc.Dumping? && a.place in s.staged && a.place.store in Dumped(cfg, s.pc.req) by {
        DumpFacts(cfg, s, a, s');
      }
      DumpedIsUnheld(cfg, s, a.place);
      assert forall id: int :: id !in Holders(s, a.place.store);
    }
  }

  lemma DumpFacts(cfg: Config, s: Sys, a: Act, s': Sys)
    requires Next(cfg, s, a, s') && a.Dump?
    ensures s.pc.Dumping? && a.place in s.staged && a.place.store in Dumped(cfg, s.pc.req)
  {
  }

  /** If every request shares a subject with the records whose stores it empties, no transfer ever loses an item. */
  lemma {:induction false} SharingLosesNothing(cfg: Config, states: seq<Sys>, acts: seq<Act>, n: nat)
    requires GoodConfig(cfg) && GoodRun(cfg, states, acts) && n < |states|
    ensures PendingShares(cfg, states[n]) && states[n].spoiled == {}
    ensures forall id :: id in states[n].log ==> Whole(states[n], id)
  {
    RunKeepsAll(cfg, states, acts, n);
    hide Next, GoodAct, PendingShares, CounterKnown, Holds, Whole, AllHold;
    if n > 0 {
      SharingLosesNothing(cfg, states, acts, n - 1);
      RunKeepsAll(cfg, states, acts, n - 1);
      AllKnown(cfg, states[n - 1]);
      assert Next(cfg, states[n - 1], acts[n - 1], states[n - 1 + 1]) && GoodAct(cfg, states[n - 1], acts[n - 1]);
      NextKeepsShares(cfg, states[n - 1], acts[n - 1], states[n]);
      PendingSpoilsNothing(cfg, states[n - 1], acts[n - 1], states[n]);
    } else {
      InitShares(cfg, states[0]);
    }
    AllKnown(cfg, states[n]);
    forall id | id in states[n].log ensures Whole(states[n], id) {
      WholeIff(states[n], id);
    }
  }

  lemma InitShares(cfg: Config, s: Sys)
    requires Init(s)
    ensures PendingShares(cfg, s)
  {
  }

  lemma AllKnown(cfg: Config, s: Sys)
    requires AllHold(cfg, s)
    ensures CounterKnown(cfg, s) && Holds(s)
  {
  }

  /**
    Where every request asks for as many fluids as there are tanks, it locks all that it empties,
    and nothing is ever lost.
   */
  lemma LockingAllTanksLosesNothing(cfg: Config, states: seq<Sys>, acts: seq<Act>, n: nat)
    requires GoodConfig(cfg) && InitRun(cfg, states, acts) && n < |states|
    requires forall i :: 0 <= i < |acts| && acts[i].Begin? ==> |acts[i].req.fluids| == |cfg.tanks|
    ensures forall id :: id in states[n].log ==> Whole(states[n], id)
  {
    forall i | 0 <= i < |acts| ensures GoodAct(cfg, states[i], acts[i]) {
      if acts[i].Begin? {
        AllTanksLockedShares(cfg, states[i], acts[i].req);
      }
    }
    hide InitRun, GoodAct, Whole;
    SharingLosesNothing(cfg, states, acts, n);
  }

  lemma {:induction false} RunConserves(cfg: Config, states: seq<Sys>, acts: seq<Act>, u: Uid)
    requires IsRun(cfg, states, acts)
    ensures Total(states[|acts|], u) == Total(states[0], u)
    decreases |acts|
  {
    hide Next, Total;
    if acts != [] {
      var n := |acts| - 1;
      var states', acts' := states[..n + 1], acts[..n];
      assert IsRun(cfg, states', acts') by {
        forall i | 0 <= i < n ensures Next(cfg, states'[i], acts'[i], states'[i + 1]) {
          assert Next(cfg, states[i], acts[i], states[i + 1]);
        }
      }
      RunConserves(cfg, states', acts', u);
      assert Next(cfg, states[n], acts[n], states[n + 1]);
      NextConserves(cfg, states[n], acts[n], states[n + 1], u);
    }
  }
}
