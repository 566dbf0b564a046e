/**
  What can always be reached: every stored transfer can finish. And the exact condition under
  which setting a transfer up is safe for the stored ones.
 */
module TransferReach {
  import opened Recipes
  import opened Transfer
  import opened TransferSafety
  import opened TransferTheorems

  /** The run leads from `s` to `s'`, and begins no request but `req`. */
  ghost predicate Leads(cfg: Config, s: Sys, req: Option<Request>, states: seq<Sys>, acts: seq<Act>, s': Sys) {
    && IsRun(cfg, states, acts) && states[0] == s && states[|acts|] == s'
    && forall i :: 0 <= i < |acts| && acts[i].Begin? ==> Some(acts[i].req) == req
  }

  ghost predicate Reaches(cfg: Config, s: Sys, req: Option<Request>, s': Sys) {
    exists states, acts :: Leads(cfg, s, req, states, acts, s')
  }

  lemma ReachesSelf(cfg: Config, s: Sys, req: Option<Request>)
    ensures Reaches(cfg, s, req, s)
  {
    assert Leads(cfg, s, req, [s], [], s);
  }

  /** A step in front of a run. */
  lemma StepReaches(cfg: Config, s: Sys, a: Act, mid: Sys, req: Option<Request>, s': Sys)
    requires Next(cfg, s, a, mid) && (a.Begin? ==> Some(a.req) == req) && Reaches(cfg, mid, req, s')
    ensures Reaches(cfg, s, req, s')
  {
    hide Next;
    var states, acts :| Leads(cfg, mid, req, states, acts, s');
    var states', acts' := [s] + states, [a] + acts;
    forall j | 0 <= j < |acts'| ensures Next(cfg, states'[j], acts'[j], states'[j + 1]) {
      if j > 0 {
        assert Next(cfg, states[j - 1], acts[j - 1], states[j - 1 + 1]);
      }
    }
    assert Leads(cfg, s, req, states', acts', s');
  }

  // ---------------------------------------------------------------- completion

  /** The state after one undisturbed move of everything left at a line's place. */
  function Moved(s: Sys, id: int, i: nat, line: Line): Sys {
    if line.from !in s.staged then s
    else
      var pile := s.staged[line.from];
      var key := TargetKey(line.target, pile.uid);
      s.(staged := TakeFrom(s.staged, line.from, pile.count),
         targets := s.targets[key := Get(s.targets, key) + pile.count],
         delivered := s.delivered[LineKey(id, i) := Get(s.delivered, LineKey(id, i)) + pile.count])
  }

  lemma MovedIsMove(s: Sys, id: int, i: nat, line: Line)
    requires LineExact(s, id, i, line) && id in s.live && Get(s.delivered, LineKey(id, i)) >= 0
      && CountAt(s.staged, line.from) >= 0
    requires line.from in s.staged ==> s.staged[line.from].count > 0
    ensures MovesLine(s, id, i, line, CountAt(s.staged, line.from), Moved(s, id, i, line))
    ensures Moved(s, id, i, line).staged == s.staged - {line.from}
    ensures Moved(s, id, i, line).log == s.log && Moved(s, id, i, line).spoiled == s.spoiled
  {
  }

  lemma CountsAreNatural(s: Sys, id: int, i: nat, line: Line)
    requires Holds(s)
    ensures Get(s.delivered, LineKey(id, i)) >= 0 && CountAt(s.staged, line.from) >= 0
    ensures line.from in s.staged ==> s.staged[line.from].count > 0
  {
    hide Owns, GoodRecord, Locked, FullyDelivered;
  }

  ghost predicate Cleared(staged: map<Place, Pile>, lines: seq<Line>, n: nat) {
    forall j :: 0 <= j < n <= |lines| ==> lines[j].from !in staged
  }

  ghost predicate Replaying(cfg: Config, s: Sys, id: int, i: nat, after: After) {
    Inv(cfg, s) && s.pc == Draining(id, i, after) && id in s.log && Cleared(s.staged, s.log[id].lines, i)
  }

  /** What draining record `id` leaves alone. */
  ghost predicate OthersStay(s: Sys, id: int, s': Sys) {
    && id in s.log && s'.log == s.log
    && forall p :: p in s.staged && p.store !in s.log[id].subjects ==> p in s'.staged && s'.staged[p] == s.staged[p]
  }

  lemma MoveIsNext(cfg: Config, s: Sys, k: int, moved: Sys, s': Sys)
    requires AtLine(s) && MovesLine(s, s.pc.id, s.pc.next, s.log[s.pc.id].lines[s.pc.next], k, moved)
    requires s' == moved.(pc := s.pc.(next := s.pc.next + 1))
    ensures AtLine(s) && MoveStep(s, k, s') && Next(cfg, s, MoveLine(k), s') && s'.log == s.log && s'.live == s.live
      && s'.staged == moved.staged
    ensures s'.spoiled == s.spoiled
  {
    MoveKeepsLog(s, s.pc.id, s.pc.next, s.log[s.pc.id].lines[s.pc.next], k, moved);
    hide MovesLine;
    assert s'.(pc := s.pc) == moved;
  }

  lemma LineStore(cfg: Config, s: Sys, id: int, i: nat)
    requires Inv(cfg, s) && id in s.log && i < |s.log[id].lines|
    ensures s.log[id].lines[i].from.store in s.log[id].subjects
  {
    hide Owns, Locked, FullyDelivered, DeliveredKnown, CounterKnown;
    assert GoodRecord(s.log[id]);
  }

  lemma ReplayMoves(cfg: Config, s: Sys, id: int, i: nat, after: After) returns (a: Act, s': Sys)
    requires Replaying(cfg, s, id, i, after) && i < |s.log[id].lines|
    ensures Next(cfg, s, a, s') && !a.Begin? && Replaying(cfg, s', id, i + 1, after)
    ensures OthersStay(s, id, s') && s'.live == s.live && s'.spoiled == s.spoiled
  {
    var line := s.log[id].lines[i];
    var k := CountAt(s.staged, line.from);
    a := MoveLine(k);
    LiveLineExact(cfg, s, id, i);
    CountsAreNatural(s, id, i, line);
    LineStore(cfg, s, id, i);
    hide Inv, LineExact, MovesLine, Next, CountAt, MoveStep;
    MovedIsMove(s, id, i, line);
    var moved := Moved(s, id, i, line);
    hide Moved;
    s' := moved.(pc := Draining(id, i + 1, after));
    MoveIsNext(cfg, s, k, moved, s');
    MoveKeepsInv(cfg, s, k, s');
    ClearsOne(s, s', id, i);
    hide Cleared, OthersStay;
  }

  lemma ClearsOne(s: Sys, s': Sys, id: int, i: nat)
    requires id in s.log && i < |s.log[id].lines| && Cleared(s.staged, s.log[id].lines, i)
    requires s.log[id].lines[i].from.store in s.log[id].subjects
    requires s'.staged == s.staged - {s.log[id].lines[i].from} && s'.log == s.log
    ensures Cleared(s'.staged, s.log[id].lines, i + 1) && OthersStay(s, id, s')
  {
  }

  lemma ReplayDrops(cfg: Config, s: Sys, id: int, after: After)
    requires id in s.log && Replaying(cfg, s, id, |s.log[id].lines|, after)
    ensures var s' := s.(live := s.live - {id}, pc := Continue(after));
      Next(cfg, s, Drop, s') && Inv(cfg, s')
  {
    assert Owns(s, id) && GoodRecord(s.log[id]);
    assert StoresEmpty(s.staged, s.log[id].lines);
    hide Inv, Cleared, StoresEmpty;
    DropKeepsInv(cfg, s, s.(live := s.live - {id}, pc := Continue(after)));
  }

  lemma OthersStayOn(s: Sys, id: int, mid: Sys, s': Sys)
    requires OthersStay(s, id, mid) && OthersStay(mid, id, s')
    ensures OthersStay(s, id, s')
  {
  }

  lemma {:induction false} ReplayFrom(cfg: Config, s: Sys, id: int, i: nat, after: After, req: Option<Request>)
    returns (s': Sys)
    requires id in s.log && Replaying(cfg, s, id, i, after) && i <= |s.log[id].lines|
    ensures Reaches(cfg, s, req, s') && Inv(cfg, s') && OthersStay(s, id, s')
    ensures s'.live == s.live - {id} && s'.pc == Continue(after) && s'.spoiled == s.spoiled
    decreases |s.log[id].lines| - i
  {
    hide Inv, Next, Reaches;
    if i == |s.log[id].lines| {
      s' := s.(live := s.live - {id}, pc := Continue(after));
      ReplayDrops(cfg, s, id, after);
      ReachesSelf(cfg, s', req);
      StepReaches(cfg, s, Drop, s', req, s');
    } else {
      var a, mid := ReplayMoves(cfg, s, id, i, after);
      s' := ReplayFrom(cfg, mid, id, i + 1, after, req);
      StepReaches(cfg, s, a, mid, req, s');
      OthersStayOn(s, id, mid, s');
    }
  }

  /** From any quiet state one undisturbed replay delivers and drops a stored transfer. */
  lemma EveryTransferCanFinish(cfg: Config, s: Sys, id: int) returns (s': Sys)
    requires Inv(cfg, s) && s.pc == Idle && id in s.live
    ensures Reaches(cfg, s, None, s') && Inv(cfg, s') && (FullyDelivered(s', id) <==> id !in s.spoiled)
    ensures s'.live == s.live - {id} && s'.pc == Idle && s'.spoiled == s.spoiled
  {
    var mid := s.(pc := Draining(id, 0, Nothing));
    assert Next(cfg, s, Ping(id), mid);
    CounterStepKeepsInv(cfg, s, Ping(id), mid);
    hide Next;
    s' := ReplayFrom(cfg, mid, id, 0, Nothing, None);
    WholeIff(s', id);
    WholeIsDelivered(s', id);
    hide Reaches;
    StepReaches(cfg, s, Ping(id), mid, None, s');
  }

  // ---------------------------------------------------------------- when setting up is safe

  /** Each line of each stored transfer: delivered and still staged make up its amount. */
  ghost predicate LinesExact(s: Sys) {
    forall id, i :: id in s.live && id in s.log && 0 <= i < |s.log[id].lines| ==>
      Get(s.delivered, LineKey(id, i)) + CountAt(s.staged, s.log[id].lines[i].from) == s.log[id].lines[i].amount
  }

  lemma InvMeansExact(cfg: Config, s: Sys)
    requires Inv(cfg, s) && s.spoiled == {}
    ensures LinesExact(s)
  {
    forall id, i | id in s.live && id in s.log && 0 <= i < |s.log[id].lines|
      ensures Get(s.delivered, LineKey(id, i)) + CountAt(s.staged, s.log[id].lines[i].from) == s.log[id].lines[i].amount
    {
      assert Owns(s, id) && LineExact(s, id, i, s.log[id].lines[i]);
    }
  }

  predicate WorksOn(pc: Counter, req: Request) {
    match pc
    case Idle => true
    case Restoring(r, _) => r == req
    case Dumping(r) => r == req
    case Staging(r, _) => r == req
    case Prepared(r, _) => r == req
    case Draining(_, _, after) => after.Resume? ==> after.req == req
  }

  ghost predicate Sharing(cfg: Config, s: Sys, req: Request) {
    Inv(cfg, s) && Shares(cfg, s, req) && WorksOn(s.pc, req) && s.spoiled == {}
  }

  lemma SharingIsPending(cfg: Config, s: Sys, req: Request)
    requires Shares(cfg, s, req) && WorksOn(s.pc, req)
    ensures PendingShares(cfg, s)
  {
  }

  lemma StageSharing(cfg: Config, s: Sys, k: int, s': Sys, req: Request)
    requires Admitted(cfg, req) && Shares(cfg, s, req) && s.pc.Staging? && s.pc.req == req && AtStage(cfg, s)
      && StageStep(cfg, s, k, s')
    ensures Shares(cfg, s', req)
  {
    LineStoreInSubjects(cfg, req, s.pc.done);
    var place := NextLine(cfg, s).from;
    assert place.store in Subjects(cfg, req);
    hide Subjects, Dumped, NextLine;
    forall p, id | p in s'.staged && p.store in Dumped(cfg, req) && HeldBy(s', id, p.store)
      ensures Meets(s'.log, id, Subjects(cfg, req))
    {
      if p != place {
        assert p in s.staged && HeldBy(s, id, p.store);
      }
    }
  }

  lemma StagingIsAdmitted(cfg: Config, s: Sys)
    requires Inv(cfg, s) && s.pc.Staging?
    ensures Admitted(cfg, s.pc.req)
  {
  }

  lemma CommitSharing(cfg: Config, s: Sys, s': Sys, req: Request)
    requires Shares(cfg, s, req) && s.pc.Prepared? && s.pc.req == req && s.pc.id !in s.log && CommitStep(cfg, s, s')
    ensures Shares(cfg, s', req)
  {
    hide Dumped, Subjects, Lines;
    forall p, id | p in s'.staged && p.store in Dumped(cfg, req) && HeldBy(s', id, p.store)
      ensures Meets(s'.log, id, Subjects(cfg, req))
    {
      if id == s.pc.id {
        assert p.store in s'.log[id].subjects && p.store in Subjects(cfg, req);
      } else {
        assert HeldBy(s, id, p.store);
        assert Meets(s.log, id, Subjects(cfg, req));
      }
    }
  }

  lemma MoveShrinks(s: Sys, k: int, s': Sys)
    requires AtLine(s) && MoveStep(s, k, s')
    ensures s'.live == s.live && s'.log == s.log && s'.staged.Keys <= s.staged.Keys
  {
    hide MovesLine;
    MoveKeepsLog(s, s.pc.id, s.pc.next, s.log[s.pc.id].lines[s.pc.next], k, s'.(pc := s.pc));
  }

  lemma PreparedIsNew(cfg: Config, s: Sys)
    requires Inv(cfg, s) && s.pc.Prepared?
    ensures s.pc.id !in s.log
  {
  }

  lemma StepKeepsRequest(cfg: Config, s: Sys, a: Act, s': Sys, req: Request)
    requires WorksOn(s.pc, req) && Next(cfg, s, a, s') && (a.Begin? ==> a.req == req)
    ensures WorksOn(s'.pc, req)
  {
    hide MoveStep, StageStep, Finds, StoresEmpty, Admitted, Lines, Subjects, Dumped, RecordOf, TakeFrom;
  }

  lemma StepKeepsShares(cfg: Config, s: Sys, a: Act, s': Sys, req: Request)
    requires Sharing(cfg, s, req) && Next(cfg, s, a, s')
    ensures Shares(cfg, s', req)
  {
    hide Inv, Shares, MoveStep, StageStep, Finds, StoresEmpty, Admitted, Lines, Subjects, Dumped, RecordOf;
    match a
    case MoveLine(k) => MoveShrinks(s, k, s'); SharesShrinks(cfg, s, s', req);
    case LoseReply(k) => MoveShrinks(s, k, s'); SharesShrinks(cfg, s, s', req);
    case Stage =>
      StagingIsAdmitted(cfg, s);
      StageSharing(cfg, s, NextLine(cfg, s).amount, s', req);
    case StageShort(k) =>
      StagingIsAdmitted(cfg, s);
      StageSharing(cfg, s, k, s', req);
    case CommitDb =>
      PreparedIsNew(cfg, s);
      CommitSharing(cfg, s, s', req);
    case _ => SharesShrinks(cfg, s, s', req);
  }

  /** While only this request begins, sharing holds on. */
  lemma StepKeepsSharing(cfg: Config, s: Sys, a: Act, s': Sys, req: Request)
    requires GoodConfig(cfg) && Sharing(cfg, s, req) && Next(cfg, s, a, s') && (a.Begin? ==> a.req == req)
    ensures Sharing(cfg, s', req)
  {
    SharingIsPending(cfg, s, req);
    StepKeepsShares(cfg, s, a, s', req);
    InvKnows(cfg, s);
    hide Inv, Shares, PendingShares, GoodConfig, Next, WorksOn, CounterKnown;
    NextKeepsInv(cfg, s, a, s');
    PendingSpoilsNothing(cfg, s, a, s');
    StepKeepsRequest(cfg, s, a, s', req);
  }

  lemma {:induction false} RunKeepsSharing(cfg: Config, s: Sys, req: Request, states: seq<Sys>, acts: seq<Act>, s': Sys)
    requires GoodConfig(cfg) && Sharing(cfg, s, req) && Leads(cfg, s, Some(req), states, acts, s')
    ensures Sharing(cfg, s', req)
    decreases |acts|
  {
    hide Next, Sharing, GoodConfig;
    if acts != [] {
      var n := |acts| - 1;
      var states', acts' := states[..n + 1], acts[..n];
      assert Leads(cfg, s, Some(req), states', acts', states[n]) by {
        forall i | 0 <= i < n ensures Next(cfg, states'[i], acts'[i], states'[i + 1]) {
          assert Next(cfg, states[i], acts[i], states[i + 1]);
        }
      }
      RunKeepsSharing(cfg, s, req, states', acts', states[n]);
      assert Next(cfg, states[n], acts[n], states[n + 1]);
      StepKeepsSharing(cfg, states[n], acts[n], s', req);
    }
  }

  /** Items of record `id` at place `p`, in a store that a request in progress will empty. */
  ghost predicate Victim(s: Sys, id: int, p: Place) {
    p in s.staged && HeldBy(s, id, p.store)
  }

  lemma VictimStays(cfg: Config, s: Sys, s': Sys, drained: int, id: int, p: Place)
    requires Inv(cfg, s) && Victim(s, id, p) && drained in s.live && drained in s.log && drained != id
    requires OthersStay(s, drained, s') && s'.live == s.live - {drained}
    ensures Victim(s', id, p)
  {
    assert Locked(s);
  }

  /** Draining the records a request waits for leaves every other record's items in place. */
  lemma {:induction false} QueueDrains(cfg: Config, s: Sys, req: Request, queue: seq<int>, id: int, p: Place)
    returns (s': Sys)
    requires Inv(cfg, s) && s.pc == Restoring(req, queue) && Victim(s, id, p) && id !in queue
    ensures Reaches(cfg, s, Some(req), s') && Inv(cfg, s') && s'.pc == Dumping(req) && Victim(s', id, p)
    decreases |queue|
  {
    var mid := if queue == [] then s.(pc := Dumping(req)) else s.(pc := Draining(queue[0], 0, Resume(req, queue[1..])));
    assert Next(cfg, s, RestoreNext, mid);
    CounterStepKeepsInv(cfg, s, RestoreNext, mid);
    if queue == [] {
      s' := mid;
      ReachesSelf(cfg, s', Some(req));
    } else {
      var other := queue[0];
      assert other in s.live && other in s.log by { assert other in queue; }
      assert Victim(mid, id, p);
      hide Inv, Next, Reaches, Victim, OthersStay;
      assert Replaying(cfg, mid, other, 0, Resume(req, queue[1..]));
      var drained := ReplayFrom(cfg, mid, other, 0, Resume(req, queue[1..]), Some(req));
      VictimStays(cfg, mid, drained, other, id, p);
      s' := QueueDrains(cfg, drained, req, queue[1..], id, p);
      ReachesOn(cfg, mid, Some(req), drained, s');
    }
    hide Reaches, Inv, Next, Victim;
    StepReaches(cfg, s, RestoreNext, mid, Some(req), s');
  }

  lemma ReachesOn(cfg: Config, s: Sys, req: Option<Request>, mid: Sys, s': Sys)
    requires Reaches(cfg, s, req, mid) && Reaches(cfg, mid, req, s')
    ensures Reaches(cfg, s, req, s')
  {
    hide Next;
    var states, acts :| Leads(cfg, s, req, states, acts, mid);
    var states', acts' :| Leads(cfg, mid, req, states', acts', s');
    var n := |acts|;
    var joined, all := states + states'[1..], acts + acts';
    forall j | 0 <= j < |all| ensures Next(cfg, joined[j], all[j], joined[j + 1]) {
      if j < n {
        assert Next(cfg, states[j], acts[j], states[j + 1]);
      } else {
        assert Next(cfg, states'[j - n], acts'[j - n], states'[j - n + 1]);
      }
    }
    assert Leads(cfg, s, req, joined, all, s');
  }

  lemma {:induction false} Listed<T>(items: set<T>) returns (list: seq<T>)
    ensures forall x :: x in list <==> x in items
    ensures forall i, j :: 0 <= i < j < |list| ==> list[i] != list[j]
  {
    if items == {} {
      list := [];
    } else {
      var x :| x in items;
      var rest := Listed(items - {x});
      list := [x] + rest;
    }
  }

  lemma TakingUnbalances(s: Sys, p: Place, id: int)
    requires Holds(s) && Victim(s, id, p)
    ensures !LinesExact(Returned(s, p, s.staged[p].count))
  {
    assert Owns(s, id);
    var i :| 0 <= i < |s.log[id].lines| && s.log[id].lines[i].from == p;
    assert LineExact(s, id, i, s.log[id].lines[i]) && s.staged[p].count > 0;
    var s' := Returned(s, p, s.staged[p].count);
    assert id in s'.live && Get(s'.delivered, LineKey(id, i))
      + CountAt(s'.staged, s'.log[id].lines[i].from) != s'.log[id].lines[i].amount;
  }

  lemma BeginWaits(cfg: Config, s: Sys, req: Request) returns (begun: Sys)
    requires Inv(cfg, s) && s.pc == Idle && Admitted(cfg, req) && |req.fluids| <= |cfg.tanks|
    ensures Next(cfg, s, Begin(req), begun) && Inv(cfg, begun) && begun == s.(pc := begun.pc)
    ensures begun.pc.Restoring? && begun.pc.req == req
    ensures forall x :: x in begun.pc.queue ==> Meets(s.log, x, Subjects(cfg, req))
  {
    hide Inv, Subjects, Meets, Admitted;
    var queue := Listed(set x | x in s.live && Meets(s.log, x, Subjects(cfg, req)));
    begun := s.(pc := Restoring(req, queue));
    assert Finds(s, Subjects(cfg, req), queue);
    CounterStepKeepsInv(cfg, s, Begin(req), begun);
  }

  lemma UnsharedBreaks(cfg: Config, s: Sys, req: Request) returns (s': Sys)
    requires Inv(cfg, s) && s.pc == Idle && Admitted(cfg, req) && !Shares(cfg, s, req)
    ensures Reaches(cfg, s, Some(req), s') && !LinesExact(s')
  {
    var p, id :| p in s.staged && p.store in Dumped(cfg, req) && HeldBy(s, id, p.store)
      && !Meets(s.log, id, Subjects(cfg, req));
    assert |req.fluids| <= |cfg.tanks|;
    hide Inv, Next, Reaches, Finds, Shares, Admitted, Subjects, Dumped, Meets, LinesExact;
    var begun := BeginWaits(cfg, s, req);
    var queue := begun.pc.queue;
    assert id !in queue && Victim(begun, id, p);
    hide Victim;
    var dumping := QueueDrains(cfg, begun, req, queue, id, p);
    s' := Returned(dumping, p, dumping.staged[p].count);
    BreakStep(cfg, dumping, req, p, id);
    ReachesSelf(cfg, s', Some(req));
    StepReaches(cfg, dumping, Dump(p, dumping.staged[p].count), s', Some(req), s');
    ReachesOn(cfg, begun, Some(req), dumping, s');
    StepReaches(cfg, s, Begin(req), begun, Some(req), s');
  }

  lemma BreakStep(cfg: Config, s: Sys, req: Request, p: Place, id: int)
    requires Inv(cfg, s) && s.pc == Dumping(req) && Victim(s, id, p) && p.store in Dumped(cfg, req)
    ensures var s' := Returned(s, p, s.staged[p].count);
      Next(cfg, s, Dump(p, s.staged[p].count), s') && !LinesExact(s')
  {
    TakingUnbalances(s, p, id);
    assert s.staged[p].count > 0;
  }

  /**
    A request may begin in a quiet state without ever spoiling a stored transfer exactly when each
    stored transfer with items left in a store it will empty shares one of its subjects.
   */
  lemma SetupSafeIff(cfg: Config, s: Sys, req: Request)
    requires GoodConfig(cfg) && Inv(cfg, s) && s.spoiled == {} && s.pc == Idle && Admitted(cfg, req)
    ensures Shares(cfg, s, req) <==> forall s' :: Reaches(cfg, s, Some(req), s') ==> LinesExact(s')
  {
    hide Inv, Shares, LinesExact;
    if Shares(cfg, s, req) {
      forall s' | Reaches(cfg, s, Some(req), s') ensures LinesExact(s') {
        var states, acts :| Leads(cfg, s, Some(req), states, acts, s');
        RunKeepsSharing(cfg, s, req, states, acts, s');
        InvMeansExact(cfg, s');
      }
    } else {
      var s' := UnsharedBreaks(cfg, s, req);
    }
  }

  // ---------------------------------------------------------------- a transfer that is lost

  const Water := Uid("water")
  const Ore := Uid("ore")
  const OneTank := Config("box", ["tank"])
  const FluidRequest := Request([], [Asked(Water, Place("boiler", 0), 1)])
  const ItemRequest := Request([Asked(Ore, Place("furnace", 1), 1)], [])
  const Full := Sys(map[Water := 1], map[], map[], map[], {}, map[], {}, Idle)
  const TankPlace := Place("tank", 0)
  const Crashed := Sys(map[Water := 0], map[TankPlace := Pile(Water, 1)], map[],
    map[1 := RecordOf(OneTank, FluidRequest)],
                       {1}, map[], {}, Idle)

  lemma FluidSetup() returns (states: seq<Sys>, acts: seq<Act>)
    ensures InitRun(OneTank, states, acts) && states[|acts|] == Full.(pc := Staging(FluidRequest, 0))
  {
    var cfg, req := OneTank, FluidRequest;
    states, acts := [Full], [];
    var s1, s2, s3 := Full.(pc := Restoring(req, [])), Full.(pc := Dumping(req)), Full.(pc := Staging(req, 0));
    assert Finds(Full, Subjects(cfg, req), []);
    RunGrows(cfg, states, acts, Begin(req), s1);
    states, acts := states + [s1], acts + [Begin(req)];
    RunGrows(cfg, states, acts, RestoreNext, s2);
    states, acts := states + [s2], acts + [RestoreNext];
    RunGrows(cfg, states, acts, DumpDone, s3);
    states, acts := states + [s3], acts + [DumpDone];
  }

  /** The server crashes right after the database commit. */
  lemma FluidCrash() returns (states: seq<Sys>, acts: seq<Act>)
    ensures InitRun(OneTank, states, acts) && states[|acts|] == Crashed
  {
    var cfg, req := OneTank, FluidRequest;
    states, acts := FluidSetup();
    var laid := Full.(stock := map[Water := 0], staged := map[TankPlace := Pile(Water, 1)]);
    var s4, s5, s6 := laid.(pc := Staging(req, 1)), laid.(pc := Prepared(req, 1)),
      Crashed.(pc := Draining(1, 0, Nothing));
    hide GoodRun;
    assert Lines(cfg, req) == [Line(TankPlace, Place("boiler", 0), Water, 1)];
    assert Next(cfg, Full.(pc := Staging(req, 0)), Stage, s4);
    RunGrows(cfg, states, acts, Stage, s4);
    states, acts := states + [s4], acts + [Stage];
    assert Next(cfg, s4, Insert(1), s5);
    RunGrows(cfg, states, acts, Insert(1), s5);
    states, acts := states + [s5], acts + [Insert(1)];
    assert Next(cfg, s5, CommitDb, s6);
    RunGrows(cfg, states, acts, CommitDb, s6);
    states, acts := states + [s6], acts + [CommitDb];
    RunGrows(cfg, states, acts, Abort, Crashed);
    states, acts := states + [Crashed], acts + [Abort];
  }

  /**
    A run the server can take: a fluid transfer is committed and the server crashes before
    delivering it. A request for items alone then empties the tank without waiting for that
    record, and its fluid never arrives in full.
   */
  lemma CrashedFluidIsLost() returns (states: seq<Sys>, acts: seq<Act>, s': Sys)
    ensures InitRun(OneTank, states, acts) && states[|acts|] == Crashed
    ensures Admitted(OneTank, ItemRequest) && !Shares(OneTank, Crashed, ItemRequest)
    ensures Reaches(OneTank, Crashed, Some(ItemRequest), s') && !LinesExact(s')
  {
    states, acts := FluidCrash();
    assert GoodConfig(OneTank);
    RunKeepsAll(OneTank, states, acts, |acts|);
    hide GoodRun, InitRun;
    assert Inv(OneTank, Crashed) by { assert AllHold(OneTank, states[|acts|]); }
    hide Inv;
    assert "tank" in Dumped(OneTank, ItemRequest) by { assert OneTank.tanks[0] == "tank"; }
    assert HeldBy(Crashed, 1, "tank") by { assert OneTank.tanks[0] == "tank"; }
    assert Subjects(OneTank, FluidRequest) == {"tank"};
    assert Subjects(OneTank, ItemRequest) == {"box"};
    assert !Meets(Crashed.log, 1, Subjects(OneTank, ItemRequest));
    assert !Shares(OneTank, Crashed, ItemRequest) by {
      assert TankPlace in Crashed.staged && TankPlace.store == "tank";
    }
    s' := UnsharedBreaks(OneTank, Crashed, ItemRequest);
  }
}
