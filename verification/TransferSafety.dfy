/** Safety of the transfer protocol over every run, with crashes, lost replies, partial moves and replays. */
module TransferSafety {
  import opened Recipes
  import opened Sums
  import opened Transfer

  // ---------------------------------------------------------------- conservation

  ghost function StagedOf(s: Sys, u: Uid): map<Place, int> {
    map p | p in s.staged && s.staged[p].uid == u :: s.staged[p].count
  }

  ghost function TargetsOf(s: Sys, u: Uid): map<TargetKey, int> {
    map t | t in s.targets && t.uid == u :: s.targets[t]
  }

  /** All there is of an item: in storage, on its way, and delivered. */
  ghost function Total(s: Sys, u: Uid): int {
    Get(s.stock, u) + Sum(StagedOf(s, u)) + Sum(TargetsOf(s, u))
  }

  lemma StagedWritten(s: Sys, s': Sys, p: Place, pile: Pile, u: Uid)
    requires s'.staged == s.staged[p := pile] && (p in s.staged ==> s.staged[p].uid == pile.uid)
    ensures Sum(StagedOf(s', u)) == Sum(StagedOf(s, u)) + if pile.uid == u then pile.count - CountAt(s.staged, p) else 0
  {
    if pile.uid == u {
      assert StagedOf(s', u) == StagedOf(s, u)[p := pile.count];
      SumUpdate(StagedOf(s, u), p, pile.count);
    } else {
      assert StagedOf(s', u) == StagedOf(s, u);
    }
  }

  lemma StagedCleared(s: Sys, s': Sys, p: Place, u: Uid)
    requires p in s.staged && s'.staged == s.staged - {p}
    ensures Sum(StagedOf(s', u)) == Sum(StagedOf(s, u)) - if s.staged[p].uid == u then s.staged[p].count else 0
  {
    if s.staged[p].uid == u {
      assert StagedOf(s', u) == StagedOf(s, u) - {p};
      SumRemove(StagedOf(s, u), p);
    } else {
      assert StagedOf(s', u) == StagedOf(s, u);
    }
  }

  lemma TakenFrom(s: Sys, s': Sys, p: Place, k: int, u: Uid)
    requires p in s.staged && s'.staged == TakeFrom(s.staged, p, k)
    ensures Sum(StagedOf(s', u)) == Sum(StagedOf(s, u)) - if s.staged[p].uid == u then k else 0
  {
    var pile := s.staged[p];
    if pile.count == k {
      StagedCleared(s, s', p, u);
    } else {
      StagedWritten(s, s', p, Pile(pile.uid, pile.count - k), u);
    }
  }

  lemma MoveConserves(s: Sys, id: int, i: nat, line: Line, k: int, s': Sys, u: Uid)
    requires MovesLine(s, id, i, line, k, s')
    ensures Total(s', u) == Total(s, u)
  {
    if k > 0 {
      var pile := s.staged[line.from];
      TakenFrom(s, s', line.from, k, u);
      var key := TargetKey(line.target, pile.uid);
      if pile.uid == u {
        assert TargetsOf(s', u) == TargetsOf(s, u)[key := Get(s.targets, key) + k];
        SumUpdate(TargetsOf(s, u), key, Get(s.targets, key) + k);
      } else {
        assert TargetsOf(s', u) == TargetsOf(s, u);
      }
    }
  }

  lemma SamePhysical(s: Sys, s': Sys, u: Uid)
    requires s'.stock == s.stock && s'.staged == s.staged && s'.targets == s.targets
    ensures Total(s', u) == Total(s, u)
  {
    assert StagedOf(s', u) == StagedOf(s, u) && TargetsOf(s', u) == TargetsOf(s, u);
  }

  lemma MoveStepConserves(s: Sys, k: int, s': Sys, u: Uid)
    requires AtLine(s) && MoveStep(s, k, s')
    ensures Total(s', u) == Total(s, u)
  {
    hide Total, MovesLine;
    MoveConserves(s, s.pc.id, s.pc.next, s.log[s.pc.id].lines[s.pc.next], k, s'.(pc := s.pc), u);
    SamePhysical(s'.(pc := s.pc), s', u);
  }

  lemma StageStepConserves(cfg: Config, s: Sys, k: int, s': Sys, u: Uid)
    requires AtStage(cfg, s) && StageStep(cfg, s, k, s')
    ensures Total(s', u) == Total(s, u)
  {
    hide Total, Stages, NextLine;
    StageConserves(s, NextLine(cfg, s), k, s'.(pc := s.pc), u);
    SamePhysical(s'.(pc := s.pc), s', u);
  }

  /** No step, finished or failed, creates or loses an item. */
  lemma NextConserves(cfg: Config, s: Sys, a: Act, s': Sys, u: Uid)
    requires Next(cfg, s, a, s')
    ensures Total(s', u) == Total(s, u)
  {
    hide Total, Finds, StoresEmpty, MoveStep, StageStep, NextLine, Returned, Lines, RecordOf, Subjects, Dumped,
      Admitted;
    match a
    case MoveLine(k) => MoveStepConserves(s, k, s', u);
    case LoseReply(k) => MoveStepConserves(s, k, s', u);
    case Dump(p, k) => DumpConserves(s, p, k, u);
    case Stage => StageStepConserves(cfg, s, NextLine(cfg, s).amount, s', u);
    case StageShort(k) => StageStepConserves(cfg, s, k, s', u);
    case _ => SamePhysical(s, s', u);
  }

  lemma DumpConserves(s: Sys, p: Place, k: int, u: Uid)
    requires p in s.staged
    ensures Total(Returned(s, p, k), u) == Total(s, u)
  {
    TakenFrom(s, Returned(s, p, k), p, k, u);
    assert TargetsOf(Returned(s, p, k), u) == TargetsOf(s, u);
  }

  lemma StageConserves(s: Sys, line: Line, k: int, s': Sys, u: Uid)
    requires Stages(s, line, k, s')
    ensures Total(s', u) == Total(s, u)
  {
    if k > 0 {
      StagedWritten(s, s', line.from, Pile(line.uid, k), u);
    } else {
      assert StagedOf(s', u) == StagedOf(s, u);
    }
    assert TargetsOf(s', u) == TargetsOf(s, u);
  }

  // ---------------------------------------------------------------- what a record owns

  ghost predicate GoodRecord(r: Record) {
    && r.items <= |r.lines|
    && (forall i :: 0 <= i < |r.lines| ==> r.lines[i].from.store in r.subjects && r.lines[i].amount > 0)
    && (forall i, j :: 0 <= i < j < |r.lines| ==> r.lines[i].from != r.lines[j].from)
    && (forall x :: x in r.subjects ==> exists i :: 0 <= i < |r.lines| && r.lines[i].from.store == x)
  }

  /** What of a line is delivered or still staged. */
  function Accounted(s: Sys, id: int, i: nat, line: Line): int {
    Get(s.delivered, LineKey(id, i)) + if id in s.live then CountAt(s.staged, line.from) else 0
  }

  /** Delivered and still staged make up exactly the amount of the line, and less only if the record was spoiled. */
  ghost predicate LineExact(s: Sys, id: int, i: nat, line: Line) {
    && Accounted(s, id, i, line) <= line.amount
    && (id !in s.spoiled ==> Accounted(s, id, i, line) == line.amount)
    && (line.from in s.staged ==> s.staged[line.from].uid == line.uid)
  }

  /** Some line of the record is short of items that are neither delivered nor on their way. */
  ghost predicate Lacks(s: Sys, id: int) {
    id in s.log && exists i ::
      0 <= i < |s.log[id].lines| && Accounted(s, id, i, s.log[id].lines[i]) < s.log[id].lines[i].amount
  }

  ghost predicate Owns(s: Sys, id: int) {
    && id in s.log
    && (forall i :: 0 <= i < |s.log[id].lines| ==> LineExact(s, id, i, s.log[id].lines[i]))
    && (forall p :: p in s.staged && p.store in s.log[id].subjects ==>
        exists i :: 0 <= i < |s.log[id].lines| && s.log[id].lines[i].from == p)
  }

  ghost predicate FullyDelivered(s: Sys, id: int) {
    id in s.log && forall i :: 0 <= i < |s.log[id].lines| ==>
      Get(s.delivered, LineKey(id, i)) == s.log[id].lines[i].amount
  }

  ghost predicate DeliveredKnown(s: Sys) {
    forall k :: k in s.delivered ==> k.tx in s.log && 0 <= k.line < |s.log[k.tx].lines| && s.delivered[k] >= 0
  }

  ghost predicate Locked(s: Sys) {
    forall a, b, x ::
      a in s.live && b in s.live && a in s.log && b in s.log && x in s.log[a].subjects && x in s.log[b].subjects ==>
        a == b
  }

  ghost predicate Holds(s: Sys) {
    && s.live <= s.log.Keys
    && (forall id :: id in s.log ==> GoodRecord(s.log[id]))
    && Locked(s)
    && (forall p :: p in s.staged ==> s.staged[p].count > 0)
    && (forall id :: id in s.live ==> Owns(s, id))
    && (forall id :: id in s.log && id !in s.live && id !in s.spoiled ==> FullyDelivered(s, id))
    && (forall id :: id in s.spoiled ==> Lacks(s, id))
    && DeliveredKnown(s)
  }

  // ---------------------------------------------------------------- what the program counter knows

  ghost predicate QueueKnown(cfg: Config, s: Sys, req: Request, queue: seq<int>, current: set<int>) {
    && Admitted(cfg, req)
    && (forall i, j :: 0 <= i < j < |queue| ==> queue[i] != queue[j])
    && (forall id :: id in queue ==> id in s.live && id !in current)
    && (forall id :: id in s.live && Meets(s.log, id, Subjects(cfg, req)) ==> id in queue || id in current)
  }

  ghost predicate Free(cfg: Config, s: Sys, req: Request) {
    Admitted(cfg, req) && forall id :: id in s.live ==> !Meets(s.log, id, Subjects(cfg, req))
  }

  ghost predicate StandStaged(s: Sys, lines: seq<Line>, done: nat)
    requires done <= |lines|
  {
    forall i :: 0 <= i < done ==>
      lines[i].from in s.staged && s.staged[lines[i].from] == Pile(lines[i].uid, lines[i].amount)
  }

  ghost predicate NothingElse(s: Sys, stores: set<string>, lines: seq<Line>, done: nat)
    requires done <= |lines|
  {
    forall p :: p in s.staged && p.store in stores ==> exists i :: 0 <= i < done && lines[i].from == p
  }

  /** The first `done` lines stand fully staged, and nothing else is in the request's stores. */
  ghost predicate StagedSoFar(cfg: Config, s: Sys, req: Request, done: nat) {
    && Free(cfg, s, req) && done <= |Lines(cfg, req)|
    && StandStaged(s, Lines(cfg, req), done)
    && NothingElse(s, Subjects(cfg, req), Lines(cfg, req), done)
  }

  ghost predicate AfterKnown(cfg: Config, s: Sys, after: After, current: set<int>) {
    match after
    case Nothing => true
    case Resume(req, queue) => QueueKnown(cfg, s, req, queue, current)
  }

  ghost predicate CounterKnown(cfg: Config, s: Sys) {
    match s.pc
    case Idle => true
    case Restoring(req, queue) => QueueKnown(cfg, s, req, queue, {})
    case Dumping(req) => Free(cfg, s, req)
    case Staging(req, done) => StagedSoFar(cfg, s, req, done)
    case Prepared(req, id) => Admitted(cfg, req) && StagedSoFar(cfg, s, req, |Lines(cfg, req)|) && id !in s.log
    case Draining(id, next, after) =>
      id in s.live && id in s.log && next <= |s.log[id].lines| && AfterKnown(cfg, s, after, {id})
  }

  ghost predicate Inv(cfg: Config, s: Sys) {
    Holds(s) && CounterKnown(cfg, s)
  }

  // ---------------------------------------------------------------- request lines

  lemma LinesDistinct(cfg: Config, req: Request)
    requires GoodConfig(cfg) && Admitted(cfg, req)
    ensures GoodRecord(RecordOf(cfg, req))
  {
    var r := RecordOf(cfg, req);
    forall i, j | 0 <= i < j < |r.lines| ensures r.lines[i].from != r.lines[j].from {
      assert r.lines[i] == LineAt(cfg, req, i) && r.lines[j] == LineAt(cfg, req, j);
    }
    forall i | 0 <= i < |r.lines| ensures r.lines[i].from.store in r.subjects && r.lines[i].amount > 0 {
      assert r.lines[i] == LineAt(cfg, req, i);
    }
    forall x | x in r.subjects ensures exists i :: 0 <= i < |r.lines| && r.lines[i].from.store == x {
      if x in ItemStores(cfg, req) {
        assert r.lines[0] == LineAt(cfg, req, 0);
      } else {
        var f :| 0 <= f < |req.fluids| && cfg.tanks[f] == x;
        assert r.lines[|req.items| + f] == LineAt(cfg, req, |req.items| + f);
      }
    }
  }

  // ---------------------------------------------------------------- moves

  lemma PlacesDiffer(s: Sys, id: int, i: nat, other: int, j: nat)
    requires Locked(s) && id in s.live && other in s.live && id in s.log && other in s.log
    requires GoodRecord(s.log[id]) && GoodRecord(s.log[other])
    requires i < |s.log[id].lines| && j < |s.log[other].lines| && (id != other || i != j)
    ensures s.log[id].lines[i].from != s.log[other].lines[j].from
  {
    assert s.log[other].lines[j].from.store in s.log[other].subjects;
    assert s.log[id].lines[i].from.store in s.log[id].subjects;
  }

  /** Moving items of one live record touches no other line. */
  lemma MoveKeepsLine(s: Sys, id: int, i: nat, line: Line, k: int, s': Sys, other: int, j: nat, l: Line)
    requires MovesLine(s, id, i, line, k, s') && LineExact(s, other, j, l) && id in s.live && other in s.live
    requires (id == other && i == j && l == line) || ((id != other || i != j) && l.from != line.from)
    ensures LineExact(s', other, j, l)
  {
  }

  lemma MoveKeepsOwns(s: Sys, id: int, i: nat, k: int, s': Sys, other: int)
    requires Holds(s) && id in s.live && other in s.live && i < |s.log[id].lines|
    requires MovesLine(s, id, i, s.log[id].lines[i], k, s')
    ensures Owns(s', other)
  {
    assert Owns(s, other);
    var line, record := s.log[id].lines[i], s.log[other];
    forall j | 0 <= j < |record.lines| ensures LineExact(s', other, j, record.lines[j]) {
      assert LineExact(s, other, j, record.lines[j]);
      if id != other || i != j {
        PlacesDiffer(s, id, i, other, j);
      }
      MoveKeepsLine(s, id, i, line, k, s', other, j, record.lines[j]);
    }
    hide Holds, LineExact;
    forall p | p in s'.staged && p.store in record.subjects
      ensures exists j :: 0 <= j < |record.lines| && record.lines[j].from == p
    {
      assert p in s.staged;
    }
  }

  lemma MoveKeepsHolds(s: Sys, id: int, i: nat, k: int, s': Sys)
    requires Holds(s) && id in s.live && i < |s.log[id].lines|
    requires MovesLine(s, id, i, s.log[id].lines[i], k, s')
    ensures Holds(s')
  {
    hide Owns, GoodRecord, LineExact, FullyDelivered;
    forall other | other in s'.live ensures Owns(s', other) {
      MoveKeepsOwns(s, id, i, k, s', other);
    }
    forall other | other in s'.log && other !in s'.live && other !in s'.spoiled ensures FullyDelivered(s', other) {
      MoveKeepsDone(s, id, i, k, s', other);
    }
  }

  lemma MoveKeepsDone(s: Sys, id: int, i: nat, k: int, s': Sys, other: int)
    requires FullyDelivered(s, other) && other != id && id in s.log && i < |s.log[id].lines|
    requires MovesLine(s, id, i, s.log[id].lines[i], k, s')
    ensures FullyDelivered(s', other)
  {
  }

  lemma MoveKeepsInv(cfg: Config, s: Sys, k: int, s': Sys)
    requires Inv(cfg, s) && AtLine(s) && MoveStep(s, k, s') && (s'.pc == Idle || s'.pc == s.pc.(next := s.pc.next + 1))
    ensures Inv(cfg, s')
  {
    var id, i := s.pc.id, s.pc.next;
    var mid := s'.(pc := s.pc);
    MoveKeepsLog(s, id, i, s.log[id].lines[i], k, mid);
    assert Holds(mid) by {
      hide Holds, MovesLine, AfterKnown;
      MoveKeepsHolds(s, id, i, k, mid);
    }
    hide Holds, MovesLine, MoveStep;
    HoldsIgnoresCounter(mid, s'.pc);
    assert mid.(pc := s'.pc) == s';
    MoveKeepsKnown(cfg, s, s');
    hide CounterKnown;
  }

  lemma MoveKeepsKnown(cfg: Config, s: Sys, s': Sys)
    requires CounterKnown(cfg, s) && AtLine(s) && (s'.pc == Idle || s'.pc == s.pc.(next := s.pc.next + 1))
    requires s'.live == s.live && s'.log == s.log
    ensures CounterKnown(cfg, s')
  {
    hide QueueKnown, Free, StagedSoFar;
    if s'.pc != Idle {
      AfterIgnoresMoves(cfg, s, s', s.pc.after, {s.pc.id});
    }
  }

  lemma MoveKeepsLog(s: Sys, id: int, i: nat, line: Line, k: int, s': Sys)
    requires MovesLine(s, id, i, line, k, s')
    ensures s'.log == s.log && s'.live == s.live && s'.pc == s.pc && s'.spoiled == s.spoiled
    ensures s'.staged.Keys <= s.staged.Keys
  {
  }

  lemma HoldsIgnoresCounter(s: Sys, pc: Counter)
    requires Holds(s)
    ensures Holds(s.(pc := pc))
  {
    var s' := s.(pc := pc);
    forall id | id in s'.live ensures Owns(s', id) {
      OwnsIgnoresOthers(s, s', id);
    }
    forall id | id in s'.log && id !in s'.live && id !in s'.spoiled ensures FullyDelivered(s', id) {
      DoneIgnoresOthers(s, s', id);
    }
  }

  lemma AfterIgnoresMoves(cfg: Config, s: Sys, s': Sys, after: After, current: set<int>)
    requires AfterKnown(cfg, s, after, current) && s'.live == s.live && s'.log == s.log
    ensures AfterKnown(cfg, s', after, current)
  {
  }

  // ---------------------------------------------------------------- restoring and dropping

  /** A replay that finds its stores empty has delivered every line in full, unless a setup took some of it. */
  lemma EmptyMeansDelivered(s: Sys, id: int)
    requires Holds(s) && id in s.live && StoresEmpty(s.staged, s.log[id].lines)
    ensures FullyDelivered(s, id) <==> id !in s.spoiled
  {
    assert Owns(s, id);
    if id in s.spoiled {
      assert Lacks(s, id);
      var i :| 0 <= i < |s.log[id].lines| && Accounted(s, id, i, s.log[id].lines[i]) < s.log[id].lines[i].amount;
      assert s.log[id].lines[i].from !in s.staged;
      return;
    }
    forall i | 0 <= i < |s.log[id].lines| ensures Get(s.delivered, LineKey(id, i)) == s.log[id].lines[i].amount {
      assert LineExact(s, id, i, s.log[id].lines[i]);
    }
  }

  lemma DropKeepsHolds(s: Sys, id: int, pc: Counter)
    requires Holds(s) && id in s.live && (id !in s.spoiled ==> FullyDelivered(s, id))
    ensures Holds(s.(live := s.live - {id}, pc := pc))
  {
    var s' := s.(live := s.live - {id}, pc := pc);
    forall other | other in s'.spoiled ensures Lacks(s', other) {
      DropKeepsLack(s, id, pc, other);
    }
    forall other | other in s'.live ensures Owns(s', other) {
      OwnsIgnoresOthers(s, s', other);
    }
    forall other | other in s'.log && other !in s'.live && other !in s'.spoiled ensures FullyDelivered(s', other) {
      DoneIgnoresOthers(s, s', other);
    }
  }

  lemma DropKeepsLack(s: Sys, id: int, pc: Counter, other: int)
    requires Lacks(s, other) && forall p :: p in s.staged ==> s.staged[p].count > 0
    ensures Lacks(s.(live := s.live - {id}, pc := pc), other)
  {
    var s' := s.(live := s.live - {id}, pc := pc);
    var i :| 0 <= i < |s.log[other].lines| && Accounted(s, other, i, s.log[other].lines[i])
      < s.log[other].lines[i].amount;
    assert Accounted(s', other, i, s'.log[other].lines[i]) < s'.log[other].lines[i].amount;
  }

  lemma DropKeepsInv(cfg: Config, s: Sys, s': Sys)
    requires Inv(cfg, s) && DropStep(s, s')
    ensures Inv(cfg, s')
  {
    var id := s.pc.id;
    EmptyMeansDelivered(s, id);
    DropKeepsHolds(s, id, s'.pc);
    hide Holds, StoresEmpty;
    match s.pc.after
    case Nothing =>
    case Resume(req, queue) =>
      assert QueueKnown(cfg, s', req, queue, {});
  }

  lemma CounterStepKeepsInv(cfg: Config, s: Sys, a: Act, s': Sys)
    requires Inv(cfg, s) && Next(cfg, s, a, s')
    requires a.Begin? || a.RestoreNext? || a.Ping? || a.NotEmpty? || a.Abort?
    ensures Inv(cfg, s')
  {
    HoldsIgnoresCounter(s, s'.pc);
    CounterStepKnown(cfg, s, a, s');
    hide Holds, CounterKnown, Next;
  }

  lemma CounterStepKnown(cfg: Config, s: Sys, a: Act, s': Sys)
    requires CounterKnown(cfg, s) && s.live <= s.log.Keys && Next(cfg, s, a, s')
    requires a.Begin? || a.RestoreNext? || a.Ping? || a.NotEmpty? || a.Abort?
    ensures s' == s.(pc := s'.pc) && CounterKnown(cfg, s')
  {
    hide QueueKnown, Free, StagedSoFar, BeginStep, MoveStep, StageStep, DropStep, DumpStep, DumpDoneStep, InsertStep,
      CommitStep, StoresEmpty;
    match a
    case Begin(req) => BeginKnown(cfg, s, req, s');
    case RestoreNext => RestoreKnown(cfg, s, s');
    case Ping(id) =>
    case NotEmpty =>
    case Abort =>
  }

  lemma BeginKnown(cfg: Config, s: Sys, req: Request, s': Sys)
    requires BeginStep(cfg, s, req, s')
    ensures s' == s.(pc := s'.pc) && CounterKnown(cfg, s')
  {
    hide Meets, Subjects;
  }

  lemma RestoreKnown(cfg: Config, s: Sys, s': Sys)
    requires s.pc.Restoring? && QueueKnown(cfg, s, s.pc.req, s.pc.queue, {})
    requires s.live <= s.log.Keys && RestoreStep(s, s')
    ensures CounterKnown(cfg, s')
  {
    var req, queue := s.pc.req, s.pc.queue;
    if queue != [] {
      var rest := queue[1..];
      assert forall i :: 0 <= i < |rest| ==> rest[i] == queue[i + 1];
      assert queue[0] in queue;
      forall id | id in s.live && Meets(s.log, id, Subjects(cfg, req)) ensures id in rest || id == queue[0] {
        assert id in queue;
      }
      assert QueueKnown(cfg, s', req, rest, {queue[0]});
    }
  }

  // ---------------------------------------------------------------- dumping

  ghost predicate HeldByLive(s: Sys, store: string) {
    exists id :: id in s.live && id in s.log && store in s.log[id].subjects
  }

  /** Returning items from a place takes them from the record that holds the store, and from no other. */
  lemma DumpKeepsHolds(s: Sys, p: Place, k: int)
    requires Holds(s) && p in s.staged && 0 < k <= s.staged[p].count
    ensures Holds(Returned(s, p, k))
  {
    hide Owns, GoodRecord, FullyDelivered, Lacks, Locked;
    var s' := Returned(s, p, k);
    forall id | id in s'.live ensures Owns(s', id) {
      DumpKeepsOwns(s, p, k, id);
    }
    forall id | id in s'.log && id !in s'.live && id !in s'.spoiled ensures FullyDelivered(s', id) {
      DoneIgnoresOthers(s, s', id);
    }
    forall id | id in s'.spoiled ensures Lacks(s', id) {
      DumpLacks(s, p, k, id);
    }
    SameLocks(s, s');
  }

  lemma SameLocks(s: Sys, s': Sys)
    requires Locked(s) && s'.live == s.live && s'.log == s.log
    ensures Locked(s')
  {
  }

  lemma DumpKeepsOwns(s: Sys, p: Place, k: int, id: int)
    requires Owns(s, id) && id in s.live && GoodRecord(s.log[id]) && p in s.staged && 0 < k <= s.staged[p].count
    ensures Owns(Returned(s, p, k), id)
  {
    var s' := Returned(s, p, k);
    forall i | 0 <= i < |s.log[id].lines| ensures LineExact(s', id, i, s'.log[id].lines[i]) {
      assert LineExact(s, id, i, s.log[id].lines[i]);
      assert s.log[id].lines[i].from.store in s.log[id].subjects;
    }
  }

  lemma DumpLacks(s: Sys, p: Place, k: int, id: int)
    requires Holds(s) && p in s.staged && 0 < k <= s.staged[p].count
    requires id in s.spoiled || id in Holders(s, p.store)
    ensures Lacks(Returned(s, p, k), id)
  {
    var s' := Returned(s, p, k);
    if id in s.spoiled {
      assert Lacks(s, id);
      var i :| 0 <= i < |s.log[id].lines| && Accounted(s, id, i, s.log[id].lines[i]) < s.log[id].lines[i].amount;
      assert Accounted(s', id, i, s'.log[id].lines[i]) < s'.log[id].lines[i].amount;
    } else {
      assert Owns(s, id);
      var i :| 0 <= i < |s.log[id].lines| && s.log[id].lines[i].from == p;
      assert LineExact(s, id, i, s.log[id].lines[i]);
      assert Accounted(s', id, i, s'.log[id].lines[i]) < s'.log[id].lines[i].amount;
    }
  }

  /** Every item of the record is delivered or, while it is live, still staged. */
  ghost predicate Whole(s: Sys, id: int) {
    id in s.log && forall i :: 0 <= i < |s.log[id].lines| ==>
      Accounted(s, id, i, s.log[id].lines[i]) == s.log[id].lines[i].amount
  }

  /** A record is whole exactly if no setup ever returned items from its stores. */
  lemma WholeIff(s: Sys, id: int)
    requires Holds(s) && id in s.log
    ensures Whole(s, id) <==> id !in s.spoiled
  {
    if id in s.spoiled {
      assert Lacks(s, id);
    } else if id in s.live {
      assert Owns(s, id);
      forall i | 0 <= i < |s.log[id].lines|
        ensures Accounted(s, id, i, s.log[id].lines[i]) == s.log[id].lines[i].amount {
        assert LineExact(s, id, i, s.log[id].lines[i]);
      }
    } else {
      assert FullyDelivered(s, id);
    }
  }

  /**
    Returning items from a place leaves every whole record whole if and only if none that is live
    holds the store. The setup empties every configured tank but waits only for the records of its
    own subjects.
   */
  lemma DumpSafeIff(s: Sys, p: Place, k: int)
    requires Holds(s) && p in s.staged && 0 < k <= s.staged[p].count
    ensures (forall id :: Whole(s, id) ==> Whole(Returned(s, p, k), id)) <==>
      forall id :: id in s.live && Whole(s, id) ==> p.store !in s.log[id].subjects
  {
    var s' := Returned(s, p, k);
    DumpKeepsHolds(s, p, k);
    hide Holds, Whole;
    forall id | id in s.log ensures (Whole(s, id) <==> id !in s.spoiled) && (Whole(s', id) <==> id !in s'.spoiled) {
      WholeIff(s, id);
      WholeIff(s', id);
    }
    forall id | Whole(s, id) ensures id in s.log {
      WholeIsStored(s, id);
    }
  }

  lemma WholeIsStored(s: Sys, id: int)
    requires Whole(s, id)
    ensures id in s.log
  {
  }

  // ---------------------------------------------------------------- staging and committing

  lemma LineStoreInSubjects(cfg: Config, req: Request, i: nat)
    requires Admitted(cfg, req) && i < |Lines(cfg, req)|
    ensures Lines(cfg, req)[i].from.store in Subjects(cfg, req)
  {
    assert Lines(cfg, req)[i] == LineAt(cfg, req, i);
  }

  /** Staging in stores no live record holds leaves every record's places alone. */
  lemma StageKeepsHolds(s: Sys, line: Line, k: int, s': Sys)
    requires Holds(s) && Stages(s, line, k, s') && !HeldByLive(s, line.from.store)
    ensures Holds(s')
  {
    forall id | id in s'.live ensures Owns(s', id) {
      assert Owns(s, id) && GoodRecord(s.log[id]);
      forall i | 0 <= i < |s.log[id].lines| ensures LineExact(s', id, i, s'.log[id].lines[i]) {
        assert LineExact(s, id, i, s.log[id].lines[i]);
        assert s.log[id].lines[i].from.store in s.log[id].subjects;
      }
    }
    forall id | id in s'.log && id !in s'.live && id !in s'.spoiled ensures FullyDelivered(s', id) {
      assert FullyDelivered(s, id);
    }
  }

  lemma FreeMeansUnheld(cfg: Config, s: Sys, req: Request, store: string)
    requires Free(cfg, s, req) && store in Subjects(cfg, req)
    ensures !HeldByLive(s, store)
  {
    assert forall id :: id in s.live ==> !Meets(s.log, id, Subjects(cfg, req));
  }

  lemma StageKeepsInv(cfg: Config, s: Sys, k: int, s': Sys)
    requires GoodConfig(cfg) && Inv(cfg, s) && AtStage(cfg, s) && StageStep(cfg, s, k, s')
    requires s'.pc == Idle || (s'.pc == s.pc.(done := s.pc.done + 1) && k == NextLine(cfg, s).amount)
    ensures Inv(cfg, s')
  {
    var req, done := s.pc.req, s.pc.done;
    var line, mid := NextLine(cfg, s), s'.(pc := s.pc);
    LineStoreInSubjects(cfg, req, done);
    FreeMeansUnheld(cfg, s, req, line.from.store);
    StageKeepsHolds(s, line, k, mid);
    hide Holds, Stages, Lines, StandStaged, NothingElse;
    HoldsIgnoresCounter(mid, s'.pc);
    assert mid.(pc := s'.pc) == s';
    if s'.pc != Idle {
      StagedGrows(cfg, s, mid, s', req, done);
    }
  }

  lemma StagedGrows(cfg: Config, s: Sys, mid: Sys, s': Sys, req: Request, done: nat)
    requires GoodConfig(cfg) && StagedSoFar(cfg, s, req, done) && done < |Lines(cfg, req)|
    requires Stages(s, Lines(cfg, req)[done], Lines(cfg, req)[done].amount, mid)
    requires s' == mid.(pc := Staging(req, done + 1))
    ensures StagedSoFar(cfg, s', req, done + 1)
  {
    hide Lines, Subjects, Stages, StandStaged, NothingElse, Meets, GoodConfig;
    DistinctLines(cfg, req);
    StageAdds(s, Lines(cfg, req), Subjects(cfg, req), done, mid);
    assert StandStaged(s', Lines(cfg, req), done + 1) by {
      StagedIgnoresCounter(mid, s', Subjects(cfg, req), Lines(cfg, req), done + 1);
    }
    assert NothingElse(s', Subjects(cfg, req), Lines(cfg, req), done + 1) by {
      StagedIgnoresCounter(mid, s', Subjects(cfg, req), Lines(cfg, req), done + 1);
    }
  }

  lemma StagedIgnoresCounter(s: Sys, s': Sys, stores: set<string>, lines: seq<Line>, done: nat)
    requires done <= |lines| && StandStaged(s, lines, done) && NothingElse(s, stores, lines, done)
      && s'.staged == s.staged
    ensures StandStaged(s', lines, done) && NothingElse(s', stores, lines, done)
  {
  }

  lemma DistinctLines(cfg: Config, req: Request)
    requires GoodConfig(cfg) && Admitted(cfg, req)
    ensures var lines := Lines(cfg, req);
      && (forall i :: 0 <= i < |lines| ==> lines[i].amount > 0)
      && (forall i, j :: 0 <= i < j < |lines| ==> lines[i].from != lines[j].from)
  {
    LinesDistinct(cfg, req);
    assert RecordOf(cfg, req).lines == Lines(cfg, req);
  }

  lemma StageAdds(s: Sys, lines: seq<Line>, stores: set<string>, done: nat, s': Sys)
    requires done < |lines| && lines[done].amount > 0
    requires forall i, j :: 0 <= i < j < |lines| ==> lines[i].from != lines[j].from
    requires StandStaged(s, lines, done) && NothingElse(s, stores, lines, done)
    requires Stages(s, lines[done], lines[done].amount, s')
    ensures StandStaged(s', lines, done + 1) && NothingElse(s', stores, lines, done + 1)
    ensures s'.live == s.live && s'.log == s.log
  {
    forall p | p in s'.staged && p.store in stores ensures exists i :: 0 <= i < done + 1 && lines[i].from == p {
      if p != lines[done].from {
        assert p in s.staged;
      }
    }
  }

  /** What the database commit writes, all in one step. */
  lemma CommitWrites(cfg: Config, s: Sys, s': Sys)
    requires GoodConfig(cfg) && Inv(cfg, s) && CommitStep(cfg, s, s')
    ensures s.pc.Prepared? && s.pc.id !in s.log && Admitted(cfg, s.pc.req)
    ensures s'.log == s.log[s.pc.id := RecordOf(cfg, s.pc.req)] && s'.live == s.live + {s.pc.id}
    ensures s'.staged == s.staged && s'.delivered == s.delivered && s'.spoiled == s.spoiled
    ensures s'.pc == Draining(s.pc.id, 0, Nothing)
  {
    hide RecordOf, Lines, Holds, StagedSoFar, Subjects, Dumped;
  }

  /** The committed record owns exactly what was staged for it, and no live record shares its stores. */
  lemma CommitKeepsHolds(cfg: Config, s: Sys, s': Sys)
    requires GoodConfig(cfg) && Inv(cfg, s) && CommitStep(cfg, s, s')
    ensures Holds(s')
  {
    CommitWrites(cfg, s, s');
    LinesDistinct(cfg, s.pc.req);
    CommittedOwns(cfg, s, s');
    CommitKeepsLocked(cfg, s, s');
    hide CommitStep, CounterKnown, GoodConfig, Owns, GoodRecord, Locked, FullyDelivered, RecordOf, Admitted;
    RecordsGrow(s, s', s.pc.id, RecordOf(cfg, s.pc.req));
  }

  lemma RecordsGrow(s: Sys, s': Sys, id: int, r: Record)
    requires Holds(s) && id !in s.log && GoodRecord(r)
    requires s'.log == s.log[id := r] && s'.live == s.live + {id} && s'.staged == s.staged
      && s'.delivered == s.delivered
    requires s'.spoiled == s.spoiled
    requires Owns(s', id) && Locked(s')
    ensures Holds(s')
  {
    hide Owns, GoodRecord, Locked, FullyDelivered;
    forall other | other in s'.live ensures Owns(s', other) {
      if other != id {
        OwnsIgnoresOthers(s, s', other);
      }
    }
    forall other | other in s'.spoiled ensures Lacks(s', other) {
      assert other in s.log;
      LacksIgnoresOthers(s, s', other);
    }
    forall other | other in s'.log && other !in s'.live && other !in s'.spoiled ensures FullyDelivered(s', other) {
      DoneIgnoresOthers(s, s', other);
    }
  }

  lemma LacksIgnoresOthers(s: Sys, s': Sys, id: int)
    requires Lacks(s, id) && id in s'.log && s'.log[id] == s.log[id] && (id in s'.live <==> id in s.live)
    requires s'.staged == s.staged && s'.delivered == s.delivered
    ensures Lacks(s', id)
  {
    var i :| 0 <= i < |s.log[id].lines| && Accounted(s, id, i, s.log[id].lines[i]) < s.log[id].lines[i].amount;
    assert Accounted(s', id, i, s'.log[id].lines[i]) < s'.log[id].lines[i].amount;
  }

  lemma OwnsIgnoresOthers(s: Sys, s': Sys, id: int)
    requires Owns(s, id) && id in s'.log && s'.log[id] == s.log[id]
    requires s'.staged == s.staged && s'.delivered == s.delivered && s'.spoiled == s.spoiled
    requires id in s'.live <==> id in s.live
    ensures Owns(s', id)
  {
    forall i | 0 <= i < |s.log[id].lines| ensures LineExact(s', id, i, s'.log[id].lines[i]) {
      assert LineExact(s, id, i, s.log[id].lines[i]);
    }
  }

  lemma DoneIgnoresOthers(s: Sys, s': Sys, id: int)
    requires FullyDelivered(s, id) && id in s'.log && s'.log[id] == s.log[id] && s'.delivered == s.delivered
    ensures FullyDelivered(s', id)
  {
  }

  lemma CommittedOwns(cfg: Config, s: Sys, s': Sys)
    requires GoodConfig(cfg) && Inv(cfg, s) && CommitStep(cfg, s, s')
    ensures Owns(s', s.pc.id)
  {
    var req, id := s.pc.req, s.pc.id;
    forall i | 0 <= i < |Lines(cfg, req)| ensures LineExact(s', id, i, s'.log[id].lines[i]) {
      assert LineKey(id, i) !in s.delivered;
    }
  }

  lemma CommitKeepsLocked(cfg: Config, s: Sys, s': Sys)
    requires Inv(cfg, s) && CommitStep(cfg, s, s')
    ensures Locked(s')
  {
    var req, id := s.pc.req, s.pc.id;
    forall a, b, x | a in s'.live && b in s'.live && a in s'.log && b in s'.log && x in s'.log[a].subjects
      && x in s'.log[b].subjects
      ensures a == b
    {
      if a == id || b == id {
        FreeMeansUnheld(cfg, s, req, x) by {
          assert x in Subjects(cfg, req);
        }
        assert a == id ==> b == id || !(b in s.live);
      }
    }
  }
}
