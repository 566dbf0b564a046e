/**
  The transfer manager as the server runs it (internal/services/storage/transfer_transaction_manager.go).
  Every remote call may move less than asked, fail, or move and lose its reply. Each method is
  shown to take only steps of the protocol, so whatever holds over its runs holds here.
 */
module TransferManager {
  import opened Recipes
  import opened Transfer
  import opened TransferSafety
  import opened TransferTheorems
  import opened Deliveries

  lemma OneMore(live: set<int>, queue: seq<int>, i: nat)
    requires i < |queue| && forall a, b :: 0 <= a < b < |queue| ==> queue[a] != queue[b]
    ensures queue[i] in live ==> queue[i] in Without(live, queue[..i])
    ensures Without(live, queue[..i + 1]) == Without(live, queue[..i]) - {queue[i]}
  {
    assert queue[..i + 1] == queue[..i] + [queue[i]];
  }

  function Without(live: set<int>, queue: seq<int>): (rest: set<int>)
    ensures rest <= live
  {
    set id | id in live && id !in queue
  }

  lemma NoneLeft(live: set<int>, queue: seq<int>)
    requires forall id :: id in live ==> id in queue
    ensures Without(live, queue) == {}
  {
    assert forall x: int :: x !in Without(live, queue);
  }

  /** Ids are handed out in order. */
  ghost predicate Numbered(s: Sys, nextId: int) {
    (forall id :: id in s.log ==> id < nextId) && (s.pc.Prepared? ==> s.pc.id < nextId)
  }

  predicate PositiveRequest(req: Request) {
    && (forall i :: 0 <= i < |req.items| ==> req.items[i].amount > 0)
    && (forall i :: 0 <= i < |req.fluids| ==> req.fluids[i].amount > 0)
  }

  /** The live records that hold one of the stores while something is staged there. */
  ghost function Victims(s: Sys, stores: set<string>): set<int> {
    set id | id in s.live && exists p :: p in s.staged && p.store in stores && HeldBy(s, id, p.store)
  }

  lemma HoldersAreVictims(s: Sys, was: Sys, p: Place)
    requires p in s.staged && s.staged.Keys <= was.staged.Keys && s.log == was.log && s.live == was.live
    ensures Holders(s, p.store) <= Victims(was, {p.store})
  {
    forall id | id in Holders(s, p.store) ensures id in Victims(was, {p.store}) {
      assert p in was.staged && HeldBy(was, id, p.store);
    }
  }

  lemma VictimsGrow(was: Sys, s: Sys, some: set<string>, stores: set<string>)
    requires some <= stores && s.staged.Keys <= was.staged.Keys && s.log == was.log && s.live == was.live
    ensures Victims(s, some) <= Victims(was, stores)
  {
    forall id | id in Victims(s, some) ensures id in Victims(was, stores) {
      var p :| p in s.staged && p.store in some && HeldBy(s, id, p.store);
      assert p in was.staged && HeldBy(was, id, p.store);
    }
  }

  /** A request that shares with the records whose stores it empties, and has waited for them, takes from none. */
  lemma SharingHasNoVictims(cfg: Config, s: Sys, req: Request)
    requires Shares(cfg, s, req) && Free(cfg, s, req)
    ensures Victims(s, Dumped(cfg, req)) == {}
  {
    if id :| id in Victims(s, Dumped(cfg, req)) {
      assert false;
    }
  }

  /** The stores of the given lines are found empty. */
  method CheckEmpty(staged: map<Place, Pile>, lines: seq<Line>) returns (empty: bool)
    ensures empty <==> StoresEmpty(staged, lines)
  {
    empty := true;
    for i := 0 to |lines|
      invariant empty <==> StoresEmpty(staged, lines[..i])
    {
      assert forall j :: 0 <= j < i ==> lines[..i + 1][j] == lines[..i][j];
      assert lines[..i + 1][i] == lines[i];
      if exists p :: p in staged && p.store == lines[i].from.store {
        empty := false;
      }
    }
    assert lines[..|lines|] == lines;
  }

  lemma MoveHappens(s: Sys, k: int, s': Sys)
    requires AtLine(s) && 0 <= k <= s.log[s.pc.id].lines[s.pc.next].amount
    requires k <= CountAt(s.staged, s.log[s.pc.id].lines[s.pc.next].from)
    requires s' == Carried(s, s.pc.id, s.pc.next, s.log[s.pc.id].lines[s.pc.next], k)
    ensures MovesLine(s, s.pc.id, s.pc.next, s.log[s.pc.id].lines[s.pc.next], k, s') && s'.log == s.log
      && s'.live == s.live
    ensures s'.spoiled == s.spoiled
    ensures s'.pc == s.pc && s'.staged.Keys <= s.staged.Keys
  {
  }

  /** The state after `k` items of a line have been carried to its target. */
  function Carried(s: Sys, id: int, i: nat, line: Line, k: int): Sys {
    if k == 0 || line.from !in s.staged then s
    else
      var key := TargetKey(line.target, s.staged[line.from].uid);
      s.(staged := TakeFrom(s.staged, line.from, k),
         targets := s.targets[key := Get(s.targets, key) + k],
         delivered := s.delivered[LineKey(id, i) := Get(s.delivered, LineKey(id, i)) + k])
  }

  class TransferTransactionManager {
    const cfg: Config
    var sys: Sys
    var locked: bool
    var nextId: int
    ghost var states: seq<Sys>
    ghost var acts: seq<Act>
    ghost var unlocks: nat

    /** The present state is where a run of the protocol has led. */
    ghost predicate Valid()
      reads this
    {
      && GoodConfig(cfg) && InitRun(cfg, states, acts) && states[|acts|] == sys
      && Numbered(sys, nextId)
    }

    lemma ValidHolds()
      requires Valid()
      ensures AllHold(cfg, sys)
    {
      RunKeepsAll(cfg, states, acts, |acts|);
    }

    lemma DrainingKnown()
      requires Valid() && sys.pc.Draining?
      ensures sys.pc.id in sys.live && sys.pc.id in sys.log && sys.pc.next <= |sys.log[sys.pc.id].lines|
      ensures sys.log[sys.pc.id].items <= |sys.log[sys.pc.id].lines|
    {
      ValidHolds();
      assert GoodRecord(sys.log[sys.pc.id]);
    }

    lemma PreparedIsNew()
      requires Valid() && sys.pc.Prepared?
      ensures sys.pc.id !in sys.log && sys.pc.id !in sys.spoiled
    {
      ValidHolds();
      assert sys.pc.id in sys.spoiled ==> Lacks(sys, sys.pc.id);
    }

    lemma PreparedReady()
      requires Valid() && sys.pc.Prepared?
      ensures StandsReady(cfg, sys.pc.req, sys.staged)
    {
      ValidHolds();
      PreparedStandsReady(cfg, sys);
    }

    lemma SomethingToMove()
      requires Valid() && AtLine(sys)
      ensures sys.log[sys.pc.id].lines[sys.pc.next].amount > 0
      ensures CountAt(sys.staged, sys.log[sys.pc.id].lines[sys.pc.next].from) >= 0
    {
      ValidHolds();
      assert GoodRecord(sys.log[sys.pc.id]);
    }

    /** One step of the protocol. */
    method Take(a: Act, s': Sys)
      requires Valid() && Next(cfg, sys, a, s')
      requires Numbered(s', nextId)
      modifies this`sys, this`states, this`acts
      ensures Valid() && sys == s' && old(states) <= states
    {
      hide Next;
      RunGrows(cfg, states, acts, a, s');
      sys := s';
      states := states + [s'];
      acts := acts + [a];
    }

    method Fail()
      requires Valid()
      modifies this`sys, this`states, this`acts
      ensures Valid() && sys == old(sys).(pc := Idle) && old(states) <= states
    {
      Take(Abort, sys.(pc := Idle));
    }

    /** One remote move: some number of items, with a reply, without one, or not at all. */
    method MoveStack() returns (ok: bool)
      requires Valid() && AtLine(sys)
      modifies this`sys, this`states, this`acts
      ensures Valid() && old(states) <= states && sys.log == old(sys.log) && sys.live == old(sys.live)
      ensures sys.spoiled == old(sys.spoiled)
      ensures sys.staged.Keys <= old(sys.staged.Keys)
      ensures sys.pc == if ok then old(sys.pc).(next := old(sys.pc.next) + 1) else Idle
    {
      hide InitRun, GoodConfig;
      var line := sys.log[sys.pc.id].lines[sys.pc.next];
      var sent: bool, replied: bool := *, *;
      ok := sent && replied;
      var limit := if line.amount < CountAt(sys.staged, line.from) then line.amount else CountAt(sys.staged, line.from);
      if !sent {
        Fail();
      } else {
        assert limit >= 0 by { SomethingToMove(); }
        var k: int :| 0 <= k <= limit;
        var moved := Carried(sys, sys.pc.id, sys.pc.next, line, k);
        MoveHappens(sys, k, moved);
        hide Carried, MovesLine;
        var pc := if replied then sys.pc.(next := sys.pc.next + 1) else Idle;
        assert moved.(pc := pc).(pc := sys.pc) == moved;
        Take(if replied then MoveLine(k) else LoseReply(k), moved.(pc := pc));
      }
    }

    /** Moves lines `from..to` of the record, stopping at the first failed call. */
    method MoveLines(to: nat) returns (ok: bool)
      requires Valid() && sys.pc.Draining? && sys.pc.id in sys.log && sys.pc.next <= to <= |sys.log[sys.pc.id].lines|
      modifies this`sys, this`states, this`acts
      ensures Valid() && old(states) <= states && sys.log == old(sys.log) && sys.live == old(sys.live)
      ensures sys.spoiled == old(sys.spoiled)
      ensures sys.staged.Keys <= old(sys.staged.Keys)
      ensures sys.pc == if ok then old(sys.pc).(next := to) else Idle
    {
      hide InitRun, GoodConfig;
      for i := sys.pc.next to to
        invariant Valid() && old(states) <= states && sys.log == old(sys.log) && sys.live == old(sys.live)
        invariant sys.spoiled == old(sys.spoiled)
        invariant sys.staged.Keys <= old(sys.staged.Keys)
        invariant sys.pc == old(sys.pc).(next := i)
      {
        var moved := MoveStack();
        if !moved {
          return false;
        }
      }
      return true;
    }

    /**
      Items first, then a look into the item stores, then fluids and a look into the tanks. Success
      means that nothing is left in any store of the record.
     */
    method PerformTransfer() returns (ok: bool)
      requires Valid() && sys.pc.Draining? && sys.pc.next == 0
      modifies this`sys, this`states, this`acts
      ensures Valid() && old(states) <= states && sys.log == old(sys.log) && sys.live == old(sys.live)
      ensures sys.spoiled == old(sys.spoiled)
      ensures sys.staged.Keys <= old(sys.staged.Keys)
      ensures ok ==> AtEnd(sys) && StoresEmpty(sys.staged, sys.log[sys.pc.id].lines)
      ensures ok ==> sys.pc.id == old(sys.pc.id) && sys.pc.after == old(sys.pc.after)
      ensures !ok ==> sys.pc == Idle
    {
      DrainingKnown();
      hide InitRun, GoodConfig;
      var record := sys.log[sys.pc.id];
      ok := MoveLines(record.items);
      if !ok {
        return;
      }
      var empty := CheckEmpty(sys.staged, record.lines[..record.items]);
      if !empty {
        Fail();
        return false;
      }
      ok := MoveLines(|record.lines|);
      if !ok {
        return;
      }
      ok := CheckEmpty(sys.staged, record.lines);
      if !ok {
        Take(NotEmpty, sys.(pc := Idle));
      }
    }

    /** The open database transaction commits: the record and whatever else was written in it become durable. */
    method CommitDbTx()
      requires Valid() && sys.pc.Prepared? && |sys.pc.req.fluids| <= |cfg.tanks|
      modifies this`sys, this`states, this`acts
      ensures Valid() && old(states) <= states
      ensures sys.log == old(sys.log)[old(sys.pc.id) := RecordOf(cfg, old(sys.pc.req))]
      ensures sys.live == old(sys.live) + {old(sys.pc.id)} && sys.pc == Draining(old(sys.pc.id), 0, Nothing)
      ensures sys.spoiled == old(sys.spoiled)
    {
      hide InitRun, GoodConfig, RecordOf;
      var id, req := sys.pc.id, sys.pc.req;
      Take(CommitDb, sys.(log := sys.log[id := RecordOf(cfg, req)], live := sys.live + {id},
                          pc := Draining(id, 0, Nothing)));
    }

    /** A stored transaction is dropped once its stores are empty: all of it was delivered, unless a setup took some. */
    method ProcessSTX() returns (ok: bool)
      requires Valid() && sys.pc.Draining? && sys.pc.next == 0
      modifies this`sys, this`states, this`acts
      ensures Valid() && old(states) <= states && sys.log == old(sys.log) && sys.spoiled == old(sys.spoiled)
      ensures sys.staged.Keys <= old(sys.staged.Keys)
      ensures ok ==> sys.pc == Continue(old(sys.pc.after)) && sys.live == old(sys.live) - {old(sys.pc.id)}
      ensures ok ==> (FullyDelivered(sys, old(sys.pc.id)) <==> old(sys.pc.id) !in sys.spoiled)
      ensures !ok ==> sys.pc == Idle && sys.live == old(sys.live)
    {
      ghost var id := sys.pc.id;
      ok := PerformTransfer();
      if !ok {
        return;
      }
      var dropped: bool := *;
      if !dropped {
        Fail();
        return false;
      }
      assert FullyDelivered(sys, id) <==> id !in sys.spoiled by {
        ValidHolds();
        EmptyMeansDelivered(sys, id);
      }
      hide InitRun, GoodConfig, FullyDelivered, StoresEmpty;
      var s' := sys.(live := sys.live - {sys.pc.id}, pc := Continue(sys.pc.after));
      if id !in sys.spoiled {
        DoneIgnoresOthers(sys, s', id);
      } else if FullyDelivered(s', id) {
        DoneIgnoresOthers(s', sys, id);
      }
      assert Next(cfg, sys, Drop, s');
      Take(Drop, s');
    }

    /** The stored transactions that hold any of the subjects, in some order. */
    method FindLocks(subjects: set<string>) returns (queue: seq<int>)
      ensures Finds(sys, subjects, queue)
    {
      var rest := set id | id in sys.live && Meets(sys.log, id, subjects);
      ghost var all := rest;
      queue := [];
      while exists id :: id in rest
        invariant rest <= all
        invariant forall id :: id in all <==> id in queue || id in rest
        invariant forall id :: id in queue ==> id !in rest
        invariant forall i, j :: 0 <= i < j < |queue| ==> queue[i] != queue[j]
        decreases |rest|
      {
        var id: int :| id in rest;
        rest := rest - {id};
        queue := queue + [id];
      }
    }

    /** Drains every stored transaction that holds one of the request's subjects. */
    method RestoreIfExists(req: Request) returns (ok: bool)
      requires Valid() && sys.pc == Idle && Admitted(cfg, req)
      modifies this`sys, this`states, this`acts
      ensures Valid() && old(states) <= states && sys.log == old(sys.log) && sys.spoiled == old(sys.spoiled)
      ensures sys.live <= old(sys.live) && sys.staged.Keys <= old(sys.staged.Keys)
      ensures sys.pc == if ok then Dumping(req) else Idle
      ensures ok ==> Free(cfg, sys, req)
    {
      var queue := FindLocks(Subjects(cfg, req));
      assert Next(cfg, sys, Begin(req), sys.(pc := Restoring(req, queue)));
      Take(Begin(req), sys.(pc := Restoring(req, queue)));
      hide InitRun, GoodConfig, Free;
      while sys.pc.queue != []
        invariant Valid() && old(states) <= states && sys.log == old(sys.log) && sys.spoiled == old(sys.spoiled)
        invariant sys.live <= old(sys.live) && sys.staged.Keys <= old(sys.staged.Keys)
        invariant sys.pc.Restoring? && sys.pc.req == req
        decreases |sys.pc.queue|
      {
        Take(RestoreNext, sys.(pc := Draining(sys.pc.queue[0], 0, Resume(req, sys.pc.queue[1..]))));
        ok := ProcessSTX();
        if !ok {
          return;
        }
      }
      Take(RestoreNext, sys.(pc := Dumping(req)));
      ok := true;
      ValidHolds();
    }

    /** Puts a pile back into storage; a failed call may leave it half taken. */
    method ImportStack(p: Place) returns (ok: bool)
      requires Valid() && sys.pc.Dumping? && p in sys.staged && p.store in Dumped(cfg, sys.pc.req)
      modifies this`sys, this`states, this`acts
      ensures Valid() && old(states) <= states && sys.log == old(sys.log) && sys.live == old(sys.live)
      ensures sys.spoiled == old(sys.spoiled) + Holders(old(sys), p.store)
      ensures sys.pc == if ok then old(sys.pc) else Idle
      ensures if ok then sys.staged.Keys == old(sys.staged.Keys) - {p} else sys.staged.Keys <= old(sys.staged.Keys)
    {
      ValidHolds();
      hide InitRun, GoodConfig, AllHold, Dumped, Holders;
      var count := sys.staged[p].count;
      assert count > 0 by { PilesArePositive(p); }
      var k: int :| 0 < k <= count;
      ok := *;
      if ok {
        k := count;
      }
      Take(Dump(p, k), Returned(sys, p, k));
      if !ok {
        Fail();
      }
    }

    lemma PilesArePositive(p: Place)
      requires AllHold(cfg, sys) && p in sys.staged
      ensures sys.staged[p].count > 0
    {
    }

    /** Empties one store, a pile at a time; what was staged there is taken from the record that holds it. */
    method ImportAll(store: string) returns (ok: bool)
      requires Valid() && sys.pc.Dumping? && store in Dumped(cfg, sys.pc.req)
      modifies this`sys, this`states, this`acts
      ensures Valid() && old(states) <= states && sys.log == old(sys.log) && sys.live == old(sys.live)
      ensures sys.staged.Keys <= old(sys.staged.Keys)
      ensures sys.pc == if ok then old(sys.pc) else Idle
      ensures ok ==> forall p :: p in sys.staged ==> p.store != store
      ensures old(sys.spoiled) <= sys.spoiled <= old(sys.spoiled) + Victims(old(sys), {store})
    {
      hide Valid, Dumped;
      while exists p :: p in sys.staged && p.store == store
        invariant Valid() && old(states) <= states && sys.log == old(sys.log) && sys.live == old(sys.live)
        invariant sys.staged.Keys <= old(sys.staged.Keys)
        invariant sys.pc == old(sys.pc)
        invariant old(sys.spoiled) <= sys.spoiled <= old(sys.spoiled) + Victims(old(sys), {store})
        decreases |sys.staged.Keys|
      {
        var p: Place :| p in sys.staged && p.store == store;
        HoldersAreVictims(sys, old(sys), p);
        ok := ImportStack(p);
        if !ok {
          return;
        }
      }
      ok := true;
    }

    /** Asks the storage to lay out the next line; less than asked, or an error, fails the setup. */
    method ExportStack() returns (ok: bool)
      requires Valid() && AtStage(cfg, sys)
      modifies this`sys, this`states, this`acts
      ensures Valid() && old(states) <= states && sys.log == old(sys.log) && sys.spoiled == old(sys.spoiled)
      ensures sys.pc == if ok then old(sys.pc).(done := old(sys.pc.done) + 1) else Idle
    {
      var line := NextLine(cfg, sys);
      var stored: int := Get(sys.stock, line.uid);
      var limit := if line.amount < stored then line.amount else stored;
      if limit < 0 || line.from in sys.staged {
        Fail();
        return false;
      }
      var amount: int :| 0 <= amount <= limit;
      var exported := LaidOut(sys, line, amount);
      var failed: bool := *;
      hide InitRun, GoodConfig, NextLine;
      assert Stages(sys, line, amount, exported) && exported.log == sys.log && exported.pc == sys.pc;
      hide LaidOut, Stages;
      if amount != line.amount {
        assert exported.(pc := Idle).(pc := sys.pc) == exported;
        Take(StageShort(amount), exported.(pc := Idle));
        return false;
      }
      var s' := exported.(pc := sys.pc.(done := sys.pc.done + 1));
      assert s'.(pc := sys.pc) == exported;
      Take(Stage, s');
      if failed {
        Fail();
        return false;
      }
      return true;
    }

    /** Empties the item store, if the request has items, and then every configured tank. */
    method DumpStores(req: Request) returns (ok: bool)
      requires Valid() && sys.pc == Dumping(req)
      modifies this`sys, this`states, this`acts
      ensures Valid() && old(states) <= states && sys.log == old(sys.log) && sys.live == old(sys.live)
      ensures sys.pc == if ok then Dumping(req) else Idle
      ensures ok ==> forall p :: p in sys.staged ==> p.store !in Dumped(cfg, req)
      ensures old(sys.spoiled) <= sys.spoiled <= old(sys.spoiled) + Victims(old(sys), Dumped(cfg, req))
    {
      hide Valid, Victims;
      ghost var before := sys;
      ghost var dumped := Dumped(cfg, req);
      if req.items != [] {
        VictimsGrow(before, sys, {cfg.itemStore}, dumped);
        ok := ImportAll(cfg.itemStore);
        if !ok {
          return;
        }
      }
      for i := 0 to |cfg.tanks|
        invariant Valid() && old(states) <= states && sys.log == before.log && sys.live == before.live
        invariant sys.pc == Dumping(req) && sys.staged.Keys <= before.staged.Keys
        invariant req.items != [] ==> forall p :: p in sys.staged ==> p.store != cfg.itemStore
        invariant forall p, j :: p in sys.staged && 0 <= j < i ==> p.store != cfg.tanks[j]
        invariant before.spoiled <= sys.spoiled <= before.spoiled + Victims(before, dumped)
      {
        VictimsGrow(before, sys, {cfg.tanks[i]}, dumped);
        ok := ImportAll(cfg.tanks[i]);
        if !ok {
          return;
        }
      }
      ok := true;
    }

    /** Lays out the lines of the request in order. */
    method StageLines(req: Request) returns (ok: bool)
      requires Valid() && sys.pc == Staging(req, 0) && |req.fluids| <= |cfg.tanks|
      modifies this`sys, this`states, this`acts
      ensures Valid() && old(states) <= states && sys.log == old(sys.log) && sys.spoiled == old(sys.spoiled)
      ensures sys.pc == if ok then Staging(req, |Lines(cfg, req)|) else Idle
    {
      hide Valid, Lines;
      for i := 0 to |Lines(cfg, req)|
        invariant Valid() && old(states) <= states && sys.log == old(sys.log) && sys.pc == Staging(req, i)
        invariant sys.spoiled == old(sys.spoiled)
      {
        ok := ExportStack();
        if !ok {
          return;
        }
      }
      ok := true;
    }

    /** Opens the database transaction that will store the record; its id is new. */
    method InsertTransactionUncommitted() returns (ok: bool)
      requires Valid() && sys.pc.Staging? && |sys.pc.req.fluids| <= |cfg.tanks|
        && sys.pc.done == |Lines(cfg, sys.pc.req)|
      modifies this`sys, this`states, this`acts, this`nextId
      ensures Valid() && old(states) <= states && sys.log == old(sys.log) && sys.spoiled == old(sys.spoiled)
      ensures sys.pc == if ok then Prepared(old(sys.pc.req), old(nextId)) else Idle
    {
      hide InitRun, GoodConfig, Lines;
      ok := *;
      if !ok {
        Fail();
        return;
      }
      var id := nextId;
      nextId := nextId + 1;
      Take(Insert(id), sys.(pc := Prepared(sys.pc.req, id)));
    }

    /** Restores, empties, lays out, and opens the database transaction. */
    method SetupTransaction(req: Request) returns (ok: bool)
      requires Valid() && sys.pc == Idle && Admitted(cfg, req)
      modifies this`sys, this`states, this`acts, this`nextId
      ensures Valid() && old(states) <= states && sys.log == old(sys.log)
      ensures old(Shares(cfg, sys, req)) ==> sys.spoiled == old(sys.spoiled)
      ensures if ok then sys.pc.Prepared? && sys.pc.req == req && |req.fluids| <= |cfg.tanks| else sys.pc == Idle
      ensures ok ==> StandsReady(cfg, req, sys.staged)
    {
      assert |req.fluids| <= |cfg.tanks|;
      hide InitRun, GoodConfig, Free, Admitted, Shares, Lines, Dumped, Victims;
      ghost var before := sys;
      ok := RestoreIfExists(req);
      if !ok {
        return;
      }
      if Shares(cfg, before, req) {
        SharesShrinks(cfg, before, sys, req);
        SharingHasNoVictims(cfg, sys, req);
      }
      ok := DumpStores(req);
      if !ok {
        return;
      }
      Take(DumpDone, sys.(pc := Staging(req, 0)));
      ok := StageLines(req);
      if !ok {
        return;
      }
      ok := InsertTransactionUncommitted();
      if ok {
        PreparedReady();
      }
    }

    method Unlock()
      requires locked
      modifies this`locked, this`unlocks
      ensures !locked && unlocks == old(unlocks) + 1
    {
      locked := false;
      unlocks := unlocks + 1;
    }

    /** A handle is handed out, with the lock held, exactly when the setup succeeded. */
    method CreateExportTransaction(req: Request) returns (tx: TransferTransaction?)
      requires Valid() && sys.pc == Idle && !locked && PositiveRequest(req)
      modifies this
      ensures Valid() && old(states) <= states && sys.log == old(sys.log)
      ensures !Admitted(cfg, req) ==> tx == null && sys == old(sys) && unlocks == old(unlocks)
      ensures tx == null ==> !locked && sys.pc == Idle
      ensures old(Shares(cfg, sys, req)) ==> sys.spoiled == old(sys.spoiled)
      ensures tx != null ==> fresh(tx) && tx.tm == this && !tx.complete && locked && unlocks == old(unlocks)
      ensures tx != null ==> tx.Valid() && sys.pc.Prepared? && sys.pc.req == req && StandsReady(cfg, req, sys.staged)
    {
      if (req.items == [] && req.fluids == []) || |req.items| > 27 {
        return null;
      }
      if (req.items != [] && cfg.itemStore == "") || |req.fluids| > |cfg.tanks| {
        return null;
      }
      if exists i :: 0 <= i < |req.fluids| && cfg.tanks[i] == "" {
        return null;
      }
      locked := true;
      var ok := SetupTransaction(req);
      if !ok {
        Unlock();
        return null;
      }
      tx := new TransferTransaction(this);
    }

    /** The periodic replay: up to ten stored transactions, until one fails. */
    method PingTransaction() returns (ok: bool)
      requires Valid() && sys.pc == Idle
      modifies this`sys, this`states, this`acts
      ensures Valid() && old(states) <= states && sys.log == old(sys.log) && sys.pc == Idle && sys.live <= old(sys.live)
      ensures ok && |old(sys.live)| <= 10 ==> sys.live == {}
    {
      var queue := FindTransactions(10);
      assert Without(sys.live, queue[..0]) == sys.live;
      hide InitRun, GoodConfig, Without;
      for i := 0 to |queue|
        invariant Valid() && old(states) <= states && sys.log == old(sys.log) && sys.pc == Idle
        invariant sys.live == Without(old(sys.live), queue[..i])
      {
        OneMore(old(sys.live), queue, i);
        assert queue[i] in queue;
        Take(Ping(queue[i]), sys.(pc := Draining(queue[i], 0, Nothing)));
        ok := ProcessSTX();
        if !ok {
          return;
        }
      }
      ok := true;
      assert queue[..|queue|] == queue;
      if |old(sys.live)| <= 10 {
        NoneLeft(old(sys.live), queue);
      }
    }

    method FindTransactions(limit: nat) returns (queue: seq<int>)
      ensures forall id :: id in queue ==> id in sys.live
      ensures forall i, j :: 0 <= i < j < |queue| ==> queue[i] != queue[j]
      ensures |queue| <= limit && (|sys.live| <= limit ==> forall id :: id in sys.live ==> id in queue)
    {
      var rest := sys.live;
      queue := [];
      while |queue| < limit && exists id :: id in rest
        invariant |queue| <= limit && rest <= sys.live && |rest| + |queue| == |sys.live|
        invariant forall id :: id in sys.live <==> id in queue || id in rest
        invariant forall id :: id in queue ==> id !in rest
        invariant forall i, j :: 0 <= i < j < |queue| ==> queue[i] != queue[j]
        decreases |rest|
      {
        var id: int :| id in rest;
        rest := rest - {id};
        queue := queue + [id];
      }
      if |sys.live| <= limit && exists id :: id in rest {
        assert |queue| == limit;
        assert |rest| == 0;
      }
    }
  }

  class TransferTransaction {
    const tm: TransferTransactionManager
    var complete: bool

    constructor (manager: TransferTransactionManager)
      ensures tm == manager && !complete
    {
      tm := manager;
      complete := false;
    }

    /** Until it is completed, a handle has an open database transaction and holds the lock. */
    ghost predicate Valid()
      reads this, tm
    {
      tm.Valid() && (!complete ==> tm.locked && tm.sys.pc.Prepared? && |tm.sys.pc.req.fluids| <= |tm.cfg.tanks|)
    }

    /**
      The first call stores the record with what its caller wrote, delivers and drops it, and
      releases the lock whether or not that succeeds; a later call does nothing.
     */
    method Commit() returns (ok: bool)
      requires Valid()
      modifies this`complete, tm
      ensures Valid() && complete && old(tm.states) <= tm.states
      ensures tm.unlocks == old(tm.unlocks) + if old(complete) then 0 else 1
      ensures old(complete) ==> ok && tm.sys == old(tm.sys) && tm.locked == old(tm.locked)
      ensures !old(complete) ==> !tm.locked && tm.sys.pc == Idle
      ensures !old(complete) && ok ==>
        && tm.sys.log == old(tm.sys.log)[old(tm.sys.pc.id) := RecordOf(tm.cfg, old(tm.sys.pc.req))]
        && old(tm.sys.pc.id) !in tm.sys.live && FullyDelivered(tm.sys, old(tm.sys.pc.id))
        && Brings(tm.sys, old(tm.sys.pc.id), old(tm.sys.pc.req))
      ensures !old(complete) && !ok ==>
        || tm.sys == old(tm.sys).(pc := Idle)
        || (old(tm.sys.pc.id) in tm.sys.live
            && tm.sys.log == old(tm.sys.log)[old(tm.sys.pc.id) := RecordOf(tm.cfg, old(tm.sys.pc.req))]
            && Answers(tm.sys.log[old(tm.sys.pc.id)], old(tm.sys.pc.req)))
    {
      if complete {
        return true;
      }
      complete := true;
      var committed: bool := *;
      if !committed {
        tm.Fail();
        tm.Unlock();
        return false;
      }
      tm.PreparedIsNew();
      ghost var req, id := tm.sys.pc.req, tm.sys.pc.id;
      RecordAnswers(tm.cfg, req);
      tm.CommitDbTx();
      ok := tm.ProcessSTX();
      if ok {
        tm.ValidHolds();
        assert DeliveredKnown(tm.sys);
        AnswerIsBrought(tm.sys, id, req);
      }
      tm.Unlock();
    }

    method Rollback()
      requires Valid()
      modifies this`complete, tm
      ensures Valid() && complete && old(tm.states) <= tm.states
      ensures tm.unlocks == old(tm.unlocks) + if old(complete) then 0 else 1
      ensures old(complete) ==> tm.sys == old(tm.sys) && tm.locked == old(tm.locked)
      ensures !old(complete) ==> !tm.locked && tm.sys == old(tm.sys).(pc := Idle)
    {
      if complete {
        return;
      }
      complete := true;
      tm.Fail();
      tm.Unlock();
    }
  }

  /** Any sequence of commits and rollbacks on a new handle releases the lock exactly once. */
  method UseHandle(tx: TransferTransaction, commits: seq<bool>)
    requires tx.Valid() && !tx.complete && commits != []
    modifies tx`complete, tx.tm
    ensures tx.Valid() && tx.complete && !tx.tm.locked && tx.tm.unlocks == old(tx.tm.unlocks) + 1
  {
    for i := 0 to |commits|
      invariant tx.Valid() && (tx.complete <==> i > 0)
      invariant tx.tm.locked <==> i == 0
      invariant tx.tm.unlocks == old(tx.tm.unlocks) + if i == 0 then 0 else 1
    {
      if commits[i] {
        var _ := tx.Commit();
      } else {
        tx.Rollback();
      }
    }
  }

  /** The state after storage has laid out `k` items for a line. */
  function LaidOut(s: Sys, line: Line, k: int): Sys {
    if k == 0 then s
    else s.(stock := s.stock[line.uid := Get(s.stock, line.uid) - k],
      staged := s.staged[line.from := Pile(line.uid, k)])
  }
}
