/** How the processing worker starts a craft (internal/services/worker/processing_crafter_worker.go). */
module ProcessingWorker {
  import opened Recipes
  import opened Ledger
  import opened LedgerRuns
  import opened Database
  import opened Transfer
  import opened TransferManager
  import opened ProcessingRequest

  lemma RequestIsPositive(m: Machine, r: Recipe, req: Request)
    requires RequestFor(m, r, req) && PositiveAmounts(r.ingredients) && PositiveAmounts(r.catalysts)
    ensures PositiveRequest(req)
  {
    SortedArePositive(r.ingredients, false);
    SortedArePositive(r.ingredients, true);
  }

  /** Nothing was stored and nothing written, or both the record of this start and its tables are durable. */
  ghost predicate StartedOrNot(cfg: Config, m: Machine, craft: int, r: Recipe,
                               log: map<int, Record>, t: Tables, log': map<int, Record>, t': Tables) {
    if log' == log then t' == t
    else
      && CanCommit(t, craft) && t' == AfterStart(m, t, craft, r, 1)
      && exists id, req: Request ::
        id !in log && |req.fluids| <= |cfg.tanks| && RequestFor(m, r, req) && log' == log[id := RecordOf(cfg, req)]
  }

  lemma NothingStarted(cfg: Config, m: Machine, craft: int, r: Recipe, log: map<int, Record>, t: Tables)
    ensures StartedOrNot(cfg, m, craft, r, log, t, log, t)
  {
  }

  lemma BothStarted(cfg: Config, m: Machine, craft: int, r: Recipe, log: map<int, Record>, t: Tables, id: int,
                    req: Request)
    requires id !in log && |req.fluids| <= |cfg.tanks| && RequestFor(m, r, req) && CanCommit(t, craft)
    ensures StartedOrNot(cfg, m, craft, r, log, t, log[id := RecordOf(cfg, req)], AfterStart(m, t, craft, r, 1))
  {
    assert id in log[id := RecordOf(cfg, req)];
  }

  /**
    One repeat is started: its ingredients are released; a machine that waits has the craft's only
    wait row, and one that does not is done with the repeat, and with the craft if it was the last.
   */
  ghost predicate StartsOne(t: Tables, t': Tables, m: Machine, craft: int, r: Recipe) {
    && craft in t.crafts && OtherCraftsKept(t, t', craft) && PlansKept(t, t') && ReleasesIngredients(t, t', r, 1)
    && (forall w :: w in t'.waits <==> if w.craft == craft then m.wait && w == Wait(m.worker, craft) else w in t.waits)
    && var c := t.crafts[craft];
      if m.wait then craft in t'.crafts && t'.crafts[craft] == c.(status := Committed, committed := 1)
      else if c.repeats == 1 then craft !in t'.crafts
      else craft in t'.crafts && t'.crafts[craft] == c.(repeats := c.repeats - 1)
  }

  /** The craft's commit, and its wait row or completion, in the transaction that is open; a refusal gives it up. */
  method WriteStart(db: Database, m: Machine, craft: int, r: Recipe) returns (ok: bool)
    modifies db`tables
    ensures ok <==> CanCommit(old(db.tables), craft)
    ensures db.tables == if ok then AfterStart(m, old(db.tables), craft, r, 1) else old(db.tables)
    ensures ok ==> StartsOne(old(db.tables), db.tables, m, craft, r)
  {
    ok := db.CommitCraft(craft, r, 1);
    if !ok {
      return;
    }
    if m.wait {
      db.tables := AddWait(db.tables, craft, m.worker);
    } else {
      var completed := db.CompleteCraft(craft);
    }
  }

  /**
    Builds the request, sets the transfer up, writes the craft's start into its transaction, and
    commits; whatever fails on the way rolls everything back. The record and the craft's tables
    become durable together or not at all, and the lock is released in every case.
   */
  method StartCraft(tm: TransferTransactionManager, db: Database, m: Machine, craft: int, r: Recipe) returns (ok: bool)
    requires tm.Valid() && tm.sys.pc == Idle && !tm.locked
    requires PositiveAmounts(r.ingredients) && PositiveAmounts(r.catalysts)
    modifies tm, db`tables
    ensures tm.Valid() && tm.sys.pc == Idle && !tm.locked
    ensures StartedOrNot(tm.cfg, m, craft, r, old(tm.sys.log), old(db.tables), tm.sys.log, db.tables)
    ensures ok ==> tm.sys.log != old(tm.sys.log)
    ensures !Accepts(m, r) || !Admissible(tm.cfg, r) || !CanCommit(old(db.tables), craft) ==> !ok
  {
    hide StartedOrNot, RequestFor, RecordOf, AfterStart, Accepts, Admissible, Admitted;
    ghost var log, before := tm.sys.log, db.tables;
    NothingStarted(tm.cfg, m, craft, r, log, before);
    var req := BuildRequest(m, r);
    if req.None? {
      return false;
    }
    RequestIsPositive(m, r, req.value);
    AdmittedIff(tm.cfg, m, r, req.value);
    var tx := tm.CreateExportTransaction(req.value);
    if tx == null {
      return false;
    }
    var id, read := tm.sys.pc.id, db.tables;
    assert id !in log by { tm.PreparedIsNew(); }
    var written := WriteStart(db, m, craft, r);
    if !written {
      tx.Rollback();
      return false;
    }
    ok := tx.Commit();
    if id in tm.sys.log {
      BothStarted(tm.cfg, m, craft, r, log, before, id, req.value);
    } else {
      db.tables := read;
    }
  }
}
