/**
  The redo-log protocol that carries items to a machine
  (internal/services/storage/transfer_transaction_manager.go, internal/dao/export_transaction.go).

  Inventories and stored records are durable; the program counter, with the open database
  transaction it may hold, is lost in a crash.
 */
module Transfer {
  import opened Recipes

  datatype Place = Place(store: string, slot: int)
  datatype Pile = Pile(uid: Uid, count: int)
  datatype Line = Line(from: Place, target: Place, uid: Uid, amount: int)

  /**
    A stored transaction. The first `items` lines move items, the others fluids.
   */
  datatype Record = Record(subjects: set<string>, lines: seq<Line>, items: nat)

  datatype Asked = Asked(uid: Uid, target: Place, amount: int)
  datatype Request = Request(items: seq<Asked>, fluids: seq<Asked>)
  datatype Config = Config(itemStore: string, tanks: seq<string>)

  datatype TargetKey = TargetKey(place: Place, uid: Uid)
  datatype LineKey = LineKey(tx: int, line: int)

  datatype After = Nothing | Resume(req: Request, queue: seq<int>)

  datatype Counter =
    | Idle
    | Restoring(req: Request, queue: seq<int>)
    | Dumping(req: Request)
    | Staging(req: Request, done: nat)
    | Prepared(req: Request, id: int)
    | Draining(id: int, next: nat, after: After)

  /**
    `log` holds every record ever committed and `live` the ids of those not yet dropped. For the
    theorems, `delivered` counts what each line has moved to its target, and `spoiled` collects the
    records from whose stores a setup returned items while they were live.
   */
  datatype Sys = Sys(
    stock: map<Uid, int>,
    staged: map<Place, Pile>,
    targets: map<TargetKey, int>,
    log: map<int, Record>,
    live: set<int>,
    delivered: map<LineKey, int>,
    spoiled: set<int>,
    pc: Counter)

  // ---------------------------------------------------------------- requests

  function LineAt(cfg: Config, req: Request, i: nat): Line
    requires |req.fluids| <= |cfg.tanks| && i < |req.items| + |req.fluids|
  {
    if i < |req.items| then
      Line(Place(cfg.itemStore, i + 1), req.items[i].target, req.items[i].uid, req.items[i].amount)
    else
      var f := i - |req.items|;
      Line(Place(cfg.tanks[f], 0), req.fluids[f].target, req.fluids[f].uid, req.fluids[f].amount)
  }

  /** One line per requested stack: items fill the slots of the item store in order, fluids a tank each. */
  function Lines(cfg: Config, req: Request): (ls: seq<Line>)
    requires |req.fluids| <= |cfg.tanks|
    ensures |ls| == |req.items| + |req.fluids|
    ensures forall i :: 0 <= i < |ls| ==> ls[i] == LineAt(cfg, req, i)
  {
    seq(|req.items| + |req.fluids|, i requires 0 <= i < |req.items| + |req.fluids| => LineAt(cfg, req, i))
  }

  function ItemStores(cfg: Config, req: Request): set<string> {
    if req.items != [] then {cfg.itemStore} else {}
  }

  /** What the request locks: the item store if it has items, and one tank per fluid. */
  function Subjects(cfg: Config, req: Request): set<string>
    requires |req.fluids| <= |cfg.tanks|
  {
    ItemStores(cfg, req) + set i | 0 <= i < |req.fluids| :: cfg.tanks[i]
  }

  /** What the setup empties first: the item store if it has items, and every configured tank. */
  function Dumped(cfg: Config, req: Request): set<string> {
    ItemStores(cfg, req) + set i | 0 <= i < |cfg.tanks| :: cfg.tanks[i]
  }

  predicate GoodConfig(cfg: Config) {
    && (forall i, j :: 0 <= i < j < |cfg.tanks| ==> cfg.tanks[i] != cfg.tanks[j])
    && cfg.itemStore !in cfg.tanks
  }

  /** The checks made before the lock is taken, of a request for positive amounts. */
  predicate Admitted(cfg: Config, req: Request) {
    && (req.items != [] || req.fluids != [])
    && |req.items| <= 27
    && (req.items != [] ==> cfg.itemStore != "")
    && |req.fluids| <= |cfg.tanks|
    && (forall i :: 0 <= i < |req.fluids| ==> cfg.tanks[i] != "")
    && (forall i :: 0 <= i < |req.items| ==> req.items[i].amount > 0)
    && (forall i :: 0 <= i < |req.fluids| ==> req.fluids[i].amount > 0)
  }

  function RecordOf(cfg: Config, req: Request): Record
    requires |req.fluids| <= |cfg.tanks|
  {
    Record(Subjects(cfg, req), Lines(cfg, req), |req.items|)
  }

  // ---------------------------------------------------------------- physical moves

  function CountAt(staged: map<Place, Pile>, p: Place): int {
    if p in staged then staged[p].count else 0
  }

  /** Taking `k` from a place; an emptied place holds nothing. */
  function TakeFrom(staged: map<Place, Pile>, p: Place, k: int): map<Place, Pile>
    requires p in staged
  {
    if staged[p].count == k then staged - {p} else staged[p := Pile(staged[p].uid, staged[p].count - k)]
  }

  /** The remote move of up to `amount` items of a line: some `k`, limited by what is there. */
  ghost predicate MovesLine(s: Sys, id: int, i: nat, line: Line, k: int, s': Sys) {
    && 0 <= k <= line.amount && k <= CountAt(s.staged, line.from)
    && s' == (
      if k == 0 then s
      else
        var pile := s.staged[line.from];
        var key := TargetKey(line.target, pile.uid);
        s.(staged := TakeFrom(s.staged, line.from, k),
           targets := s.targets[key := Get(s.targets, key) + k],
           delivered := s.delivered[LineKey(id, i) := Get(s.delivered, LineKey(id, i)) + k]))
  }

  // ---------------------------------------------------------------- steps

  datatype Act =
    | Begin(req: Request)
    | RestoreNext
    | Ping(id: int)
    | MoveLine(k: int)
    | LoseReply(k: int)
    | Drop
    | NotEmpty
    | Dump(place: Place, taken: int)
    | DumpDone
    | Stage
    | StageShort(k: int)
    | Insert(id: int)
    | CommitDb
    | Abort

  predicate Meets(log: map<int, Record>, id: int, subjects: set<string>) {
    id in log && exists x :: x in log[id].subjects && x in subjects
  }

  predicate StoresEmpty(staged: map<Place, Pile>, lines: seq<Line>) {
    forall p, i :: p in staged && 0 <= i < |lines| ==> p.store != lines[i].from.store
  }

  function Continue(after: After): Counter {
    match after
    case Nothing => Idle
    case Resume(req, queue) => Restoring(req, queue)
  }

  ghost predicate BeginStep(cfg: Config, s: Sys, req: Request, s': Sys) {
    && s.pc.Idle? && Admitted(cfg, req)
    && exists queue :: Finds(s, Subjects(cfg, req), queue) && s' == s.(pc := Restoring(req, queue))
  }

  predicate RestoreStep(s: Sys, s': Sys) {
    && s.pc.Restoring?
    && s' == if s.pc.queue == [] then s.(pc := Dumping(s.pc.req))
             else s.(pc := Draining(s.pc.queue[0], 0, Resume(s.pc.req, s.pc.queue[1..])))
  }

  predicate AtLine(s: Sys) {
    s.pc.Draining? && s.pc.id in s.log && s.pc.next < |s.log[s.pc.id].lines|
  }

  predicate AtEnd(s: Sys) {
    s.pc.Draining? && s.pc.id in s.log && s.pc.next == |s.log[s.pc.id].lines|
  }

  /** A move of the current line; whether its reply arrives decides what the server does next. */
  ghost predicate MoveStep(s: Sys, k: int, s': Sys)
    requires AtLine(s)
  {
    MovesLine(s, s.pc.id, s.pc.next, s.log[s.pc.id].lines[s.pc.next], k, s'.(pc := s.pc))
  }

  predicate DropStep(s: Sys, s': Sys) {
    && AtEnd(s) && StoresEmpty(s.staged, s.log[s.pc.id].lines)
    && s' == s.(live := s.live - {s.pc.id}, pc := Continue(s.pc.after))
  }

  predicate DumpStep(cfg: Config, s: Sys, p: Place, k: int, s': Sys) {
    && s.pc.Dumping? && p in s.staged && p.store in Dumped(cfg, s.pc.req) && 0 < k <= s.staged[p].count
    && s' == Returned(s, p, k)
  }

  predicate DumpDoneStep(cfg: Config, s: Sys, s': Sys) {
    && s.pc.Dumping? && (forall p :: p in s.staged ==> p.store !in Dumped(cfg, s.pc.req))
    && s' == s.(pc := Staging(s.pc.req, 0))
  }

  predicate AtStage(cfg: Config, s: Sys) {
    s.pc.Staging? && |s.pc.req.fluids| <= |cfg.tanks| && s.pc.done < |Lines(cfg, s.pc.req)|
  }

  function NextLine(cfg: Config, s: Sys): Line
    requires AtStage(cfg, s)
  {
    Lines(cfg, s.pc.req)[s.pc.done]
  }

  ghost predicate StageStep(cfg: Config, s: Sys, k: int, s': Sys)
    requires AtStage(cfg, s)
  {
    Stages(s, NextLine(cfg, s), k, s'.(pc := s.pc))
  }

  predicate InsertStep(cfg: Config, s: Sys, id: int, s': Sys) {
    && s.pc.Staging? && |s.pc.req.fluids| <= |cfg.tanks| && s.pc.done == |Lines(cfg, s.pc.req)|
    && id !in s.log && s' == s.(pc := Prepared(s.pc.req, id))
  }

  /** The record becomes durable; whatever else the caller wrote in the transaction goes with it. */
  predicate CommitStep(cfg: Config, s: Sys, s': Sys) {
    && s.pc.Prepared? && |s.pc.req.fluids| <= |cfg.tanks|
    && s' == s.(log := s.log[s.pc.id := RecordOf(cfg, s.pc.req)], live := s.live + {s.pc.id},
                pc := Draining(s.pc.id, 0, Nothing))
  }

  /** One step of the server, its database and the remote storage. `Abort` stands for a crash, a
      refused or failed call, a rollback, or a failed database commit. */
  ghost predicate Next(cfg: Config, s: Sys, a: Act, s': Sys) {
    match a
    case Begin(req) => BeginStep(cfg, s, req, s')
    case RestoreNext => RestoreStep(s, s')
    case Ping(id) => s.pc.Idle? && id in s.live && s' == s.(pc := Draining(id, 0, Nothing))
    case MoveLine(k) => AtLine(s) && MoveStep(s, k, s') && s'.pc == s.pc.(next := s.pc.next + 1)
    case LoseReply(k) => AtLine(s) && MoveStep(s, k, s') && s'.pc == Idle
    case Drop => DropStep(s, s')
    case NotEmpty => AtEnd(s) && !StoresEmpty(s.staged, s.log[s.pc.id].lines) && s' == s.(pc := Idle)
    case Dump(p, k) => DumpStep(cfg, s, p, k, s')
    case DumpDone => DumpDoneStep(cfg, s, s')
    case Stage => AtStage(cfg, s) && StageStep(cfg, s, NextLine(cfg, s).amount, s')
      && s'.pc == s.pc.(done := s.pc.done + 1)
    case StageShort(k) => AtStage(cfg, s) && StageStep(cfg, s, k, s') && s'.pc == Idle
    case Insert(id) => InsertStep(cfg, s, id, s')
    case CommitDb => CommitStep(cfg, s, s')
    case Abort => s' == s.(pc := Idle)
  }

  /** The query for records holding any of the subjects: each such live record, once. */
  ghost predicate Finds(s: Sys, subjects: set<string>, queue: seq<int>) {
    && (forall i, j :: 0 <= i < j < |queue| ==> queue[i] != queue[j])
    && (forall id :: id in queue <==> id in s.live && Meets(s.log, id, subjects))
  }

  /** The live records that lock a store. */
  function Holders(s: Sys, store: string): set<int> {
    set id | id in s.live && id in s.log && store in s.log[id].subjects
  }

  /** Some `k` items of a pile go back to storage. */
  function Returned(s: Sys, p: Place, k: int): Sys
    requires p in s.staged
  {
    s.(stock := s.stock[s.staged[p].uid := Get(s.stock, s.staged[p].uid) + k],
       staged := TakeFrom(s.staged, p, k),
       spoiled := s.spoiled + Holders(s, p.store))
  }

  /** Storage hands out `k` of the asked amount into the line's place, if that is free. */
  ghost predicate Stages(s: Sys, line: Line, k: int, s': Sys) {
    && 0 <= k <= line.amount && k <= Get(s.stock, line.uid)
    && (k > 0 ==> line.from !in s.staged)
    && s' == if k == 0 then s
             else s.(stock := s.stock[line.uid := Get(s.stock, line.uid) - k],
                     staged := s.staged[line.from := Pile(line.uid, k)])
  }

  ghost predicate IsRun(cfg: Config, states: seq<Sys>, acts: seq<Act>) {
    && |states| == |acts| + 1
    && forall i :: 0 <= i < |acts| ==> Next(cfg, states[i], acts[i], states[i + 1])
  }
}
