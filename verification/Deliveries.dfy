/**
  Where the lines of a transfer go: what a record sends to a place is what its request asks for
  there, and what arrives there is what the records sent
  (internal/services/storage/transfer_transaction_manager.go).
 */
module Deliveries {
  import opened Recipes
  import opened Sums
  import opened Transfer
  import opened TransferSafety
  import opened TransferTheorems

  /** The amount of an item that the lines move to a place. */
  function LinesTo(lines: seq<Line>, p: Place, u: Uid): int {
    if lines == [] then 0
    else
      var last := lines[|lines| - 1];
      LinesTo(lines[..|lines| - 1], p, u) + if last.target == p && last.uid == u then last.amount else 0
  }

  /** The amount of an item that the entries ask for at a place. */
  function AskedAt(asked: seq<Asked>, p: Place, u: Uid): int {
    if asked == [] then 0
    else
      var last := asked[|asked| - 1];
      AskedAt(asked[..|asked| - 1], p, u) + if last.target == p && last.uid == u then last.amount else 0
  }

  function AskedTo(req: Request, p: Place, u: Uid): int {
    AskedAt(req.items, p, u) + AskedAt(req.fluids, p, u)
  }

  lemma {:induction false} LinesToAppend(a: seq<Line>, b: seq<Line>, p: Place, u: Uid)
    ensures LinesTo(a + b, p, u) == LinesTo(a, p, u) + LinesTo(b, p, u)
  {
    if b == [] {
      assert a + b == a;
    } else {
      var n := |b| - 1;
      LinesToAppend(a, b[..n], p, u);
      assert (a + b)[..|a| + n] == a + b[..n];
    }
  }

  lemma {:induction false} LinesAreAsked(lines: seq<Line>, asked: seq<Asked>, p: Place, u: Uid)
    requires |lines| == |asked|
    requires forall i :: 0 <= i < |lines| ==>
      lines[i].target == asked[i].target && lines[i].uid == asked[i].uid && lines[i].amount == asked[i].amount
    ensures LinesTo(lines, p, u) == AskedAt(asked, p, u)
  {
    if lines != [] {
      var n := |lines| - 1;
      LinesAreAsked(lines[..n], asked[..n], p, u);
    }
  }

  /** A record sends each place what the request's entries ask for there, to the last item. */
  lemma RecordSends(cfg: Config, req: Request, p: Place, u: Uid)
    requires |req.fluids| <= |cfg.tanks|
    ensures LinesTo(RecordOf(cfg, req).lines, p, u) == AskedTo(req, p, u)
  {
    var lines := RecordOf(cfg, req).lines;
    var n := |req.items|;
    hide LinesTo, AskedAt;
    LinesAreAsked(lines[..n], req.items, p, u);
    forall i | 0 <= i < |req.fluids|
      ensures lines[n..][i].target == req.fluids[i].target && lines[n..][i].uid == req.fluids[i].uid
        && lines[n..][i].amount == req.fluids[i].amount
    {
      assert lines[n..][i] == lines[n + i] == LineAt(cfg, req, n + i);
    }
    LinesAreAsked(lines[n..], req.fluids, p, u);
    LinesToAppend(lines[..n], lines[n..], p, u);
    assert lines[..n] + lines[n..] == lines;
  }

  predicate LiesAt(staged: map<Place, Pile>, p: Place, entry: Asked) {
    p in staged && staged[p] == Pile(entry.uid, entry.amount)
  }

  /** Each entry has one of the item store's 27 slots, or a tank, to itself, and all that it asks for lies there. */
  ghost predicate StandsReady(cfg: Config, req: Request, staged: map<Place, Pile>) {
    && |req.items| <= 27 && |req.fluids| <= |cfg.tanks|
    && (forall i :: 0 <= i < |req.items| ==> LiesAt(staged, Place(cfg.itemStore, i + 1), req.items[i]))
    && (forall i :: 0 <= i < |req.fluids| ==> LiesAt(staged, Place(cfg.tanks[i], 0), req.fluids[i]))
  }

  lemma PreparedStandsReady(cfg: Config, s: Sys)
    requires Inv(cfg, s) && s.pc.Prepared?
    ensures StandsReady(cfg, s.pc.req, s.staged)
  {
    var req := s.pc.req;
    var lines := Lines(cfg, req);
    assert StandStaged(s, lines, |lines|) && |req.items| <= 27 && |req.fluids| <= |cfg.tanks|;
    hide Inv, CounterKnown;
    forall i | 0 <= i < |req.items| ensures LiesAt(s.staged, Place(cfg.itemStore, i + 1), req.items[i]) {
      assert lines[i] == LineAt(cfg, req, i);
    }
    forall i | 0 <= i < |req.fluids| ensures LiesAt(s.staged, Place(cfg.tanks[i], 0), req.fluids[i]) {
      assert lines[|req.items| + i] == LineAt(cfg, req, |req.items| + i);
    }
  }

  /** The record sends each place what the request asks for there, to the last item. */
  ghost predicate Answers(r: Record, req: Request) {
    forall p, u :: LinesTo(r.lines, p, u) == AskedTo(req, p, u)
  }

  lemma RecordAnswers(cfg: Config, req: Request)
    requires |req.fluids| <= |cfg.tanks|
    ensures Answers(RecordOf(cfg, req), req)
  {
    hide LinesTo, AskedTo, RecordOf;
    forall p, u ensures LinesTo(RecordOf(cfg, req).lines, p, u) == AskedTo(req, p, u) {
      RecordSends(cfg, req, p, u);
    }
  }

  // ---------------------------------------------------------------- what arrives

  /** What one transfer's lines have brought to a target. */
  ghost function BroughtBy(s: Sys, id: int, t: TargetKey): int
    requires DeliveredKnown(s)
  {
    Sum(PartOf(DeliveredTo(s, t), id))
  }

  ghost function PartOf(m: map<LineKey, int>, id: int): map<LineKey, int> {
    map k | k in m && k.tx == id :: m[k]
  }

  ghost function Parts(m: map<LineKey, int>, ids: set<int>): map<int, int> {
    map id | id in ids :: Sum(PartOf(m, id))
  }

  lemma {:induction false} SumOfParts(m: map<LineKey, int>, ids: set<int>)
    requires forall k :: k in m ==> k.tx in ids
    ensures Sum(m) == Sum(Parts(m, ids))
    decreases |m|
  {
    hide Sum;
    if m == map[] {
      forall id | id in ids ensures Parts(m, ids)[id] == 0 {
        assert PartOf(m, id) == map[];
        SumZero(PartOf(m, id));
      }
      SumZero(m);
      SumZero(Parts(m, ids));
    } else {
      var k :| k in m;
      var rest := m - {k};
      SumOfParts(rest, ids);
      SumRemove(m, k);
      assert PartOf(m, k.tx) - {k} == PartOf(rest, k.tx);
      SumRemove(PartOf(m, k.tx), k);
      forall id | id in ids && id != k.tx ensures Parts(m, ids)[id] == Parts(rest, ids)[id] {
        assert PartOf(m, id) == PartOf(rest, id);
      }
      assert Parts(m, ids) == Parts(rest, ids)[k.tx := Sum(PartOf(m, k.tx))];
      SumUpdate(Parts(rest, ids), k.tx, Sum(PartOf(m, k.tx)));
    }
  }

  /** What there is at a target is what the stored transfers brought, each counted by itself. */
  lemma ArrivedIsBrought(s: Sys, t: TargetKey)
    requires TargetsExact(s)
    ensures Get(s.targets, t) == Sum(map id | id in s.log :: BroughtBy(s, id, t))
  {
    hide Sum, GoesTo;
    SumOfParts(DeliveredTo(s, t), s.log.Keys);
    assert Parts(DeliveredTo(s, t), s.log.Keys) == map id | id in s.log :: BroughtBy(s, id, t);
  }

  /** The deliveries of the first lines of a transfer. */
  ghost function FirstOf(m: map<LineKey, int>, id: int, n: nat): map<LineKey, int> {
    map k | k in m && k.tx == id && k.line < n :: m[k]
  }

  /** The deliveries of one more line. */
  lemma FirstOfNext(m: map<LineKey, int>, id: int, n: nat)
    ensures Sum(FirstOf(m, id, n + 1)) == Sum(FirstOf(m, id, n)) + Get(m, LineKey(id, n))
  {
    hide Sum;
    var key := LineKey(id, n);
    if key in m {
      assert FirstOf(m, id, n + 1) == FirstOf(m, id, n)[key := m[key]];
      SumUpdate(FirstOf(m, id, n), key, m[key]);
    } else {
      assert FirstOf(m, id, n + 1) == FirstOf(m, id, n);
    }
  }

  lemma LineBrings(s: Sys, id: int, t: TargetKey, i: nat)
    requires DeliveredKnown(s) && FullyDelivered(s, id) && i < |s.log[id].lines|
    ensures var line := s.log[id].lines[i];
      Get(DeliveredTo(s, t), LineKey(id, i)) == if line.target == t.place && line.uid == t.uid then line.amount else 0
  {
    assert Get(s.delivered, LineKey(id, i)) == s.log[id].lines[i].amount;
  }

  lemma {:induction false} FirstLinesBring(s: Sys, id: int, t: TargetKey, n: nat)
    requires DeliveredKnown(s) && FullyDelivered(s, id) && n <= |s.log[id].lines|
    ensures Sum(FirstOf(DeliveredTo(s, t), id, n)) == LinesTo(s.log[id].lines[..n], t.place, t.uid)
  {
    assert id in s.log && FirstOf(DeliveredTo(s, t), id, 0) == map[];
    hide DeliveredTo, DeliveredKnown, FullyDelivered;
    var m, lines := DeliveredTo(s, t), s.log[id].lines;
    if n > 0 {
      FirstLinesBring(s, id, t, n - 1);
      FirstOfNext(m, id, n - 1);
      LineBrings(s, id, t, n - 1);
      assert lines[..n][..n - 1] == lines[..n - 1] && lines[..n][n - 1] == lines[n - 1];
      hide Sum, FirstOf, Get;
    }
  }

  /** A transfer that is delivered in full has brought each target what its lines send there. */
  lemma DeliveredInFull(s: Sys, id: int, t: TargetKey)
    requires DeliveredKnown(s) && FullyDelivered(s, id)
    ensures BroughtBy(s, id, t) == LinesTo(s.log[id].lines, t.place, t.uid)
  {
    var n := |s.log[id].lines|;
    FirstLinesBring(s, id, t, n);
    assert s.log[id].lines[..n] == s.log[id].lines;
    assert FirstOf(DeliveredTo(s, t), id, n) == PartOf(DeliveredTo(s, t), id);
  }

  /** Nothing is brought for a transfer before it is stored. */
  lemma NothingBroughtBefore(s: Sys, id: int, t: TargetKey)
    requires DeliveredKnown(s) && id !in s.log
    ensures BroughtBy(s, id, t) == 0
  {
    assert PartOf(DeliveredTo(s, t), id) == map[];
    SumZero(PartOf(DeliveredTo(s, t), id));
  }

  /** The transfer has brought each target what the request asks for there. */
  ghost predicate Brings(s: Sys, id: int, req: Request) {
    DeliveredKnown(s) && forall t :: BroughtBy(s, id, t) == AskedTo(req, t.place, t.uid)
  }

  lemma AnswerIsBrought(s: Sys, id: int, req: Request)
    requires DeliveredKnown(s) && FullyDelivered(s, id) && Answers(s.log[id], req)
    ensures Brings(s, id, req)
  {
    hide BroughtBy, LinesTo, AskedTo;
    forall t ensures BroughtBy(s, id, t) == AskedTo(req, t.place, t.uid) {
      DeliveredInFull(s, id, t);
    }
  }
}
