/** How a worker crafts in batches, and takes up a craft again after a restart (internal/services/crafter/worker.go). */
module CraftBatch {
  import opened Recipes
  import opened Planner
  import opened Ledger
  import opened Database

  const STACK_SIZE := 64

  /** The largest amount on any line, and at least 1. */
  function Largest(items: seq<RecipeItem>, least: int): (m: int)
    ensures m >= least
  {
    if items == [] then least
    else
      var n := |items| - 1;
      var m := Largest(items[..n], least);
      if items[n].amount > m then items[n].amount else m
  }

  function MaxIngs(r: Recipe): int {
    Largest(r.ingredients, Largest(r.results, 1))
  }

  /** The repeats of one batch, or no limit for a recipe that moves more than a stack at once. */
  function BatchLimit(r: Recipe): Option<int> {
    if MaxIngs(r) > STACK_SIZE then None
    else if r.catalysts != [] then Some(1)
    else if r.maxRepeats.Some? then r.maxRepeats
    else Some(STACK_SIZE / MaxIngs(r))
  }

  function Min(a: int, b: int): int {
    if a < b then a else b
  }

  /** Every result and ingredient line stays within a stack for `m` repeats. */
  ghost predicate LinesFit(r: Recipe, m: int) {
    && (forall i :: 0 <= i < |r.results| ==> r.results[i].amount * m <= STACK_SIZE)
    && (forall i :: 0 <= i < |r.ingredients| ==> r.ingredients[i].amount * m <= STACK_SIZE)
  }

  lemma {:induction false} LargestIsALine(items: seq<RecipeItem>, least: int)
    ensures forall i :: 0 <= i < |items| ==> items[i].amount <= Largest(items, least)
    ensures Largest(items, least) == least || exists i :: 0 <= i < |items| && items[i].amount == Largest(items, least)
  {
    if items != [] {
      LargestIsALine(items[..|items| - 1], least);
      assert forall i :: 0 <= i < |items| - 1 ==> items[..|items| - 1][i] == items[i];
    }
  }

  lemma QuotientIsGreatest(a: int, n: int)
    requires 1 <= a <= n
    ensures var m := n / a; m >= 1 && a * m <= n < a * (m + 1) && forall k :: 1 <= k <= a ==> k * m <= n
  {
    var m := n / a;
    assert n == a * m + n % a && 0 <= n % a < a;
    assert m >= 1 by {
      if m <= 0 {
        Monotone(a, m, 0);
      }
    }
    forall k | 1 <= k <= a ensures k * m <= n {
      Monotone(m, k, a);
    }
  }

  /**
    With no limit of its own and no catalysts, a recipe's limit is the greatest that keeps every
    line within a stack.
   */
  lemma DefaultIsGreatest(r: Recipe)
    requires WellFormed(r) && BatchLimit(r).Some? && r.catalysts == [] && r.maxRepeats.None?
    ensures var m := BatchLimit(r).value;
      && 1 <= m <= STACK_SIZE && LinesFit(r, m)
      && (m == STACK_SIZE || !LinesFit(r, m + 1))
  {
    LargestIsALine(r.results, 1);
    LargestIsALine(r.ingredients, Largest(r.results, 1));
    QuotientIsGreatest(MaxIngs(r), STACK_SIZE);
    var m := BatchLimit(r).value;
    hide Largest;
    forall i | 0 <= i < |r.results| ensures r.results[i].amount * m <= STACK_SIZE {
      assert 1 <= r.results[i].amount <= MaxIngs(r);
    }
    forall i | 0 <= i < |r.ingredients| ensures r.ingredients[i].amount * m <= STACK_SIZE {
      assert 1 <= r.ingredients[i].amount <= MaxIngs(r);
    }
  }

  /**
    There is no limit exactly for a recipe with a result or ingredient line above a stack; a recipe
    with catalysts is made once at a time, else its own limit holds, as it is, else the greatest
    that keeps every line within a stack.
   */
  ghost predicate IsLimit(r: Recipe, limit: Option<int>) {
    && (limit.None? <==>
        || (exists i :: 0 <= i < |r.results| && r.results[i].amount > STACK_SIZE)
        || exists i :: 0 <= i < |r.ingredients| && r.ingredients[i].amount > STACK_SIZE)
    && (limit.Some? && r.catalysts != [] ==> limit.value == 1)
    && (limit.Some? && r.catalysts == [] && r.maxRepeats.Some? ==> limit.value == r.maxRepeats.value)
    && (limit.Some? && r.catalysts == [] && r.maxRepeats.None? ==>
          && 1 <= limit.value <= STACK_SIZE && LinesFit(r, limit.value)
          && forall m :: limit.value < m <= STACK_SIZE ==> !LinesFit(r, m))
  }

  lemma LimitMeans(r: Recipe)
    requires WellFormed(r)
    ensures IsLimit(r, BatchLimit(r))
  {
    LargestIsALine(r.results, 1);
    LargestIsALine(r.ingredients, Largest(r.results, 1));
    if BatchLimit(r).Some? && r.catalysts == [] && r.maxRepeats.None? {
      DefaultIsGreatest(r);
      hide MaxIngs, BatchLimit;
      forall m | BatchLimit(r).value < m <= STACK_SIZE ensures !LinesFit(r, m) {
        if LinesFit(r, m) {
          FitsFewer(r, BatchLimit(r).value + 1, m);
        }
      }
    }
    hide Largest;
  }

  lemma FitsFewer(r: Recipe, n: int, m: int)
    requires WellFormed(r) && n <= m && LinesFit(r, m)
    ensures LinesFit(r, n)
  {
    forall i | 0 <= i < |r.results| ensures r.results[i].amount * n <= STACK_SIZE {
      Monotone(r.results[i].amount, n, m);
    }
    forall i | 0 <= i < |r.ingredients| ensures r.ingredients[i].amount * n <= STACK_SIZE {
      Monotone(r.ingredients[i].amount, n, m);
    }
  }

  // ---------------------------------------------------------------- the slots of the buffer

  const MARKS := 20

  /** The buffer slot of an ingredient line: the one it names, or its place in the list. */
  function SlotOf(items: seq<RecipeItem>, i: nat): int
    requires i < |items|
  {
    if items[i].slot.Some? then items[i].slot.value else i + 1
  }

  /** Each ingredient's slot has a mark; for another the worker panics. */
  predicate MarksFit(r: Recipe) {
    forall i :: 0 <= i < |r.ingredients| ==> 0 <= SlotOf(r.ingredients, i) < MARKS
  }

  /** The repeats that a worker takes out at once, or none of a recipe that it cannot work on. */
  function Portions(r: Recipe): Option<int> {
    if MarksFit(r) then BatchLimit(r) else None
  }

  /** What the storage is asked to put into a slot of the buffer. */
  datatype Export = Export(uid: Uid, slot: int, amount: int)

  predicate ExportsLine(e: Export, item: RecipeItem, repeats: int) {
    e.uid == item.uid && e.amount == item.amount * repeats
  }

  /** A slot that an ingredient or one of the first catalysts goes to. */
  predicate Filled(exports: seq<Export>, n: int, slot: int) {
    exists i :: 0 <= i < n && i < |exports| && exports[i].slot == slot
  }

  /** Ingredients go to their slots, and each catalyst to the first slot with a mark that nothing before it went to. */
  ghost predicate FillsBuffer(r: Recipe, repeats: int, exports: seq<Export>) {
    var n := |r.ingredients|;
    && |exports| == n + |r.catalysts|
    && (forall i :: 0 <= i < n ==>
        ExportsLine(exports[i], r.ingredients[i], repeats) && exports[i].slot == SlotOf(r.ingredients, i))
    && forall k :: n <= k < |exports| ==> ExportsLine(exports[k], r.catalysts[k - n], repeats) && FirstFree(exports, k)
  }

  predicate FirstFree(exports: seq<Export>, k: int)
    requires 0 <= k < |exports|
  {
    && 1 <= exports[k].slot <= MARKS
    && (exports[k].slot < MARKS ==> !Filled(exports, k, exports[k].slot))
    && forall slot :: 1 <= slot < exports[k].slot ==> Filled(exports, k, slot)
  }

  lemma FilledGrows(exports: seq<Export>, e: Export, n: int, slot: int)
    requires n <= |exports|
    ensures Filled(exports + [e], n, slot) <==> Filled(exports, n, slot)
    ensures Filled(exports + [e], |exports| + 1, slot) <==> Filled(exports, |exports|, slot) || e.slot == slot
  {
    var exports' := exports + [e];
    assert exports'[|exports|] == e && forall i :: 0 <= i < |exports| ==> exports'[i] == exports[i];
  }

  lemma StaysFirstFree(exports: seq<Export>, e: Export, k: nat)
    requires k < |exports| && FirstFree(exports, k)
    ensures FirstFree(exports + [e], k)
  {
    hide Filled;
    FilledGrows(exports, e, k, exports[k].slot);
    forall slot | 1 <= slot < exports[k].slot ensures Filled(exports + [e], k, slot) {
      FilledGrows(exports, e, k, slot);
    }
  }

  lemma LastFirstFree(exports: seq<Export>, e: Export)
    requires 1 <= e.slot <= MARKS && (e.slot < MARKS ==> !Filled(exports, |exports|, e.slot))
    requires forall slot :: 1 <= slot < e.slot ==> Filled(exports, |exports|, slot)
    ensures FirstFree(exports + [e], |exports|)
  {
    hide Filled;
    FilledGrows(exports, e, |exports|, e.slot);
    forall slot | 1 <= slot < e.slot ensures Filled(exports + [e], |exports|, slot) {
      FilledGrows(exports, e, |exports|, slot);
    }
  }

  lemma NothingFilled()
    ensures forall slot :: !Filled([], 0, slot)
  {
  }

  lemma OneMoreFilled(exports: seq<Export>, e: Export)
    ensures forall slot ::
      Filled(exports + [e], |exports + [e]|, slot) <==> Filled(exports, |exports|, slot) || e.slot == slot
  {
    assert |exports + [e]| == |exports| + 1;
    forall slot
      ensures Filled(exports + [e], |exports + [e]|, slot) <==> Filled(exports, |exports|, slot) || e.slot == slot
    {
      FilledGrows(exports, e, |exports|, slot);
    }
  }

  /** The slots that the first lines go to are no more than these lines. */
  lemma {:induction false} FilledSlots(exports: seq<Export>, k: nat, slots: set<int>)
    requires k <= |exports| && forall slot :: slot in slots ==> Filled(exports, k, slot)
    ensures |slots| <= k
    decreases k
  {
    if k == 0 {
      forall slot ensures slot !in slots {
        assert !Filled(exports, 0, slot);
      }
      assert slots == {};
    } else {
      var rest := slots - {exports[k - 1].slot};
      forall slot | slot in rest ensures Filled(exports, k - 1, slot) {
        assert Filled(exports, k, slot);
      }
      FilledSlots(exports, k - 1, rest);
    }
  }

  function SlotsTo(n: nat): (slots: set<int>)
    ensures |slots| == n && forall slot :: slot in slots <==> 1 <= slot <= n
  {
    if n == 0 then {} else SlotsTo(n - 1) + {n}
  }

  lemma FreeHasMark(exports: seq<Export>, k: nat)
    requires k < |exports| && k < MARKS - 1 && FirstFree(exports, k)
    ensures exports[k].slot < MARKS && !Filled(exports, k, exports[k].slot)
  {
    hide Filled;
    if exports[k].slot == MARKS {
      FilledSlots(exports, k, SlotsTo(MARKS - 1));
    }
  }

  /** As long as there are fewer lines than marks, a catalyst gets a slot that no other line goes to. */
  lemma CatalystsGetTheirOwnSlots(r: Recipe, repeats: int, exports: seq<Export>, k: nat, i: nat)
    requires FillsBuffer(r, repeats, exports) && |exports| < MARKS && |r.ingredients| <= k < |exports|
    requires i < |exports| && i != k
    ensures 1 <= exports[k].slot < MARKS && exports[i].slot != exports[k].slot
  {
    assert FirstFree(exports, k);
    FreeHasMark(exports, k);
    if i > k {
      assert FirstFree(exports, i);
      FreeHasMark(exports, i);
    }
  }

  /** A catalyst goes to no slot above the first free one: an earlier line went to each slot below. */
  lemma SlotsBelowAreTaken(r: Recipe, repeats: int, exports: seq<Export>, k: nat, slot: int)
    requires FillsBuffer(r, repeats, exports) && |r.ingredients| <= k < |exports| && 1 <= slot < exports[k].slot
    ensures exists j :: 0 <= j < k && exports[j].slot == slot
  {
    assert FirstFree(exports, k) && Filled(exports, k, slot);
  }

  /**
    A named slot outside the 20 marks, or a twentieth ingredient without one, and nothing else
    makes the worker panic.
   */
  lemma SlotsThatPanic(r: Recipe)
    ensures MarksFit(r) <==> forall i :: 0 <= i < |r.ingredients| ==>
      if r.ingredients[i].slot.Some? then 0 <= r.ingredients[i].slot.value < 20 else i < 19
    ensures !MarksFit(r) ==> Portions(r).None?
  {
    if MarksFit(r) {
      forall i | 0 <= i < |r.ingredients|
        ensures if r.ingredients[i].slot.Some? then 0 <= r.ingredients[i].slot.value < 20 else i < 19
      {
        assert 0 <= SlotOf(r.ingredients, i) < MARKS;
      }
    }
  }

  /** What is asked for of an item over all exports. */
  function ExportedOf(exports: seq<Export>, u: Uid): int {
    if exports == [] then 0
    else
      var last := exports[|exports| - 1];
      ExportedOf(exports[..|exports| - 1], u) + if last.uid == u then last.amount else 0
  }

  lemma {:induction false} LinesTotal(exports: seq<Export>, items: seq<RecipeItem>, repeats: int, u: Uid)
    requires |exports| == |items| && forall i :: 0 <= i < |items| ==> ExportsLine(exports[i], items[i], repeats)
    ensures ExportedOf(exports, u) == AmountOf(items, u) * repeats
  {
    if items != [] {
      var n := |items| - 1;
      LinesTotal(exports[..n], items[..n], repeats, u);
      assert ExportsLine(exports[n], items[n], repeats);
      var before, last := AmountOf(items[..n], u), items[n].amount;
      assert (before + last) * repeats == before * repeats + last * repeats;
    }
  }

  lemma {:induction false} ExportsAdd(a: seq<Export>, b: seq<Export>, u: Uid)
    ensures ExportedOf(a + b, u) == ExportedOf(a, u) + ExportedOf(b, u)
  {
    if b == [] {
      assert a + b == a;
    } else {
      var n := |b| - 1;
      ExportsAdd(a, b[..n], u);
      assert (a + b)[..|a| + n] == a + b[..n];
    }
  }

  lemma Joined(a: int, b: int, repeats: int)
    ensures (a + b) * repeats == a * repeats + b * repeats
  {
  }

  lemma FirstLines(r: Recipe, repeats: int, exports: seq<Export>)
    requires FillsBuffer(r, repeats, exports)
    ensures var n := |r.ingredients|;
      && |exports| == n + |r.catalysts|
      && (forall i :: 0 <= i < n ==> ExportsLine(exports[..n][i], r.ingredients[i], repeats))
      && forall j :: 0 <= j < |r.catalysts| ==> ExportsLine(exports[n..][j], r.catalysts[j], repeats)
  {
    hide ExportsLine, FirstFree;
    var n := |r.ingredients|;
    forall j | 0 <= j < |r.catalysts| ensures ExportsLine(exports[n..][j], r.catalysts[j], repeats) {
      assert exports[n..][j] == exports[n + j];
    }
  }

  /** The exports ask for the inputs of the repeats, to the last item. */
  lemma ExportTotals(r: Recipe, repeats: int, exports: seq<Export>, u: Uid)
    requires FillsBuffer(r, repeats, exports)
    ensures ExportedOf(exports, u) == (AmountOf(r.ingredients, u) + AmountOf(r.catalysts, u)) * repeats
  {
    FirstLines(r, repeats, exports);
    hide *;
    var n := |r.ingredients|;
    assert exports == exports[..n] + exports[n..];
    ExportsAdd(exports[..n], exports[n..], u);
    LinesTotal(exports[..n], r.ingredients, repeats, u);
    LinesTotal(exports[n..], r.catalysts, repeats, u);
    Joined(AmountOf(r.ingredients, u), AmountOf(r.catalysts, u), repeats);
  }

  // ---------------------------------------------------------------- rounds

  function Committing(t: Tables, id: int, r: Recipe, m: int): Tables
    requires id in t.crafts
  {
    AfterCommit(t, id, r, Min(t.crafts[id].repeats, m))
  }

  /** The tables after `k` rounds of committing a batch and completing it. */
  function Rounds(t: Tables, id: int, r: Recipe, m: int, k: nat): Tables {
    if k == 0 then t
    else
      var before := Rounds(t, id, r, m, k - 1);
      if id in before.crafts then AfterComplete(Committing(before, id, r, m), id) else before
  }

  ghost predicate Waiting(t: Tables, id: int, repeats: int) {
    CanCommit(t, id) && t.crafts[id].repeats == repeats
  }

  lemma OneRound(t: Tables, id: int, r: Recipe, m: int, repeats: int)
    requires Waiting(t, id, repeats) && repeats >= 1
    ensures var n := Min(repeats, m);
      var t' := AfterComplete(Committing(t, id, r, m), id);
      && t'.reserve == Release(t.reserve, r, n)
      && t'.crafts - {id} == t.crafts - {id}
      && (if n == repeats then id !in t'.crafts else Waiting(t', id, repeats - n))
  {
  }

  lemma ReleasesAdd(reserve: map<Uid, int>, r: Recipe, n: int, m: int)
    ensures Release(Release(reserve, r, n), r, m) == Release(reserve, r, n + m)
    ensures Release(reserve, r, 0) == reserve
  {
    forall u ensures Need(r, u, n + m) == Need(r, u, n) + Need(r, u, m) {
      assert AmountOf(r.ingredients, u) * (n + m) == AmountOf(r.ingredients, u) * n + AmountOf(r.ingredients, u) * m;
    }
  }

  /** After `k` rounds `k` full batches, or all repeats, are crafted and their ingredients released. */
  lemma {:induction false} RoundsProgress(t: Tables, id: int, r: Recipe, m: int, k: nat)
    requires m >= 1 && CanCommit(t, id) && t.crafts[id].repeats >= 1
    ensures var repeats, t' := t.crafts[id].repeats, Rounds(t, id, r, m, k);
      && t'.reserve == Release(t.reserve, r, Min(k * m, repeats))
      && t'.crafts - {id} == t.crafts - {id}
      && (if k * m >= repeats then id !in t'.crafts else Waiting(t', id, repeats - k * m))
    decreases k
  {
    var repeats := t.crafts[id].repeats;
    if k == 0 {
      ReleasesAdd(t.reserve, r, 0, 0);
    } else {
      RoundsProgress(t, id, r, m, k - 1);
      var before := Rounds(t, id, r, m, k - 1);
      assert k * m == (k - 1) * m + m;
      if (k - 1) * m < repeats {
        OneRound(before, id, r, m, repeats - (k - 1) * m);
        ReleasesAdd(t.reserve, r, (k - 1) * m, Min(repeats - (k - 1) * m, m));
      }
      hide Release, AfterComplete, Committing, CanCommit;
    }
  }

  /**
    A craft of R repeats is finished and deleted after exactly ceil(R/m) rounds, not one earlier,
    and has then released the ingredients of exactly R repeats.
   */
  lemma BatchRun(t: Tables, id: int, r: Recipe, m: int, k: nat)
    requires m >= 1 && CanCommit(t, id) && t.crafts[id].repeats >= 1
    ensures id in Rounds(t, id, r, m, k).crafts <==> k < Ceil(t.crafts[id].repeats, m)
    ensures k >= Ceil(t.crafts[id].repeats, m) ==>
      Rounds(t, id, r, m, k).reserve == Release(t.reserve, r, t.crafts[id].repeats)
  {
    RoundsProgress(t, id, r, m, k);
    CountsRounds(t.crafts[id].repeats, m, k);
    hide Rounds, Release, Ceil;
  }

  lemma CountsRounds(repeats: int, m: int, k: nat)
    requires m >= 1 && repeats >= 1
    ensures k * m < repeats <==> k < Ceil(repeats, m)
  {
    CeilExactness(repeats, m);
    hide Ceil;
    var c := Ceil(repeats, m);
    if k < c {
      Monotone(m, k, c - 1);
    } else {
      Monotone(m, c, k);
    }
  }

  lemma Monotone(a: int, n: int, m: int)
    requires a >= 0 && n <= m
    ensures a * n <= a * m
  {
    assert a * m - a * n == a * (m - n);
  }

  lemma {:induction false} RoundsStuck(t: Tables, id: int, r: Recipe, m: int, k: nat)
    requires m <= 0 && CanCommit(t, id) && t.crafts[id].repeats >= 1
    ensures var t' := Rounds(t, id, r, m, k); CanCommit(t', id) && t'.crafts[id].repeats >= t.crafts[id].repeats
    decreases k
  {
    if k > 0 {
      RoundsStuck(t, id, r, m, k - 1);
      var before := Rounds(t, id, r, m, k - 1);
      OneRound(before, id, r, m, before.crafts[id].repeats);
    }
  }

  /** A recipe's own repeat limit is not checked: the craft ever finishes exactly if it is positive. */
  lemma FinishesIff(t: Tables, id: int, r: Recipe, m: int)
    requires CanCommit(t, id) && t.crafts[id].repeats >= 1
    ensures (exists k: nat :: id !in Rounds(t, id, r, m, k).crafts) <==> m >= 1
  {
    if m >= 1 {
      var repeats: nat := t.crafts[id].repeats;
      RoundsProgress(t, id, r, m, repeats);
      assert repeats * m >= repeats;
      assert id !in Rounds(t, id, r, m, repeats).crafts;
    } else {
      forall k: nat ensures id in Rounds(t, id, r, m, k).crafts {
        RoundsStuck(t, id, r, m, k);
      }
    }
  }

  // ---------------------------------------------------------------- exports

  lemma {:induction false} LargestBounds(items: seq<RecipeItem>, least: int)
    ensures Largest(items, least) >= least
    ensures forall i :: 0 <= i < |items| ==> items[i].amount <= Largest(items, least)
  {
    if items != [] {
      LargestBounds(items[..|items| - 1], least);
    }
  }

  /** What a round of a craft with `repeats` left asks the storage for on one line. */
  function Asked(item: RecipeItem, repeats: int, m: int): int {
    item.amount * Min(repeats, m)
  }

  lemma AskedBounds(item: RecipeItem, repeats: int, m: int)
    requires item.amount > 0
    ensures Asked(item, repeats, m) <= item.amount * m && Asked(item, m, m) == item.amount * m
  {
    Monotone(item.amount, Min(repeats, m), m);
  }

  /** However many repeats are left, no ingredient line asks for more than a stack. */
  ghost predicate ExportsFit(r: Recipe, m: int) {
    forall repeats, item :: repeats >= 1 && item in r.ingredients ==> Asked(item, repeats, m) <= STACK_SIZE
  }

  lemma PositiveItem(items: seq<RecipeItem>, item: RecipeItem)
    requires PositiveAmounts(items) && item in items
    ensures item.amount > 0
  {
  }

  /** The exports fit into stacks exactly if a full batch does. */
  lemma FullBatchFitsIff(r: Recipe, m: int)
    requires PositiveAmounts(r.ingredients) && m >= 1
    ensures ExportsFit(r, m) <==> forall item :: item in r.ingredients ==> item.amount * m <= STACK_SIZE
  {
    hide Asked;
    if ExportsFit(r, m) {
      forall item | item in r.ingredients ensures item.amount * m <= STACK_SIZE {
        PositiveItem(r.ingredients, item);
        AskedBounds(item, m, m);
        assert Asked(item, m, m) <= STACK_SIZE;
      }
    } else {
      var repeats, item :| repeats >= 1 && item in r.ingredients && Asked(item, repeats, m) > STACK_SIZE;
      PositiveItem(r.ingredients, item);
      AskedBounds(item, repeats, m);
    }
  }

  /** Without a limit of its own, or with catalysts, a recipe's exports always fit. */
  lemma DefaultBatchFits(r: Recipe)
    requires BatchLimit(r).Some? && (r.maxRepeats.None? || r.catalysts != []) && PositiveAmounts(r.ingredients)
    ensures BatchLimit(r).value >= 1 && ExportsFit(r, BatchLimit(r).value)
  {
    LargestBounds(r.ingredients, Largest(r.results, 1));
    var m := BatchLimit(r).value;
    DefaultLimit(r);
    forall item | item in r.ingredients ensures item.amount * m <= STACK_SIZE {
      Monotone(m, item.amount, MaxIngs(r));
    }
    hide MaxIngs, BatchLimit;
    FullBatchFitsIff(r, m);
  }

  lemma DefaultLimit(r: Recipe)
    requires BatchLimit(r).Some? && (r.maxRepeats.None? || r.catalysts != [])
    ensures BatchLimit(r).value >= 1 && BatchLimit(r).value * MaxIngs(r) <= STACK_SIZE
  {
    hide Largest;
  }

  // ---------------------------------------------------------------- the worker

  /** `k` rounds are over, and of a further one at most the commit. */
  ghost predicate OnPath(t0: Tables, t: Tables, id: int, r: Recipe, m: int, k: nat) {
    var before := Rounds(t0, id, r, m, k);
    t == before || (id in before.crafts && t == Committing(before, id, r, m))
  }

  lemma PathRow(t0: Tables, t: Tables, id: int, r: Recipe, m: int, k: nat)
    requires OnPath(t0, t, id, r, m, k) && CanCommit(t0, id) && t0.crafts[id].repeats >= 1 && id in t.crafts
    ensures id in Rounds(t0, id, r, m, k).crafts
    ensures if t.crafts[id].status.Pending? then t == Rounds(t0, id, r, m, k) && CanCommit(t, id)
      && t.crafts[id].repeats >= 1
            else t == Committing(Rounds(t0, id, r, m, k), id, r, m)
  {
    if m >= 1 {
      RoundsProgress(t0, id, r, m, k);
    } else {
      RoundsStuck(t0, id, r, m, k);
    }
    hide Rounds, Release;
  }

  /**
    Where the worker stands after `k` rounds: without a limit where it began, else on the path, and
    done after all rounds.
   */
  ghost predicate AtRound(t0: Tables, t: Tables, id: int, r: Recipe, k: nat)
    requires id in t0.crafts
  {
    match Portions(r)
    case None => t == t0 && k == 0
    case Some(m) =>
      && OnPath(t0, t, id, r, m, k)
      && (id in t.crafts && m >= 1 ==> k < Ceil(t0.crafts[id].repeats, m))
      && (id !in t.crafts ==>
          m >= 1 && k == Ceil(t0.crafts[id].repeats, m) && t.reserve == Release(t0.reserve, r, t0.crafts[id].repeats))
  }

  lemma AtStart(t0: Tables, id: int, r: Recipe)
    requires CanCommit(t0, id) && t0.crafts[id].repeats >= 1
    ensures AtRound(t0, t0, id, r, 0)
  {
    hide Release, Ceil;
    if Portions(r).Some? && Portions(r).value >= 1 {
      BatchRun(t0, id, r, Portions(r).value, 0);
    }
  }

  /** A finished round leads on, to the end exactly after the last. */
  lemma RoundLeadsOn(t0: Tables, t: Tables, id: int, r: Recipe, k: nat)
    requires CanCommit(t0, id) && t0.crafts[id].repeats >= 1 && Portions(r).Some?
    requires AtRound(t0, t0, id, r, 0) && t == Rounds(t0, id, r, Portions(r).value, k + 1)
    requires id in Rounds(t0, id, r, Portions(r).value, k).crafts
    ensures AtRound(t0, t, id, r, k + 1)
  {
    var m := Portions(r).value;
    hide Release, Ceil, Rounds, Portions;
    if m >= 1 {
      BatchRun(t0, id, r, m, k);
      BatchRun(t0, id, r, m, k + 1);
    } else {
      RoundsStuck(t0, id, r, m, k + 1);
    }
  }

  class CraftWorker {
    const db: Database

    constructor (database: Database)
      ensures db == database
    {
      db := database;
    }

    /** The loops over results and ingredients, the recipe's own limit, and the cap for catalysts. */
    method BatchSize(r: Recipe) returns (limit: Option<int>)
      ensures limit == BatchLimit(r)
      ensures WellFormed(r) ==> IsLimit(r, limit)
    {
      if WellFormed(r) {
        LimitMeans(r);
      }
      hide IsLimit;
      var maxIngs := 1;
      for i := 0 to |r.results|
        invariant maxIngs == Largest(r.results[..i], 1)
      {
        assert r.results[..i + 1][..i] == r.results[..i];
        if r.results[i].amount > maxIngs {
          maxIngs := r.results[i].amount;
        }
      }
      assert r.results[..|r.results|] == r.results;
      for i := 0 to |r.ingredients|
        invariant maxIngs == Largest(r.ingredients[..i], Largest(r.results, 1))
      {
        assert r.ingredients[..i + 1][..i] == r.ingredients[..i];
        if r.ingredients[i].amount > maxIngs {
          maxIngs := r.ingredients[i].amount;
        }
      }
      assert r.ingredients[..|r.ingredients|] == r.ingredients;
      var maxRepeats := STACK_SIZE / maxIngs;
      if maxRepeats == 0 {
        return None;
      }
      if r.maxRepeats.Some? {
        maxRepeats := r.maxRepeats.value;
      }
      if r.catalysts != [] {
        maxRepeats := 1;
      }
      return Some(maxRepeats);
    }

    /** The loops that mark the slots of the ingredients and look for free ones for the catalysts; none is a panic. */
    method TransferItems(r: Recipe, repeats: int) returns (exports: Option<seq<Export>>)
      ensures exports.Some? <==> MarksFit(r)
      ensures exports.Some? <==> forall i :: 0 <= i < |r.ingredients| ==>
        if r.ingredients[i].slot.Some? then 0 <= r.ingredients[i].slot.value < 20 else i < 19
      ensures exports.Some? ==> FillsBuffer(r, repeats, exports.value)
      ensures exports.Some? ==> |exports.value| == |r.ingredients| + |r.catalysts| && forall i ::
        0 <= i < |r.ingredients| ==>
          exports.value[i].slot == if r.ingredients[i].slot.Some? then r.ingredients[i].slot.value else i + 1
    {
      var usedSlots := new bool[MARKS](_ => false);
      var sent: seq<Export> := [];
      hide Filled;
      NothingFilled();
      for i := 0 to |r.ingredients|
        invariant |sent| == i && forall s :: 0 <= s < MARKS ==> (usedSlots[s] <==> Filled(sent, |sent|, s))
        invariant forall j :: 0 <= j < i ==> 0 <= SlotOf(r.ingredients, j) < MARKS
        invariant forall j :: 0 <= j < i ==>
          ExportsLine(sent[j], r.ingredients[j], repeats) && sent[j].slot == SlotOf(r.ingredients, j)
      {
        var slot := SlotOf(r.ingredients, i);
        if slot < 0 || slot >= MARKS {
          return None;
        }
        var e := Export(r.ingredients[i].uid, slot, r.ingredients[i].amount * repeats);
        OneMoreFilled(sent, e);
        sent := sent + [e];
        usedSlots[slot] := true;
      }
      ghost var n := |r.ingredients|;
      var fromSlot := 1;
      for j := 0 to |r.catalysts|
        invariant 1 <= fromSlot <= MARKS && forall s :: 1 <= s < fromSlot ==> usedSlots[s]
        invariant |sent| == n + j && forall s :: 0 <= s < MARKS ==> (usedSlots[s] <==> Filled(sent, |sent|, s))
        invariant forall i :: 0 <= i < n ==>
          ExportsLine(sent[i], r.ingredients[i], repeats) && sent[i].slot == SlotOf(r.ingredients, i)
        invariant forall k :: n <= k < n + j ==>
          ExportsLine(sent[k], r.catalysts[k - n], repeats) && FirstFree(sent, k)
      {
        while fromSlot < MARKS && usedSlots[fromSlot]
          invariant 1 <= fromSlot <= MARKS && forall s :: 1 <= s < fromSlot ==> usedSlots[s]
        {
          fromSlot := fromSlot + 1;
        }
        var e := Export(r.catalysts[j].uid, fromSlot, r.catalysts[j].amount * repeats);
        OneMoreFilled(sent, e);
        forall k | n <= k < n + j ensures FirstFree(sent + [e], k) {
          StaysFirstFree(sent, e, k);
        }
        LastFirstFree(sent, e);
        if fromSlot < MARKS {
          usedSlots[fromSlot] := true;
        }
        sent := sent + [e];
      }
      exports := Some(sent);
    }

    /**
      One batch: export, commit, craft, complete. It may stop before the commit or before the
      completion; `sent` is what the storage was asked for before the commit.
     */
    method Craft(id: int, r: Recipe) returns (done: bool, sent: Option<seq<Export>>)
      requires id in db.tables.crafts
      modifies db
      ensures Portions(r).None? || !CanCommit(old(db.tables), id) ==> !done && db.tables == old(db.tables)
      ensures Portions(r).Some? && CanCommit(old(db.tables), id) ==>
        var m := Portions(r).value;
        if done then db.tables == AfterComplete(Committing(old(db.tables), id, r, m), id)
        else db.tables == old(db.tables) || db.tables == Committing(old(db.tables), id, r, m)
      ensures db.tables != old(db.tables) ==>
        && sent.Some? && Portions(r).Some?
        && FillsBuffer(r, Min(old(db.tables).crafts[id].repeats, Portions(r).value), sent.value)
    {
      hide FillsBuffer;
      sent := None;
      var limit := BatchSize(r);
      if limit.None? {
        return false, None;
      }
      var repeats := Min(db.tables.crafts[id].repeats, limit.value);
      sent := TransferItems(r, repeats);
      if sent.None? {
        return false, None;
      }
      var exported: bool := *;
      if !exported {
        return false, None;
      }
      var committed := db.CommitCraft(id, r, repeats);
      if !committed {
        return false, sent;
      }
      done := *;
      if done {
        var completed := db.CompleteCraft(id);
      }
    }

    /** Takes up a craft the worker had: a pending one starts a batch, a committed one may be found done. */
    method Restore(id: int, r: Recipe) returns (done: bool)
      requires id in db.tables.crafts
      modifies db
      ensures if old(db.tables).crafts[id].status.Pending? then
          if Portions(r).None? || !CanCommit(old(db.tables), id) then !done && db.tables == old(db.tables)
          else if done then db.tables == AfterComplete(Committing(old(db.tables), id, r, Portions(r).value), id)
          else db.tables == old(db.tables) || db.tables == Committing(old(db.tables), id, r, Portions(r).value)
        else db.tables == if done then AfterComplete(old(db.tables), id) else old(db.tables)
    {
      if db.tables.crafts[id].status.Pending? {
        var sent;
        done, sent := Craft(id, r);
        return;
      }
      done := *;
      if done {
        var completed := db.CompleteCraft(id);
      }
    }

    /**
      However often the worker is interrupted and takes the craft up again, the craft goes through
      the same rounds; it is gone only after exactly all of them, and only if the limit is positive.
     */
    method Work(id: int, r: Recipe, attempts: nat) returns (ghost k: nat)
      requires CanCommit(db.tables, id) && db.tables.crafts[id].repeats >= 1
      modifies db
      ensures Portions(r).None? ==> db.tables == old(db.tables)
      ensures Portions(r).Some? ==> OnPath(old(db.tables), db.tables, id, r, Portions(r).value, k)
      ensures var repeats := old(db.tables).crafts[id].repeats;
        id !in db.tables.crafts ==>
          && Portions(r).Some? && Portions(r).value >= 1 && k == Ceil(repeats, Portions(r).value)
          && db.tables.reserve == Release(old(db.tables).reserve, r, repeats)
    {
      ghost var t0 := db.tables;
      k := 0;
      AtStart(t0, id, r);
      hide Portions, Ceil, Release, CanCommit;
      for i := 0 to attempts
        invariant AtRound(t0, db.tables, id, r, k)
      {
        if id in db.tables.crafts {
          ghost var t := db.tables;
          if Portions(r).Some? {
            PathRow(t0, t, id, r, Portions(r).value, k);
          }
          var done := Restore(id, r);
          if done {
            RoundLeadsOn(t0, db.tables, id, r, k);
            k := k + 1;
          }
        }
      }
    }
  }
}
