/** The plan, craft and reserve tables, and what each transaction makes of them (internal/dao). */
module Ledger {
  import opened Recipes
  import opened Sums

  datatype ItemKey = ItemKey(plan: int, uid: Uid)
  datatype StepKey = StepKey(plan: int, recipe: int)
  datatype Row = Row(amount: int, required: int)
  datatype Status = Pending | Committed
  datatype Craft = Craft(plan: int, recipe: int, worker: Option<string>, status: Status, repeats: int, committed: int)
  datatype Wait = Wait(worker: string, craft: int)

  datatype Tables = Tables(
    plans: set<int>,
    items: map<ItemKey, Row>,
    steps: map<StepKey, int>,
    crafts: map<int, Craft>,
    reserve: map<Uid, int>,
    waits: set<Wait>)

  /** The recipes by id; they stay fixed while plans and crafts refer to them. */
  type Book = map<int, Recipe>

  const EmptyTables := Tables({}, map[], map[], map[], map[], {})

  function RecipeOf(book: Book, id: int): Recipe {
    if id in book then book[id] else Recipe(id, None, [], [], [])
  }

  /** The amount of `u` that `n` repeats of the recipe take in. */
  function Need(r: Recipe, u: Uid, n: int): int {
    AmountOf(r.ingredients, u) * n
  }

  /** The repeats of a craft whose ingredients are still reserved. */
  function Open(c: Craft): int {
    c.repeats - c.committed
  }

  ghost predicate GoodBook(book: Book) {
    forall id :: id in book ==>
      PositiveAmounts(book[id].ingredients) && PositiveAmounts(book[id].catalysts) && PositiveAmounts(book[id].results)
  }

  lemma NeedBounds(book: Book, id: int, u: Uid, n: int, m: int)
    requires GoodBook(book) && 0 <= n <= m
    ensures 0 <= Need(RecipeOf(book, id), u, n) <= Need(RecipeOf(book, id), u, m)
    ensures Need(RecipeOf(book, id), u, m) - Need(RecipeOf(book, id), u, n) == Need(RecipeOf(book, id), u, m - n)
  {
    var a := AmountOf(RecipeOf(book, id).ingredients, u);
    assert a >= 0 by { PositiveWhenMentioned(RecipeOf(book, id).ingredients, u); }
    assert a * n >= 0 && a * (m - n) >= 0;
    assert a * m == a * n + a * (m - n);
  }

  // ---------------------------------------------------------------- the ledger

  ghost function PlanShare(t: Tables, u: Uid): map<ItemKey, int> {
    map k | k in t.items && k.uid == u :: t.items[k].amount
  }

  ghost function CraftShare(book: Book, t: Tables, u: Uid): map<int, int> {
    map c | c in t.crafts :: Need(RecipeOf(book, t.crafts[c].recipe), u, Open(t.crafts[c]))
  }

  ghost function Claimed(book: Book, t: Tables, u: Uid): int {
    Sum(PlanShare(t, u)) + Sum(CraftShare(book, t, u))
  }

  /** Every reserve is exactly what plans hold plus what open craft repeats still take in. */
  ghost predicate Balanced(book: Book, t: Tables) {
    forall u :: Get(t.reserve, u) == Claimed(book, t, u)
  }

  ghost predicate GoodRow(r: Row) {
    0 <= r.amount <= r.required
  }

  ghost predicate GoodCraft(book: Book, c: Craft) {
    && c.recipe in book && 1 <= c.repeats && 0 <= c.committed <= c.repeats
    && (c.status.Pending? <==> c.committed == 0)
  }

  ghost predicate GoodTables(book: Book, t: Tables) {
    && (forall k :: k in t.items ==> GoodRow(t.items[k]) && k.plan in t.plans)
    && (forall k :: k in t.steps ==> t.steps[k] >= 0 && k.plan in t.plans)
    && (forall c :: c in t.crafts ==> GoodCraft(book, t.crafts[c]))
    && (forall w :: w in t.waits ==> w.craft in t.crafts && t.crafts[w.craft].status.Committed?)
  }

  ghost predicate Valid(book: Book, t: Tables) {
    GoodBook(book) && GoodTables(book, t) && Balanced(book, t)
  }

  lemma SharesNonNegative(book: Book, t: Tables, u: Uid)
    requires GoodBook(book) && GoodTables(book, t)
    ensures Sum(PlanShare(t, u)) >= 0 && Sum(CraftShare(book, t, u)) >= 0
    ensures forall c :: c in t.crafts ==>
      0 <= Need(RecipeOf(book, t.crafts[c].recipe), u, Open(t.crafts[c])) <= Sum(CraftShare(book, t, u))
    ensures forall k :: k in t.items && k.uid == u ==> t.items[k].amount <= Sum(PlanShare(t, u))
  {
    SumNonNegative(PlanShare(t, u));
    forall c | c in t.crafts ensures Need(RecipeOf(book, t.crafts[c].recipe), u, Open(t.crafts[c])) >= 0 {
      NeedBounds(book, t.crafts[c].recipe, u, 0, Open(t.crafts[c]));
    }
    SumNonNegative(CraftShare(book, t, u));
    forall c | c in t.crafts
      ensures 0 <= Need(RecipeOf(book, t.crafts[c].recipe), u, Open(t.crafts[c])) <= Sum(CraftShare(book, t, u))
    {
      assert CraftShare(book, t, u)[c] <= Sum(CraftShare(book, t, u));
    }
    forall k | k in t.items && k.uid == u ensures t.items[k].amount <= Sum(PlanShare(t, u)) {
      assert PlanShare(t, u)[k] <= Sum(PlanShare(t, u));
    }
  }

  lemma ReserveNeverNegative(book: Book, t: Tables, u: Uid)
    requires Valid(book, t)
    ensures Get(t.reserve, u) >= 0
  {
    SharesNonNegative(book, t, u);
  }

  // ---------------------------------------------------------------- the transactions

  /** Releasing touches only rows that exist. */
  function Release(reserve: map<Uid, int>, r: Recipe, n: int): map<Uid, int> {
    map u | u in reserve :: reserve[u] - Need(r, u, n)
  }

  function PlanRows(plan: int, items: map<Uid, Row>): (rows: map<ItemKey, Row>)
    ensures forall k :: k in rows <==> k.plan == plan && k.uid in items
    ensures forall k :: k in rows ==> rows[k] == items[k.uid]
  {
    var keys := set u | u in items :: ItemKey(plan, u);
    assert forall u :: u in items ==> ItemKey(plan, u) in keys;
    assert forall k: ItemKey :: k.plan == plan && k.uid in items ==> k == ItemKey(plan, k.uid);
    map k | k in keys :: items[k.uid]
  }

  function PlanSteps(plan: int, steps: map<int, int>): (rows: map<StepKey, int>)
    ensures forall k :: k in rows <==> k.plan == plan && k.recipe in steps
    ensures forall k :: k in rows ==> rows[k] == steps[k.recipe]
  {
    var keys := set r | r in steps :: StepKey(plan, r);
    assert forall r :: r in steps ==> StepKey(plan, r) in keys;
    assert forall k: StepKey :: k.plan == plan && k.recipe in steps ==> k == StepKey(plan, k.recipe);
    map k | k in keys :: steps[k.recipe]
  }

  function AfterInsertPlan(t: Tables, plan: int, items: map<Uid, Row>, steps: map<int, int>): Tables {
    t.(plans := t.plans + {plan},
       items := t.items + PlanRows(plan, items),
       reserve := map u | u in t.reserve.Keys + items.Keys ::
         Get(t.reserve, u) + if u in items then items[u].amount else 0,
       steps := t.steps + PlanSteps(plan, steps))
  }

  /** The step has the repeats left and the plan holds every ingredient for all of them. */
  ghost predicate CanInsertCraft(t: Tables, plan: int, r: Recipe, n: int) {
    && StepKey(plan, r.id) in t.steps && t.steps[StepKey(plan, r.id)] >= n
    && forall u :: Mentions(r.ingredients, u) ==>
        ItemKey(plan, u) in t.items && t.items[ItemKey(plan, u)].amount >= Need(r, u, n)
  }

  function Spend(items: map<ItemKey, Row>, plan: int, r: Recipe, n: int): map<ItemKey, Row> {
    map k | k in items ::
      if k.plan == plan then Row(items[k].amount - Need(r, k.uid, n), items[k].required - Need(r, k.uid, n))
        else items[k]
  }

  function AfterInsertCraft(t: Tables, id: int, plan: int, r: Recipe, n: int): Tables
    requires StepKey(plan, r.id) in t.steps
  {
    t.(crafts := t.crafts[id := Craft(plan, r.id, None, Pending, n, 0)],
       steps := t.steps[StepKey(plan, r.id) := t.steps[StepKey(plan, r.id)] - n],
       items := Spend(t.items, plan, r, n))
  }

  predicate CanCommit(t: Tables, id: int) {
    id in t.crafts && t.crafts[id].status.Pending? && t.crafts[id].committed == 0
  }

  function WithoutWaits(waits: set<Wait>, id: int): set<Wait> {
    set w | w in waits && w.craft != id
  }

  function AfterCommit(t: Tables, id: int, r: Recipe, n: int): Tables
    requires id in t.crafts
  {
    t.(crafts := t.crafts[id := t.crafts[id].(status := Committed, committed := n)],
       reserve := Release(t.reserve, r, n),
       waits := WithoutWaits(t.waits, id))
  }

  /** A row that is not committed matches nothing, reads back as zero repeats, and is deleted. */
  function AfterComplete(t: Tables, id: int): Tables
    requires id in t.crafts
  {
    var c := t.crafts[id];
    if c.status.Committed? && Open(c) != 0 then
      t.(crafts := t.crafts[id := c.(repeats := Open(c), committed := 0, status := Pending)])
    else
      t.(crafts := t.crafts - {id})
  }

  /** `read` is the craft object the caller holds; only its commit count is checked against the row. */
  predicate CanCancel(t: Tables, id: int, read: Craft) {
    id in t.crafts && t.crafts[id].committed == read.committed
  }

  function AfterCancel(t: Tables, id: int, read: Craft, r: Recipe): Tables {
    t.(crafts := t.crafts - {id},
       reserve := Release(t.reserve, r, Open(read)),
       waits := WithoutWaits(t.waits, id))
  }

  function AfterRemovePlan(t: Tables, plan: int): Tables {
    t.(plans := t.plans - {plan},
       steps := map k | k in t.steps && k.plan != plan :: t.steps[k],
       items := map k | k in t.items && k.plan != plan :: t.items[k],
       reserve := map u | u in t.reserve ::
         t.reserve[u] - if ItemKey(plan, u) in t.items then t.items[ItemKey(plan, u)].amount else 0)
  }

  function AfterCleanup(t: Tables, plan: int): Tables {
    t.(items := map k | k in t.items && !(k.plan == plan && t.items[k] == Row(0, 0)) :: t.items[k])
  }

  predicate Short(r: Row) {
    r.required > r.amount
  }

  /** Rows of other items, and every required amount, are left alone; the rest may only be topped up. */
  ghost predicate TopsUp(t: Tables, t': Tables, u: Uid) {
    && t' == t.(items := t'.items, reserve := t'.reserve)
    && t'.items.Keys == t.items.Keys && t.reserve.Keys <= t'.reserve.Keys
    && (forall k :: k in t.items ==>
        && t'.items[k].required == t.items[k].required
        && t.items[k].amount <= t'.items[k].amount
        && (k.uid != u || !Short(t.items[k]) ==> t'.items[k] == t.items[k])
        && (Short(t.items[k]) ==> t'.items[k].amount <= t.items[k].required))
    && (forall v :: v != u ==> Get(t'.reserve, v) == Get(t.reserve, v))
  }

  /** What a count report hands out: everything free, or everything any plan is short of. */
  ghost predicate Allocates(t: Tables, t': Tables, u: Uid, count: int) {
    if count <= Get(t.reserve, u) then t' == t
    else
      && TopsUp(t, t', u)
      && Get(t'.reserve, u) - Get(t.reserve, u) == Sum(PlanShare(t', u)) - Sum(PlanShare(t, u))
      && Get(t'.reserve, u) <= count
      && (Get(t'.reserve, u) == count || forall k :: k in t'.items && k.uid == u ==> !Short(t'.items[k]))
  }
}
