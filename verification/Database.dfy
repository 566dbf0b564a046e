/**
  The transactions as the data access objects run them. A transaction works on copies and
  assigns `tables` when it commits; returning early rolls it back.
 */
module Database {
  import opened Recipes
  import opened Sums
  import opened Ledger
  import opened LedgerInvariant
  import opened LedgerRuns

  /** The next integer primary key: one above the largest in use. */
  method NextId(ids: set<int>) returns (id: int)
    ensures forall x :: x in ids ==> x < id
  {
    id := 1;
    while exists x :: x in ids && x >= id
      decreases set x | x in ids && x >= id
    {
      ghost var before := set x | x in ids && x >= id;
      var x :| x in ids && x >= id;
      assert x in before;
      id := x + 1;
    }
  }

  function ReserveItem(reserve: map<Uid, int>, u: Uid, amount: int): map<Uid, int> {
    reserve[u := Get(reserve, u) + amount]
  }

  function ReleaseItem(reserve: map<Uid, int>, u: Uid, amount: int): map<Uid, int> {
    if u in reserve then reserve[u := reserve[u] - amount] else reserve
  }

  lemma NeedStep(items: seq<RecipeItem>, i: nat, u: Uid, n: int)
    requires i < |items|
    ensures AmountOf(items[..i + 1], u) * n == AmountOf(items[..i], u) * n + if items[i].uid
      == u then items[i].amount * n else 0
  {
    AmountOfStep(items, i, u);
  }

  /** The loop that releases the ingredients of `n` repeats, line by line. */
  method ReleaseIngredients(reserve: map<Uid, int>, r: Recipe, n: int) returns (reserve': map<Uid, int>)
    ensures reserve' == Release(reserve, r, n)
  {
    reserve' := reserve;
    for i := 0 to |r.ingredients|
      invariant reserve' == map u | u in reserve :: reserve[u] - AmountOf(r.ingredients[..i], u) * n
    {
      forall u ensures AmountOf(r.ingredients[..i + 1], u) * n
        == AmountOf(r.ingredients[..i], u) * n + if r.ingredients[i].uid == u then r.ingredients[i].amount * n else 0
      {
        NeedStep(r.ingredients, i, u, n);
      }
      reserve' := ReleaseItem(reserve', r.ingredients[i].uid, r.ingredients[i].amount * n);
    }
    assert r.ingredients[..|r.ingredients|] == r.ingredients;
  }

  /** What the guarded updates have left of a plan's rows after the first `i` ingredient lines. */
  function SpendLines(items: map<ItemKey, Row>, plan: int, lines: seq<RecipeItem>, n: int): map<ItemKey, Row> {
    map k | k in items ::
      if k.plan == plan then Row(items[k].amount - AmountOf(lines, k.uid) * n,
        items[k].required - AmountOf(lines, k.uid) * n)
      else items[k]
  }

  lemma SpendLine(items: map<ItemKey, Row>, plan: int, lines: seq<RecipeItem>, i: nat, n: int, rows: map<ItemKey, Row>)
    requires i < |lines| && rows == SpendLines(items, plan, lines[..i], n)
    requires ItemKey(plan, lines[i].uid) in items
    ensures var k := ItemKey(plan, lines[i].uid);
      rows[k := Row(rows[k].amount - lines[i].amount * n, rows[k].required - lines[i].amount * n)]
        == SpendLines(items, plan, lines[..i + 1], n)
  {
    var k := ItemKey(plan, lines[i].uid);
    var next := rows[k := Row(rows[k].amount - lines[i].amount * n, rows[k].required - lines[i].amount * n)];
    forall j | j in items ensures next[j] == SpendLines(items, plan, lines[..i + 1], n)[j] {
      NeedStep(lines, i, j.uid, n);
    }
  }

  lemma SpendNothing(items: map<ItemKey, Row>, plan: int, lines: seq<RecipeItem>, n: int)
    ensures items == SpendLines(items, plan, lines[..0], n)
    ensures forall u :: !Mentions(lines[..0], u)
  {
  }

  lemma SpendAll(items: map<ItemKey, Row>, plan: int, r: Recipe, n: int)
    ensures SpendLines(items, plan, r.ingredients, n) == Spend(items, plan, r, n)
  {
  }

  lemma SpendLineAt(items: map<ItemKey, Row>, plan: int, lines: seq<RecipeItem>, n: int, k: ItemKey)
    ensures k in SpendLines(items, plan, lines, n) <==> k in items
    ensures k in items && k.plan == plan ==>
      SpendLines(items, plan, lines, n)[k].amount == items[k].amount - AmountOf(lines, k.uid) * n
  {
  }

  lemma MentionsHere(lines: seq<RecipeItem>, i: nat)
    requires i < |lines|
    ensures Mentions(lines, lines[i].uid)
  {
  }

  lemma PrefixNeed(items: seq<RecipeItem>, i: nat, u: Uid, n: int)
    requires PositiveAmounts(items) && i <= |items| && n >= 1
    ensures AmountOf(items[..i], u) * n <= AmountOf(items, u) * n
    decreases |items| - i
  {
    if i == |items| {
      assert items[..i] == items;
    } else {
      PrefixNeed(items, i + 1, u, n);
      NeedStep(items, i, u, n);
      assert items[i].amount * n >= 0;
    }
  }

  function ReservePlus(reserve: map<Uid, int>, items: map<Uid, Row>): map<Uid, int> {
    map u | u in reserve.Keys + items.Keys :: Get(reserve, u) + if u in items then items[u].amount else 0
  }

  lemma InsertItemStep(t: Tables, plan: int, seen: map<Uid, Row>, u: Uid, row: Row)
    requires u !in seen
    ensures (t.items + PlanRows(plan, seen))[ItemKey(plan, u) := row] == t.items + PlanRows(plan, seen[u := row])
    ensures ReserveItem(ReservePlus(t.reserve, seen), u, row.amount) == ReservePlus(t.reserve, seen[u := row])
  {
    hide PlanRows;
  }

  /** The loop that inserts the item rows of a plan and reserves their amounts. */
  method InsertItems(t: Tables, plan: int, items: map<Uid, Row>)
    returns (rows: map<ItemKey, Row>, reserve: map<Uid, int>)
    ensures rows == t.items + PlanRows(plan, items)
    ensures reserve == ReservePlus(t.reserve, items)
  {
    hide PlanRows, ReservePlus, ReserveItem;
    rows, reserve := t.items, t.reserve;
    var rest := items.Keys;
    ghost var seen: map<Uid, Row> := map[];
    InsertNone(t, plan);
    while rest != {}
      invariant rest <= items.Keys && seen.Keys == items.Keys - rest && forall u :: u in seen ==> seen[u] == items[u]
      invariant rows == t.items + PlanRows(plan, seen)
      invariant reserve == ReservePlus(t.reserve, seen)
    {
      var u :| u in rest;
      InsertItemStep(t, plan, seen, u, items[u]);
      rows := rows[ItemKey(plan, u) := items[u]];
      reserve := ReserveItem(reserve, u, items[u].amount);
      rest := rest - {u};
      seen := seen[u := items[u]];
    }
    assert seen == items;
  }

  lemma InsertNone(t: Tables, plan: int)
    ensures t.items == t.items + PlanRows(plan, map[]) && t.reserve == ReservePlus(t.reserve, map[])
  {
  }

  /** What the allocator's loop keeps: the rows outside `rest` were given all but `left` of the free amount. */
  ghost predicate PartlyGiven(t: Tables, items: map<ItemKey, Row>, u: Uid, rows: set<ItemKey>, rest: set<ItemKey>,
                              free: int, left: int) {
    && rest <= rows <= t.items.Keys && items.Keys == t.items.Keys
    && (forall k :: k in rows <==> k in t.items && k.uid == u && Short(t.items[k]))
    && TopsUp(t, t.(items := items), u)
    && (forall k :: k in rest ==> items[k] == t.items[k])
    && (forall k :: k in rows - rest ==> items[k].amount > t.items[k].amount && (left > 0 ==> !Short(items[k])))
    && Sum(PlanShare(t.(items := items), u)) == Sum(PlanShare(t, u)) + free - left
  }

  lemma GiveStart(t: Tables, u: Uid, rows: set<ItemKey>, free: int)
    requires forall k :: k in rows <==> k in t.items && k.uid == u && Short(t.items[k])
    ensures PartlyGiven(t, t.items, u, rows, rows, free, free) && rows <= t.items.Keys
  {
    assert t.(items := t.items) == t;
  }

  function Give(items: map<ItemKey, Row>, k: ItemKey, toAdd: int): map<ItemKey, Row>
    requires k in items
  {
    items[k := items[k].(amount := items[k].amount + toAdd)]
  }

  lemma GiveShare(t: Tables, items: map<ItemKey, Row>, u: Uid, k: ItemKey, toAdd: int)
    requires k in items && k.uid == u
    ensures Sum(PlanShare(t.(items := Give(items, k, toAdd)), u)) == Sum(PlanShare(t.(items := items), u)) + toAdd
  {
    var before, after := t.(items := items), t.(items := Give(items, k, toAdd));
    assert PlanShare(after, u) == PlanShare(before, u)[k := items[k].amount + toAdd];
    RowWritten(before, after, k, items[k].amount + toAdd);
  }

  lemma GiveStep(t: Tables, items: map<ItemKey, Row>, u: Uid, rows: set<ItemKey>, rest: set<ItemKey>, free: int,
                 left: int, k: ItemKey, toAdd: int)
    requires PartlyGiven(t, items, u, rows, rest, free, left) && k in rest && left > 0
    requires toAdd == var short := items[k].required - items[k].amount; if left <= short then left else short
    ensures 0 < toAdd <= left && Give(items, k, toAdd).Keys == items.Keys
    ensures PartlyGiven(t, Give(items, k, toAdd), u, rows, rest - {k}, free, left - toAdd)
  {
    hide Sum;
    var next := Give(items, k, toAdd);
    assert k in rows && Short(t.items[k]);
    GiveShare(t, items, u, k, toAdd);
    hide PlanShare;
  }

  ghost predicate Given(t: Tables, items: map<ItemKey, Row>, u: Uid, free: int, left: int, touched: set<ItemKey>) {
    exists rows, rest ::
      touched == rows - rest && PartlyGiven(t, items, u, rows, rest, free, left) && (left > 0 ==> rest == {})
  }

  /** The loop over the short rows. */
  method GiveOut(t: Tables, u: Uid, free: int) returns (items: map<ItemKey, Row>, left: int, touched: set<ItemKey>)
    requires free > 0
    ensures 0 <= left <= free
    ensures Given(t, items, u, free, left, touched)
  {
    hide PartlyGiven, Give;
    left, items, touched := free, t.items, {};
    var rows := set k | k in items && k.uid == u && Short(items[k]);
    var rest := rows;
    GiveStart(t, u, rows, free);
    while rest != {} && left > 0
      invariant 0 <= left <= free && rest <= rows <= items.Keys
      invariant PartlyGiven(t, items, u, rows, rest, free, left)
      invariant touched == rows - rest
    {
      var k :| k in rest;
      var short := items[k].required - items[k].amount;
      var toAdd := if left <= short then left else short;
      GiveStep(t, items, u, rows, rest, free, left, k, toAdd);
      items := Give(items, k, toAdd);
      left := left - toAdd;
      touched := touched + {k};
      assert rows - (rest - {k}) == (rows - rest) + {k};
      rest := rest - {k};
    }
  }

  lemma PlansTouched(t: Tables, t': Tables, u: Uid, touched: set<ItemKey>, planIds: set<int>)
    requires t'.items.Keys == t.items.Keys && forall k :: k in touched ==> k.uid == u
    requires forall k :: k in t'.items && k.uid == u ==> (t'.items[k] != t.items[k] <==> k in touched)
    requires planIds == set k | k in touched :: k.plan
    ensures forall k :: k in t'.items && k.uid == u ==> (k.plan in planIds <==> t'.items[k] != t.items[k])
  {
    forall k | k in t'.items && k.uid == u ensures k.plan in planIds <==> k in touched {
      if k.plan in planIds {
        var j :| j in touched && j.plan == k.plan;
        assert j == k;
      }
    }
  }

  lemma GiveDone(t: Tables, items: map<ItemKey, Row>, u: Uid, count: int, left: int, touched: set<ItemKey>, t': Tables)
    requires count > Get(t.reserve, u) && 0 <= left <= count - Get(t.reserve, u)
    requires Given(t, items, u, count - Get(t.reserve, u), left, touched)
    requires t' == if left < count - Get(t.reserve, u)
      then t.(items := items, reserve := t.reserve[u := count - left]) else t.(items := items)
    ensures Allocates(t, t', u, count)
    ensures t'.items.Keys == t.items.Keys && forall k :: k in touched ==> k.uid == u
    ensures forall k :: k in t'.items && k.uid == u ==> (t'.items[k] != t.items[k] <==> k in touched)
  {
    var rows, rest :| touched == rows - rest && PartlyGiven(t, items, u, rows, rest, count - Get(t.reserve, u), left)
      && (left > 0 ==> rest == {});
    GivenRows(t, items, u, rows, rest, count - Get(t.reserve, u), left);
    GivenAllocates(t, items, u, rows, rest, count, left, t');
    hide PartlyGiven, Allocates;
  }

  lemma GivenRows(t: Tables, items: map<ItemKey, Row>, u: Uid, rows: set<ItemKey>, rest: set<ItemKey>, free: int,
                  left: int)
    requires PartlyGiven(t, items, u, rows, rest, free, left)
    ensures items.Keys == t.items.Keys && forall k :: k in rows - rest ==> k.uid == u
    ensures forall k :: k in items && k.uid == u ==> (items[k] != t.items[k] <==> k in rows - rest)
  {
    hide Sum, PlanShare;
  }

  lemma GivenAllocates(t: Tables, items: map<ItemKey, Row>, u: Uid, rows: set<ItemKey>, rest: set<ItemKey>, count: int,
                       left: int, t': Tables)
    requires count > Get(t.reserve, u) && 0 <= left <= count - Get(t.reserve, u) && (left > 0 ==> rest == {})
    requires PartlyGiven(t, items, u, rows, rest, count - Get(t.reserve, u), left)
    requires t' == if left < count - Get(t.reserve, u)
      then t.(items := items, reserve := t.reserve[u := count - left]) else t.(items := items)
    ensures Allocates(t, t', u, count)
  {
    assert PlanShare(t', u) == PlanShare(t.(items := items), u);
    hide Sum, PlanShare;
    forall k | left > 0 && k in t'.items && k.uid == u ensures !Short(t'.items[k]) {
      assert k in rows <==> Short(t.items[k]);
    }
  }

  /** What a plan holds and requires of an item; an absent row reads as nothing. */
  function RowAt(items: map<ItemKey, Row>, k: ItemKey): Row {
    if k in items then items[k] else Row(0, 0)
  }

  lemma CleanupIsKept(book: Book, t: Tables, plan: int)
    ensures Valid(book, t) ==> Valid(book, AfterCleanup(t, plan))
  {
    if Valid(book, t) {
      CleanupKeeps(book, t, plan);
    }
  }

  /** Dropping exactly the plan's empty rows is what the ledger knows as the cleanup. */
  lemma CleanedUp(t: Tables, t': Tables, plan: int)
    requires t' == t.(items := t'.items)
    requires forall k :: k in t'.items <==> k in t.items && (k.plan == plan ==> t.items[k] != Row(0, 0))
    requires forall k :: RowAt(t'.items, k) == RowAt(t.items, k)
    ensures t' == AfterCleanup(t, plan)
  {
    forall k | k in t'.items ensures t'.items[k] == t.items[k] {
      assert RowAt(t'.items, k) == RowAt(t.items, k);
    }
  }

  // ---------------------------------------------------------------- what a transaction leaves alone

  /** Item and step rows of the other plans are as they were. */
  ghost predicate OtherPlansKept(t: Tables, t': Tables, plan: int) {
    && (forall k :: k in t'.items && k.plan != plan ==> k in t.items && t'.items[k] == t.items[k])
    && (forall k :: k in t.items && k.plan != plan ==> k in t'.items)
    && (forall k :: k in t'.steps && k.plan != plan ==> k in t.steps && t'.steps[k] == t.steps[k])
    && (forall k :: k in t.steps && k.plan != plan ==> k in t'.steps)
  }

  /** The other crafts' rows, and the wait rows for them, are as they were. */
  ghost predicate OtherCraftsKept(t: Tables, t': Tables, id: int) {
    && (forall c :: c in t'.crafts && c != id ==> c in t.crafts && t'.crafts[c] == t.crafts[c])
    && (forall c :: c in t.crafts && c != id ==> c in t'.crafts)
    && (forall w: Wait :: w.craft != id ==> (w in t'.waits <==> w in t.waits))
  }

  /** The plan tables are as they were. */
  ghost predicate PlansKept(t: Tables, t': Tables) {
    t'.plans == t.plans && t'.items == t.items && t'.steps == t.steps
  }

  /** The plan has given up the craft's repeats and their ingredients, and nothing else; it had them all. */
  ghost predicate InsertCraftTakes(t: Tables, t': Tables, plan: int, r: Recipe, n: int) {
    && t'.steps.Keys == t.steps.Keys && t'.items.Keys == t.items.Keys
    && (forall k :: k in t.steps && k.plan == plan ==>
        && t'.steps[k] == t.steps[k] - (if k.recipe == r.id then n else 0)
        && (k.recipe == r.id ==> t'.steps[k] >= 0))
    && (forall k :: k in t.items && k.plan == plan ==>
        && t'.items[k].amount == t.items[k].amount - AmountOf(r.ingredients, k.uid) * n
        && t'.items[k].required == t.items[k].required - AmountOf(r.ingredients, k.uid) * n
        && (Mentions(r.ingredients, k.uid) ==> t'.items[k].amount >= 0))
    && StepKey(plan, r.id) in t.steps && forall u :: Mentions(r.ingredients, u) ==> ItemKey(plan, u) in t.items
  }

  lemma InsertCraftFacts(t: Tables, id: int, plan: int, r: Recipe, n: int)
    requires CanInsertCraft(t, plan, r, n) && id !in t.crafts
    ensures InsertCraftTakes(t, AfterInsertCraft(t, id, plan, r, n), plan, r, n)
    ensures OtherPlansKept(t, AfterInsertCraft(t, id, plan, r, n), plan)
  {
  }

  /** The reserve of each reserved item has fallen by the ingredients of `n` repeats. */
  ghost predicate ReleasesIngredients(t: Tables, t': Tables, r: Recipe, n: int) {
    && t'.reserve.Keys == t.reserve.Keys
    && forall u :: u in t.reserve ==> t'.reserve[u] == t.reserve[u] - AmountOf(r.ingredients, u) * n
  }

  /** Everything that an allocation says, row by row. */
  lemma AllocationRows(t: Tables, t': Tables, u: Uid, count: int)
    requires Allocates(t, t', u, count) && count > Get(t.reserve, u)
    ensures t' == t.(items := t'.items, reserve := t'.reserve) && t'.items.Keys == t.items.Keys
    ensures forall k :: k in t'.items ==>
      && t'.items[k].required == t.items[k].required && t'.items[k].amount >= t.items[k].amount
      && (k.uid != u || t.items[k].amount >= t.items[k].required ==> t'.items[k] == t.items[k])
      && (t'.items[k] != t.items[k] ==> t'.items[k].amount <= t'.items[k].required)
    ensures forall v :: v != u ==> Get(t'.reserve, v) == Get(t.reserve, v)
    ensures Get(t'.reserve, u) <= count
    ensures Get(t'.reserve, u) == count
      || forall k :: k in t'.items && k.uid == u ==> t'.items[k].amount >= t'.items[k].required
    ensures Get(t'.reserve, u) - Get(t.reserve, u) == Sum(PlanShare(t', u)) - Sum(PlanShare(t, u))
  {
    hide Sum, PlanShare;
  }

  class Database {
    const book: Book
    var tables: Tables

    constructor (book: Book)
      ensures this.book == book && tables == EmptyTables
    {
      this.book := book;
      tables := EmptyTables;
    }

    method InsertPlan(items: map<Uid, Row>, steps: map<int, int>) returns (plan: int)
      modifies this`tables
      ensures plan !in old(tables).plans
      ensures tables == AfterInsertPlan(old(tables), plan, items, steps)
      ensures OtherPlansKept(old(tables), tables, plan) && tables.plans == old(tables).plans + {plan}
      ensures forall u :: u in items ==> ItemKey(plan, u) in tables.items && tables.items[ItemKey(plan, u)] == items[u]
      ensures forall r :: r in steps ==> StepKey(plan, r) in tables.steps && tables.steps[StepKey(plan, r)] == steps[r]
      ensures forall u ::
        Get(tables.reserve, u) - Get(old(tables).reserve, u) == if u in items then items[u].amount else 0
      ensures tables.crafts == old(tables).crafts && tables.waits == old(tables).waits
    {
      plan := NextId(tables.plans);
      var rows, reserve := InsertItems(tables, plan, items);
      tables := tables.(plans := tables.plans + {plan}, items := rows, reserve := reserve,
                        steps := tables.steps + PlanSteps(plan, steps));
    }

    /** Accepts exactly when step budget and plan rows allow it, even where one item fills several slots. */
    method InsertCraft(plan: int, r: Recipe, n: int) returns (ok: bool, id: int)
      requires PositiveAmounts(r.ingredients) && n >= 1
      modifies this`tables
      ensures ok <==> CanInsertCraft(old(tables), plan, r, n)
      ensures ok ==> id !in old(tables).crafts && tables == AfterInsertCraft(old(tables), id, plan, r, n)
      ensures !ok ==> tables == old(tables)
      ensures ok ==>
        && tables.crafts == old(tables).crafts[id := Craft(plan, r.id, None, Pending, n, 0)]
        && tables.waits == old(tables).waits && tables.reserve == old(tables).reserve
        && tables.plans == old(tables).plans && OtherPlansKept(old(tables), tables, plan)
      ensures ok ==> InsertCraftTakes(old(tables), tables, plan, r, n)
    {
      id := NextId(tables.crafts.Keys);
      hide SpendLines, Spend, AmountOf, Mentions;
      var key := StepKey(plan, r.id);
      if key !in tables.steps || tables.steps[key] < n {
        return false, id;
      }
      var rows := tables.items;
      SpendNothing(tables.items, plan, r.ingredients, n);
      for i := 0 to |r.ingredients|
        invariant tables == old(tables)
        invariant rows == SpendLines(tables.items, plan, r.ingredients[..i], n)
        invariant forall u :: Mentions(r.ingredients[..i], u) ==>
          ItemKey(plan, u) in tables.items && tables.items[ItemKey(plan, u)].amount
            >= AmountOf(r.ingredients[..i], u) * n
      {
        var line := r.ingredients[i];
        var k := ItemKey(plan, line.uid);
        forall u ensures
          && (Mentions(r.ingredients[..i + 1], u) <==> Mentions(r.ingredients[..i], u) || line.uid == u)
          && AmountOf(r.ingredients[..i + 1], u) * n
            == AmountOf(r.ingredients[..i], u) * n + if line.uid == u then line.amount * n else 0
        {
          MentionsStep(r.ingredients, i, u);
          NeedStep(r.ingredients, i, u, n);
        }
        SpendLineAt(tables.items, plan, r.ingredients[..i], n, k);
        if k !in rows || rows[k].amount < line.amount * n {
          MentionsHere(r.ingredients, i);
          PrefixNeed(r.ingredients, i + 1, line.uid, n);
          return false, id;
        }
        SpendLine(tables.items, plan, r.ingredients, i, n, rows);
        rows := rows[k := Row(rows[k].amount - line.amount * n, rows[k].required - line.amount * n)];
      }
      assert r.ingredients[..|r.ingredients|] == r.ingredients;
      SpendAll(tables.items, plan, r, n);
      ok := true;
      tables := tables.(
        crafts := tables.crafts[id := Craft(plan, r.id, None, Pending, n, 0)],
        steps := tables.steps[key := tables.steps[key] - n],
        items := rows);
      InsertCraftFacts(old(tables), id, plan, r, n);
    }

    method CommitCraft(id: int, r: Recipe, n: int) returns (ok: bool)
      modifies this`tables
      ensures ok <==> CanCommit(old(tables), id)
      ensures tables == if ok then AfterCommit(old(tables), id, r, n) else old(tables)
      ensures ok <==>
        && id in old(tables).crafts && old(tables).crafts[id].status.Pending? && old(tables).crafts[id].committed == 0
      ensures ok ==>
        && id in tables.crafts && tables.crafts[id] == old(tables).crafts[id].(status := Committed, committed := n)
        && OtherCraftsKept(old(tables), tables, id) && PlansKept(old(tables), tables)
        && ReleasesIngredients(old(tables), tables, r, n) && forall w :: w in tables.waits ==> w.craft != id
    {
      if id !in tables.crafts || tables.crafts[id].status != Pending || tables.crafts[id].committed != 0 {
        return false;
      }
      var reserve := ReleaseIngredients(tables.reserve, r, n);
      tables := tables.(
        crafts := tables.crafts[id := tables.crafts[id].(status := Committed, committed := n)],
        reserve := reserve,
        waits := WithoutWaits(tables.waits, id));
      ok := true;
    }

    /** The row update, the read-back of its repeats, and the delete of a row that reads back zero. */
    method CompleteCraft(id: int) returns (ok: bool)
      modifies this`tables
      ensures ok <==> id in old(tables).crafts
      ensures tables == if ok then AfterComplete(old(tables), id) else old(tables)
      ensures ok ==>
        && OtherCraftsKept(old(tables), tables, id) && PlansKept(old(tables), tables)
        && tables.reserve == old(tables).reserve && tables.waits == old(tables).waits
        && var c := old(tables).crafts[id];
          if c.status.Committed? && c.repeats != c.committed
          then id in tables.crafts
            && tables.crafts[id] == c.(status := Pending, repeats := c.repeats - c.committed, committed := 0)
          else id !in tables.crafts
    {
      var crafts := tables.crafts;
      var newRepeats := 0;
      if id in crafts && crafts[id].status == Committed {
        var c := crafts[id];
        crafts := crafts[id := c.(repeats := c.repeats - c.committed, committed := 0, status := Pending)];
        newRepeats := crafts[id].repeats;
      }
      if newRepeats == 0 {
        if id !in crafts {
          return false;
        }
        crafts := crafts - {id};
        assert crafts == tables.crafts - {id};
      }
      tables := tables.(crafts := crafts);
      ok := true;
    }

    method CancelCraft(id: int, read: Craft, r: Recipe) returns (ok: bool)
      modifies this`tables
      ensures ok <==> CanCancel(old(tables), id, read)
      ensures tables == if ok then AfterCancel(old(tables), id, read, r) else old(tables)
      ensures ok <==> id in old(tables).crafts && old(tables).crafts[id].committed == read.committed
      ensures ok ==>
        && id !in tables.crafts && OtherCraftsKept(old(tables), tables, id) && PlansKept(old(tables), tables)
        && ReleasesIngredients(old(tables), tables, r, read.repeats - read.committed)
        && forall w :: w in tables.waits ==> w.craft != id
    {
      if id !in tables.crafts || tables.crafts[id].committed != read.committed {
        return false;
      }
      var reserve := ReleaseIngredients(tables.reserve, r, read.repeats - read.committed);
      tables := tables.(crafts := tables.crafts - {id}, reserve := reserve, waits := WithoutWaits(tables.waits, id));
      ok := true;
    }

    /** Only an unassigned craft is taken over. */
    method AssignCraftToWorker(id: int, worker: string) returns (taken: bool)
      modifies this`tables
      ensures taken <==> id in old(tables).crafts && old(tables).crafts[id].worker.None?
      ensures id in old(tables).crafts ==> tables == AfterAssign(old(tables), id, worker)
      ensures !taken ==> tables == old(tables)
      ensures taken ==>
        && tables.crafts == old(tables).crafts[id := old(tables).crafts[id].(worker := Some(worker))]
        && tables == old(tables).(crafts := tables.crafts)
    {
      taken := id in tables.crafts && tables.crafts[id].worker == None;
      if taken {
        tables := tables.(crafts := tables.crafts[id := tables.crafts[id].(worker := Some(worker))]);
      }
    }

    method CompleteWorkerWait(worker: string, id: int) returns (ok: bool)
      modifies this`tables
      ensures ok <==> Wait(worker, id) in old(tables).waits && id in old(tables).crafts
      ensures tables == if ok then AfterComplete(DropWait(old(tables), id, worker), id) else old(tables)
      ensures ok ==>
        && PlansKept(old(tables), tables) && tables.reserve == old(tables).reserve
        && tables.waits == old(tables).waits - {Wait(worker, id)} && OtherCraftsKept(old(tables), tables, id)
        && var c := old(tables).crafts[id];
          if c.status.Committed? && c.repeats != c.committed
          then id in tables.crafts
            && tables.crafts[id] == c.(status := Pending, repeats := c.repeats - c.committed, committed := 0)
          else id !in tables.crafts
    {
      var before := tables;
      if Wait(worker, id) !in tables.waits {
        return false;
      }
      tables := tables.(waits := tables.waits - {Wait(worker, id)});
      ok := CompleteCraft(id);
      if !ok {
        tables := before;
      }
    }

    method RemovePlan(plan: int)
      modifies this`tables
      ensures tables == AfterRemovePlan(old(tables), plan)
      ensures (forall k :: k in tables.items ==> k.plan != plan) && forall k :: k in tables.steps ==> k.plan != plan
      ensures OtherPlansKept(old(tables), tables, plan) && tables.plans == old(tables).plans - {plan}
      ensures tables.crafts == old(tables).crafts && tables.waits == old(tables).waits
      ensures tables.reserve.Keys == old(tables).reserve.Keys
      ensures forall u :: u in tables.reserve ==>
        old(tables).reserve[u] - tables.reserve[u]
          == if ItemKey(plan, u) in old(tables).items then old(tables).items[ItemKey(plan, u)].amount else 0
    {
      var reserve := tables.reserve;
      var rows := set k | k in tables.items && k.plan == plan;
      var rest := rows;
      while rest != {}
        invariant rest <= rows && tables == old(tables)
        invariant reserve == map u | u in tables.reserve ::
          tables.reserve[u] - if ItemKey(plan, u) in rows - rest then tables.items[ItemKey(plan, u)].amount else 0
      {
        var k :| k in rest;
        reserve := ReleaseItem(reserve, k.uid, tables.items[k].amount);
        rest := rest - {k};
      }
      tables := tables.(
        plans := tables.plans - {plan},
        steps := map k | k in tables.steps && k.plan != plan :: tables.steps[k],
        items := map k | k in tables.items && k.plan != plan :: tables.items[k],
        reserve := reserve);
    }

    /** The plan's used-up rows go; every other row stays as it is, and no plan holds or requires less. */
    method CleanupItems(plan: int)
      modifies this`tables
      ensures tables == old(tables).(items := tables.items)
      ensures forall k :: k in tables.items <==>
        k in old(tables).items && (k.plan == plan ==> old(tables).items[k] != Row(0, 0))
      ensures forall k :: RowAt(tables.items, k) == RowAt(old(tables).items, k)
      ensures Valid(book, old(tables)) ==> Valid(book, tables)
    {
      CleanupIsKept(book, tables, plan);
      tables := tables.(items := map k | k in tables.items && (k.plan == plan ==> tables.items[k] != Row(0, 0)) ::
        tables.items[k]);
      CleanedUp(old(tables), tables, plan);
    }

    /** Hands a newly counted surplus to the plans that are short of the item, in any order. */
    method UpdateItemCount(u: Uid, count: int) returns (planIds: set<int>)
      modifies this`tables
      ensures Allocates(old(tables), tables, u, count)
      ensures tables == old(tables).(items := tables.items, reserve := tables.reserve)
      ensures tables.items.Keys == old(tables).items.Keys
      ensures forall k :: k in tables.items ==>
        && tables.items[k].required == old(tables).items[k].required
        && tables.items[k].amount >= old(tables).items[k].amount
        && (k.uid != u || old(tables).items[k].amount >= old(tables).items[k].required ==>
              tables.items[k] == old(tables).items[k])
        && (tables.items[k] != old(tables).items[k] ==> tables.items[k].amount <= tables.items[k].required)
      ensures forall v :: v != u ==> Get(tables.reserve, v) == Get(old(tables).reserve, v)
      ensures count <= Get(old(tables).reserve, u) ==> tables == old(tables)
      ensures count > Get(old(tables).reserve, u) ==>
        && Get(tables.reserve, u) <= count
        && (Get(tables.reserve, u) == count
            || forall k :: k in tables.items && k.uid == u ==> tables.items[k].amount >= tables.items[k].required)
      ensures Get(tables.reserve, u) - Get(old(tables).reserve, u)
           == Sum(PlanShare(tables, u)) - Sum(PlanShare(old(tables), u))
      ensures forall k :: k in tables.items && k.uid == u ==>
        (k.plan in planIds <==> tables.items[k] != old(tables).items[k])
    {
      planIds := {};
      var reserve := Get(tables.reserve, u);
      if count <= reserve {
        return;
      }
      hide Allocates, PartlyGiven;
      var items, left, touched := GiveOut(tables, u, count - reserve);
      ghost var t := tables;
      tables := tables.(items := items);
      if left < count - reserve {
        tables := tables.(reserve := tables.reserve[u := count - left]);
      }
      planIds := set k | k in touched :: k.plan;
      GiveDone(t, items, u, count, left, touched, tables);
      PlansTouched(t, tables, u, touched, planIds);
      AllocationRows(t, tables, u, count);
    }
  }
}
