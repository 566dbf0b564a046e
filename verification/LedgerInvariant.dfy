/** Every transaction keeps the reserve ledger exact, over whole runs. */
module LedgerInvariant {
  import opened Recipes
  import opened Sums
  import opened Ledger

  lemma AmountOfNone(items: seq<RecipeItem>, u: Uid)
    requires !Mentions(items, u)
    ensures AmountOf(items, u) == 0
  {
    if items != [] {
      var n := |items| - 1;
      MentionsStep(items, n, u);
      assert items[..n + 1] == items;
      AmountOfNone(items[..n], u);
    }
  }

  /** Releasing no more than an open craft holds is exact even where no reserve row exists. */
  lemma ReleaseExact(book: Book, t: Tables, id: int, n: int, u: Uid)
    requires Valid(book, t) && id in t.crafts && 0 <= n <= Open(t.crafts[id])
    ensures var r := RecipeOf(book, t.crafts[id].recipe);
      Get(Release(t.reserve, r, n), u) == Get(t.reserve, u) - Need(r, u, n)
  {
    SharesNonNegative(book, t, u);
    NeedBounds(book, t.crafts[id].recipe, u, n, Open(t.crafts[id]));
  }

  /** A craft row changed or added: the share of its item moves by the difference. */
  lemma CraftWritten(book: Book, t: Tables, t': Tables, id: int, c: Craft, u: Uid)
    requires t'.crafts == t.crafts[id := c] && t'.items == t.items
    ensures Claimed(book, t', u) == Claimed(book, t, u) + Need(RecipeOf(book, c.recipe), u, Open(c))
      - if id in t.crafts then Need(RecipeOf(book, t.crafts[id].recipe), u, Open(t.crafts[id])) else 0
  {
    var before, after := CraftShare(book, t, u), CraftShare(book, t', u);
    assert after == before[id := Need(RecipeOf(book, c.recipe), u, Open(c))];
    SumUpdate(before, id, Need(RecipeOf(book, c.recipe), u, Open(c)));
    assert PlanShare(t', u) == PlanShare(t, u);
  }

  lemma CraftDeleted(book: Book, t: Tables, t': Tables, id: int, u: Uid)
    requires id in t.crafts && t'.crafts == t.crafts - {id} && t'.items == t.items
    ensures Claimed(book, t', u) == Claimed(book, t, u)
      - Need(RecipeOf(book, t.crafts[id].recipe), u, Open(t.crafts[id]))
  {
    var before := CraftShare(book, t, u);
    assert CraftShare(book, t', u) == before - {id};
    SumRemove(before, id);
    assert PlanShare(t', u) == PlanShare(t, u);
  }

  /** One plan row of the item written: the plan share moves by the difference. */
  lemma RowWritten(t: Tables, t': Tables, k: ItemKey, amount: int)
    requires PlanShare(t', k.uid) == PlanShare(t, k.uid)[k := amount]
    ensures Sum(PlanShare(t', k.uid)) == Sum(PlanShare(t, k.uid)) + amount
      - if k in t.items then t.items[k].amount else 0
  {
    SumUpdate(PlanShare(t, k.uid), k, amount);
  }

  // ---------------------------------------------------------------- one lemma per transaction

  lemma InsertPlanKeeps(book: Book, t: Tables, plan: int, items: map<Uid, Row>, steps: map<int, int>)
    requires Valid(book, t) && plan !in t.plans
    requires (forall u :: u in items ==> GoodRow(items[u])) && forall r :: r in steps ==> steps[r] >= 0
    ensures Valid(book, AfterInsertPlan(t, plan, items, steps))
  {
    hide PlanRows, PlanSteps, Sum;
    var t' := AfterInsertPlan(t, plan, items, steps);
    forall u ensures Get(t'.reserve, u) == Claimed(book, t', u) {
      InsertPlanBalances(book, t, plan, items, steps, u);
    }
    assert Balanced(book, t');
    hide Balanced, Claimed;
    assert GoodTables(book, t');
  }

  lemma SameCrafts(book: Book, t: Tables, t': Tables, u: Uid)
    requires t'.crafts == t.crafts
    ensures CraftShare(book, t', u) == CraftShare(book, t, u)
  {
  }

  lemma InsertedShare(t: Tables, plan: int, items: map<Uid, Row>, t': Tables, u: Uid)
    requires t'.items == t.items + PlanRows(plan, items) && ItemKey(plan, u) !in t.items
    ensures Sum(PlanShare(t', u)) == Sum(PlanShare(t, u)) + if u in items then items[u].amount else 0
  {
    hide PlanRows, Sum;
    var k := ItemKey(plan, u);
    if u in items {
      assert PlanShare(t', u) == PlanShare(t, u)[k := items[u].amount];
      SumUpdate(PlanShare(t, u), k, items[u].amount);
    } else {
      assert PlanShare(t', u) == PlanShare(t, u);
    }
  }

  lemma InsertedReserve(t: Tables, plan: int, items: map<Uid, Row>, steps: map<int, int>, u: Uid)
    ensures var t' := AfterInsertPlan(t, plan, items, steps);
      && Get(t'.reserve, u) == Get(t.reserve, u) + (if u in items then items[u].amount else 0)
      && t'.crafts == t.crafts && t'.items == t.items + PlanRows(plan, items)
  {
    hide PlanRows, PlanSteps;
  }

  lemma NewPlanHasNoRow(book: Book, t: Tables, plan: int, u: Uid)
    requires Valid(book, t) && plan !in t.plans
    ensures ItemKey(plan, u) !in t.items && Get(t.reserve, u) == Claimed(book, t, u)
  {
    hide Claimed;
  }

  lemma InsertPlanBalances(book: Book, t: Tables, plan: int, items: map<Uid, Row>, steps: map<int, int>, u: Uid)
    requires Valid(book, t) && plan !in t.plans
    ensures var t' := AfterInsertPlan(t, plan, items, steps); Get(t'.reserve, u) == Claimed(book, t', u)
  {
    hide Valid, AfterInsertPlan, PlanRows, Sum, PlanShare, CraftShare;
    var t' := AfterInsertPlan(t, plan, items, steps);
    NewPlanHasNoRow(book, t, plan, u);
    InsertedReserve(t, plan, items, steps, u);
    SameCrafts(book, t, t', u);
    InsertedShare(t, plan, items, t', u);
  }

  /** An accepted craft moves its ingredients from the plan's share to its own; nothing is re-reserved. */
  lemma InsertCraftKeeps(book: Book, t: Tables, id: int, plan: int, recipe: int, n: int)
    requires Valid(book, t) && recipe in book && book[recipe].id == recipe && id !in t.crafts && n >= 1
    requires CanInsertCraft(t, plan, book[recipe], n)
    ensures Valid(book, AfterInsertCraft(t, id, plan, book[recipe], n))
    ensures AfterInsertCraft(t, id, plan, book[recipe], n).reserve == t.reserve
    ensures forall k :: k in t.items ==>
      var t' := AfterInsertCraft(t, id, plan, book[recipe], n);
      t'.items[k].required - t'.items[k].amount == t.items[k].required - t.items[k].amount
  {
    var r := book[recipe];
    var t' := AfterInsertCraft(t, id, plan, r, n);
    forall u ensures Get(t'.reserve, u) == Claimed(book, t', u) {
      InsertCraftBalances(book, t, id, plan, recipe, n, u);
    }
    assert Balanced(book, t');
    hide Balanced, Claimed;
    forall k | k in t'.items ensures GoodRow(t'.items[k]) {
      SpentRowIsGood(book, t, plan, recipe, n, k);
    }
  }

  lemma InsertCraftBalances(book: Book, t: Tables, id: int, plan: int, recipe: int, n: int, u: Uid)
    requires Valid(book, t) && recipe in book && book[recipe].id == recipe && id !in t.crafts
    requires CanInsertCraft(t, plan, book[recipe], n)
    ensures var t' := AfterInsertCraft(t, id, plan, book[recipe], n); Get(t'.reserve, u) == Claimed(book, t', u)
  {
    var r := book[recipe];
    var t' := AfterInsertCraft(t, id, plan, r, n);
    var mid := t.(items := t'.items);
    assert Get(t.reserve, u) == Claimed(book, t, u);
    CraftWritten(book, mid, t', id, t'.crafts[id], u);
    assert CraftShare(book, mid, u) == CraftShare(book, t, u);
    SpendShare(t, mid, plan, r, n, u);
  }

  lemma SpentRowIsGood(book: Book, t: Tables, plan: int, recipe: int, n: int, k: ItemKey)
    requires GoodBook(book) && GoodTables(book, t) && recipe in book && n >= 1 && k in t.items
    requires CanInsertCraft(t, plan, book[recipe], n)
    ensures GoodRow(Spend(t.items, plan, book[recipe], n)[k])
  {
    NeedBounds(book, recipe, k.uid, 0, n);
    if !Mentions(book[recipe].ingredients, k.uid) {
      AmountOfNone(book[recipe].ingredients, k.uid);
    }
  }

  lemma SpendShare(t: Tables, mid: Tables, plan: int, r: Recipe, n: int, u: Uid)
    requires mid.items == Spend(t.items, plan, r, n)
    requires Mentions(r.ingredients, u) ==> ItemKey(plan, u) in t.items
    ensures Sum(PlanShare(mid, u)) == Sum(PlanShare(t, u)) - Need(r, u, n)
  {
    var k := ItemKey(plan, u);
    if k in t.items {
      assert PlanShare(mid, u) == PlanShare(t, u)[k := t.items[k].amount - Need(r, u, n)];
      RowWritten(t, mid, k, t.items[k].amount - Need(r, u, n));
    } else {
      AmountOfNone(r.ingredients, u);
      assert PlanShare(mid, u) == PlanShare(t, u);
    }
  }

  lemma CommitKeeps(book: Book, t: Tables, id: int, n: int)
    requires Valid(book, t) && CanCommit(t, id) && 1 <= n <= t.crafts[id].repeats
    ensures Valid(book, AfterCommit(t, id, book[t.crafts[id].recipe], n))
  {
    var c := t.crafts[id];
    var t' := AfterCommit(t, id, book[c.recipe], n);
    forall u ensures Get(t'.reserve, u) == Claimed(book, t', u) {
      assert Get(t.reserve, u) == Claimed(book, t, u);
      ReleaseExact(book, t, id, n, u);
      CraftWritten(book, t, t', id, t'.crafts[id], u);
      NeedBounds(book, c.recipe, u, n, c.repeats);
    }
  }

  /** How far a commit that releases by some recipe puts the ledger off for one item. */
  lemma CommitShift(book: Book, t: Tables, id: int, n: int, r: Recipe, u: Uid)
    requires Valid(book, t) && CanCommit(t, id) && 1 <= n <= t.crafts[id].repeats
    ensures var t', own := AfterCommit(t, id, r, n), book[t.crafts[id].recipe];
      Get(t'.reserve, u) - Claimed(book, t', u) == if u in t.reserve then Need(own, u, n) - Need(r, u, n) else 0
  {
    var c := t.crafts[id];
    var t' := AfterCommit(t, id, r, n);
    assert Get(t.reserve, u) == Claimed(book, t, u);
    CraftWritten(book, t, t', id, t'.crafts[id], u);
    NeedBounds(book, c.recipe, u, n, c.repeats);
    if u !in t.reserve {
      OpenIsReserved(book, t, id, u);
    }
    hide Claimed, Balanced, GoodTables, GoodBook;
  }

  /**
    The guard of a commit does not look at the row's recipe. The ledger survives exactly when the
    recipe that the caller read has the ingredients of the row's, as far as they are reserved.
   */
  lemma CommitKeepsIff(book: Book, t: Tables, id: int, n: int, r: Recipe)
    requires Valid(book, t) && CanCommit(t, id) && 1 <= n <= t.crafts[id].repeats
    ensures Valid(book, AfterCommit(t, id, r, n)) <==>
      forall u :: u in t.reserve ==> AmountOf(r.ingredients, u) == AmountOf(book[t.crafts[id].recipe].ingredients, u)
  {
    var t', own := AfterCommit(t, id, r, n), book[t.crafts[id].recipe];
    assert GoodTables(book, t');
    hide Claimed, AmountOf, GoodTables, CanCommit, AfterCommit;
    forall u ensures Get(t'.reserve, u) == Claimed(book, t', u) <==>
      (u in t.reserve ==> AmountOf(r.ingredients, u) == AmountOf(own.ingredients, u))
    {
      CommitShift(book, t, id, n, r, u);
      SameProduct(AmountOf(own.ingredients, u), AmountOf(r.ingredients, u), n);
    }
  }

  lemma SameProduct(a: int, b: int, n: int)
    requires n >= 1
    ensures a * n == b * n <==> a == b
  {
    if a != b {
      NonZeroProduct(n, a - b);
      assert a * n - b * n == n * (a - b);
    }
  }

  ghost predicate Awaited(t: Tables, id: int) {
    exists w :: w in t.waits && w.craft == id
  }

  /** The ledger side of completing: right for a committed row, and where nothing was reserved. */
  lemma CompleteBalancesIff(book: Book, t: Tables, id: int)
    requires Valid(book, t) && id in t.crafts
    ensures Balanced(book, AfterComplete(t, id)) <==>
      t.crafts[id].status.Committed? || book[t.crafts[id].recipe].ingredients == []
  {
    var c := t.crafts[id];
    var t' := AfterComplete(t, id);
    if c.status.Committed? || book[c.recipe].ingredients == [] {
      forall u ensures Get(t'.reserve, u) == Claimed(book, t', u) {
        assert Get(t.reserve, u) == Claimed(book, t, u);
        if id in t'.crafts {
          CraftWritten(book, t, t', id, t'.crafts[id], u);
        } else {
          CraftDeleted(book, t, t', id, u);
        }
      }
    } else {
      var u := book[c.recipe].ingredients[0].uid;
      assert Mentions(book[c.recipe].ingredients, u);
      PositiveWhenMentioned(book[c.recipe].ingredients, u);
      assert AmountOf(book[c.recipe].ingredients, u) * c.repeats > 0;
      CraftDeleted(book, t, t', id, u);
      assert Get(t.reserve, u) == Claimed(book, t, u);
      assert Get(t'.reserve, u) != Claimed(book, t', u);
    }
  }

  /**
    Completing is right exactly for a committed row that no worker waits for. Any other row is
    deleted with its share still reserved, unless it has no ingredients; a wait row outlives the
    commit it stands for.
   */
  lemma CompleteKeepsIff(book: Book, t: Tables, id: int)
    requires Valid(book, t) && id in t.crafts
    ensures Valid(book, AfterComplete(t, id)) <==>
      && !Awaited(t, id)
      && (t.crafts[id].status.Committed? || book[t.crafts[id].recipe].ingredients == [])
  {
    CompleteBalancesIff(book, t, id);
    hide Balanced;
    if w :| w in t.waits && w.craft == id {
      assert w in AfterComplete(t, id).waits;
    }
  }

  /** Cancelling is exact when the caller's copy has the row's repeats; the guard checks only its commit count. */
  lemma CancelKeeps(book: Book, t: Tables, id: int, read: Craft)
    requires Valid(book, t) && CanCancel(t, id, read)
    requires read.repeats == t.crafts[id].repeats
    ensures Valid(book, AfterCancel(t, id, read, book[t.crafts[id].recipe]))
  {
    var c := t.crafts[id];
    var t' := AfterCancel(t, id, read, book[c.recipe]);
    forall u ensures Get(t'.reserve, u) == Claimed(book, t', u) {
      assert Get(t.reserve, u) == Claimed(book, t, u);
      ReleaseExact(book, t, id, Open(c), u);
      CraftDeleted(book, t, t', id, u);
    }
  }

  /** How far a cancel with this copy puts the ledger off for one item. */
  lemma CancelShift(book: Book, t: Tables, id: int, read: Craft, u: Uid)
    requires Valid(book, t) && CanCancel(t, id, read)
    ensures var r := book[t.crafts[id].recipe];
      var t' := AfterCancel(t, id, read, r);
      Get(t'.reserve, u) - Claimed(book, t', u)
        == if u in t.reserve then AmountOf(r.ingredients, u) * (t.crafts[id].repeats - read.repeats) else 0
  {
    var c := t.crafts[id];
    var r := book[c.recipe];
    var t' := AfterCancel(t, id, read, r);
    CraftDeleted(book, t, t', id, u);
    OpenIsReserved(book, t, id, u);
    NeedDiffers(r, u, Open(c), Open(read));
    hide Need, Claimed, AmountOf, Balanced, GoodTables;
    assert Get(t'.reserve, u) == if u in t.reserve then t.reserve[u] - Need(r, u, Open(read)) else 0;
  }

  lemma OpenIsReserved(book: Book, t: Tables, id: int, u: Uid)
    requires Valid(book, t) && id in t.crafts
    ensures Get(t.reserve, u) == Claimed(book, t, u)
    ensures u !in t.reserve ==> Need(book[t.crafts[id].recipe], u, Open(t.crafts[id])) == 0 == Claimed(book, t, u)
  {
    SharesNonNegative(book, t, u);
    hide Sum, AmountOf;
  }

  lemma NeedDiffers(r: Recipe, u: Uid, n: int, m: int)
    ensures Need(r, u, n) - Need(r, u, m) == AmountOf(r.ingredients, u) * (n - m)
  {
    var a := AmountOf(r.ingredients, u);
    assert a * n - a * m == a * (n - m);
  }

  /**
    The guard of a cancel checks only the commit count of the caller's copy. The ledger survives
    exactly when the copy has the row's repeats too, or no ingredient was ever reserved.
   */
  lemma CancelKeepsIff(book: Book, t: Tables, id: int, read: Craft)
    requires Valid(book, t) && CanCancel(t, id, read)
    ensures Valid(book, AfterCancel(t, id, read, book[t.crafts[id].recipe])) <==>
      read.repeats == t.crafts[id].repeats
      || forall u :: u in t.reserve ==> !Mentions(book[t.crafts[id].recipe].ingredients, u)
  {
    var r := book[t.crafts[id].recipe];
    var t' := AfterCancel(t, id, read, r);
    var off := t.crafts[id].repeats - read.repeats;
    assert GoodTables(book, t');
    hide Claimed, AmountOf, Mentions, GoodTables, CanCancel, AfterCancel;
    if off == 0 || forall u :: u in t.reserve ==> !Mentions(r.ingredients, u) {
      forall u ensures Get(t'.reserve, u) == Claimed(book, t', u) {
        CancelShift(book, t, id, read, u);
        PositiveWhenMentioned(r.ingredients, u);
      }
    } else {
      var u :| u in t.reserve && Mentions(r.ingredients, u);
      CancelShift(book, t, id, read, u);
      PositiveWhenMentioned(r.ingredients, u);
      NonZeroProduct(AmountOf(r.ingredients, u), off);
      assert Get(t'.reserve, u) != Claimed(book, t', u);
    }
  }

  lemma NonZeroProduct(a: int, n: int)
    requires a > 0 && n != 0
    ensures a * n != 0
  {
  }

  lemma RemovePlanKeeps(book: Book, t: Tables, plan: int)
    requires Valid(book, t)
    ensures Valid(book, AfterRemovePlan(t, plan))
  {
    var t' := AfterRemovePlan(t, plan);
    forall u ensures Get(t'.reserve, u) == Claimed(book, t', u) {
      RemovePlanBalances(book, t, plan, u);
    }
    assert Balanced(book, t');
    hide Balanced, Claimed;
    assert GoodTables(book, t');
  }

  /** Taking the rows of one plan away takes its amount of the item away. */
  lemma RemovedShare(t: Tables, plan: int, t': Tables, u: Uid)
    requires t'.items == map k | k in t.items && k.plan != plan :: t.items[k]
    ensures Sum(PlanShare(t', u)) == Sum(PlanShare(t, u))
      - if ItemKey(plan, u) in t.items then t.items[ItemKey(plan, u)].amount else 0
  {
    hide Sum;
    var k := ItemKey(plan, u);
    if k in t.items {
      assert PlanShare(t', u) == PlanShare(t, u) - {k};
      SumRemove(PlanShare(t, u), k);
    } else {
      assert PlanShare(t', u) == PlanShare(t, u);
    }
  }

  lemma RemovePlanBalances(book: Book, t: Tables, plan: int, u: Uid)
    requires Valid(book, t)
    ensures var t' := AfterRemovePlan(t, plan); Get(t'.reserve, u) == Claimed(book, t', u)
  {
    var t' := AfterRemovePlan(t, plan);
    var held := if ItemKey(plan, u) in t.items then t.items[ItemKey(plan, u)].amount else 0;
    assert Get(t.reserve, u) == Claimed(book, t, u);
    if ItemKey(plan, u) in t.items {
      HeldIsReserved(book, t, ItemKey(plan, u));
    }
    RemovedShare(t, plan, t', u);
    SameCrafts(book, t, t', u);
    hide Valid, Sum, PlanShare, CraftShare;
    assert Get(t'.reserve, u) == Get(t.reserve, u) - held;
  }

  /** A plan row with something held has its item in the reserve table. */
  lemma HeldIsReserved(book: Book, t: Tables, k: ItemKey)
    requires Valid(book, t) && k in t.items
    ensures k.uid !in t.reserve ==> t.items[k].amount == 0
  {
    SharesNonNegative(book, t, k.uid);
    assert Get(t.reserve, k.uid) == Claimed(book, t, k.uid);
    assert GoodRow(t.items[k]);
    hide Sum, PlanShare, CraftShare;
  }

  /** Rows with nothing in them can go without changing any sum. */
  lemma CleanedShare(t: Tables, plan: int, t': Tables, u: Uid)
    requires t'.items == map k | k in t.items && !(k.plan == plan && t.items[k] == Row(0, 0)) :: t.items[k]
    ensures Sum(PlanShare(t', u)) == Sum(PlanShare(t, u))
  {
    hide Sum;
    var k := ItemKey(plan, u);
    if k in t.items && t.items[k] == Row(0, 0) {
      assert PlanShare(t', u) == PlanShare(t, u) - {k};
      SumRemove(PlanShare(t, u), k);
    } else {
      assert PlanShare(t', u) == PlanShare(t, u);
    }
  }

  lemma CleanupKeeps(book: Book, t: Tables, plan: int)
    requires Valid(book, t)
    ensures Valid(book, AfterCleanup(t, plan))
  {
    hide Sum, PlanShare, CraftShare;
    var t' := AfterCleanup(t, plan);
    forall u ensures Get(t'.reserve, u) == Claimed(book, t', u) {
      assert Get(t.reserve, u) == Claimed(book, t, u);
      SameCrafts(book, t, t', u);
      CleanedShare(t, plan, t', u);
    }
  }

  lemma OtherShares(t: Tables, t': Tables, u: Uid, v: Uid)
    requires TopsUp(t, t', u) && v != u
    ensures PlanShare(t', v) == PlanShare(t, v)
  {
  }

  lemma AllocateBalances(book: Book, t: Tables, t': Tables, u: Uid, count: int, v: Uid)
    requires Valid(book, t) && Allocates(t, t', u, count) && count > Get(t.reserve, u)
    ensures Get(t'.reserve, v) == Claimed(book, t', v)
  {
    assert Get(t.reserve, v) == Claimed(book, t, v);
    hide Sum, PlanShare, CraftShare, GoodTables;
    SameCrafts(book, t, t', v);
    if v != u {
      OtherShares(t, t', u, v);
    }
  }

  lemma AllocateKeeps(book: Book, t: Tables, t': Tables, u: Uid, count: int)
    requires Valid(book, t) && Allocates(t, t', u, count)
    ensures Valid(book, t')
  {
    hide Claimed, Sum, PlanShare, CraftShare;
    if count > Get(t.reserve, u) {
      forall v ensures Get(t'.reserve, v) == Claimed(book, t', v) {
        AllocateBalances(book, t, t', u, count, v);
      }
    }
  }
}
