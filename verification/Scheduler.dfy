/** Submitting the crafts a plan can run now (internal/services/crafter/crafter.go). */
module Scheduler {
  import opened Recipes
  import opened PlanTheorems
  import opened Ledger
  import opened LedgerInvariant
  import opened LedgerRuns
  import opened Database

  datatype PlanStep = PlanStep(recipe: int, repeats: int)

  /** What a plan holds of an item; an absent row reads as nothing. */
  function AmountIn(t: Tables, plan: int, u: Uid): int {
    if ItemKey(plan, u) in t.items then t.items[ItemKey(plan, u)].amount else 0
  }

  /** One repeat's ingredients and catalysts, summed over all lines. */
  function Intake(r: Recipe, u: Uid): int {
    AmountOf(r.ingredients, u) + AmountOf(r.catalysts, u)
  }

  /** `n` repeats stay within the step budget, the cap of one for catalysts, and the plan's items. */
  ghost predicate Fits(t: Tables, plan: int, r: Recipe, budget: int, n: int) {
    && n <= budget
    && (r.catalysts != [] ==> n <= 1)
    && forall u :: Intake(r, u) > 0 ==> Intake(r, u) * n <= AmountIn(t, plan, u)
  }

  /** The store map built from a plan's item rows. */
  method ReadStore(t: Tables, plan: int) returns (store: map<Uid, int>)
    ensures forall u :: Get(store, u) == AmountIn(t, plan, u)
  {
    store := map[];
    var rows := set k | k in t.items && k.plan == plan;
    var rest := rows;
    while rest != {}
      invariant rest <= rows
      invariant forall u :: u in store <==> ItemKey(plan, u) in rows - rest
      invariant forall u :: u in store ==> store[u] == t.items[ItemKey(plan, u)].amount
    {
      var k :| k in rest;
      assert k == ItemKey(plan, k.uid);
      store := store[k.uid := t.items[k].amount];
      rest := rest - {k};
    }
  }

  method AddAmounts(totals: map<Uid, int>, items: seq<RecipeItem>) returns (totals': map<Uid, int>)
    ensures forall u :: Get(totals', u) == Get(totals, u) + AmountOf(items, u)
    ensures forall u :: u in totals' <==> u in totals || Mentions(items, u)
  {
    totals' := totals;
    for i := 0 to |items|
      invariant forall u :: Get(totals', u) == Get(totals, u) + AmountOf(items[..i], u)
      invariant forall u :: u in totals' <==> u in totals || Mentions(items[..i], u)
    {
      forall u ensures
        && AmountOf(items[..i + 1], u) == AmountOf(items[..i], u) + (if items[i].uid == u then items[i].amount else 0)
        && (Mentions(items[..i + 1], u) <==> Mentions(items[..i], u) || items[i].uid == u)
      {
        AmountOfStep(items, i, u);
        MentionsStep(items, i, u);
      }
      totals' := totals'[items[i].uid := Get(totals', items[i].uid) + items[i].amount];
    }
    assert items[..|items|] == items;
  }

  lemma IntakePositive(r: Recipe, u: Uid)
    requires PositiveAmounts(r.ingredients) && PositiveAmounts(r.catalysts)
    ensures Intake(r, u) >= 0
    ensures IsInput(r, u) <==> Intake(r, u) > 0
  {
    PositiveWhenMentioned(r.ingredients, u);
    PositiveWhenMentioned(r.catalysts, u);
  }

  /** Go's integer division by a positive number truncates toward zero. */
  function Quotient(have: int, amount: int): int
    requires amount > 0
  {
    if have >= 0 then have / amount else -(-have / amount)
  }

  lemma QuotientFits(have: int, amount: int, n: int)
    requires amount > 0 && n >= 1
    ensures n <= Quotient(have, amount) <==> amount * n <= have
  {
    ScaledMonotone(amount, 1, n);
    if have >= 0 {
      var q := have / amount;
      if n <= q {
        ScaledMonotone(amount, n, q);
      } else {
        ScaledMonotone(amount, q + 1, n);
      }
    }
  }

  ghost predicate FitsItems(store: map<Uid, int>, r: Recipe, items: set<Uid>, n: int) {
    forall u :: u in items ==> Intake(r, u) * n <= Get(store, u)
  }

  /** The repeats found so far fit, and no more do; nothing fits when they are not positive. */
  ghost predicate Narrowed(store: map<Uid, int>, r: Recipe, items: set<Uid>, cap: int, n: int) {
    && n <= cap
    && (n >= 1 ==> FitsItems(store, r, items, n))
    && forall m :: 1 <= m <= cap && FitsItems(store, r, items, m) ==> m <= n
  }

  lemma NarrowStep(store: map<Uid, int>, r: Recipe, items: set<Uid>, u: Uid, cap: int, n: int, q: int)
    requires Intake(r, u) > 0 && q == Quotient(Get(store, u), Intake(r, u))
    requires forall v :: Intake(r, v) >= 0
    requires Narrowed(store, r, items, cap, n)
    ensures Narrowed(store, r, items + {u}, cap, if n <= q then n else q)
  {
    hide Quotient, Intake;
    var next := if n <= q then n else q;
    if next >= 1 {
      QuotientFits(Get(store, u), Intake(r, u), next);
      forall v | v in items + {u} ensures Intake(r, v) * next <= Get(store, v) {
        if v in items {
          ScaledMonotone(Intake(r, v), next, n);
        }
      }
    }
    forall m | 1 <= m <= cap && FitsItems(store, r, items + {u}, m) ensures m <= next {
      QuotientFits(Get(store, u), Intake(r, u), m);
      assert u in items + {u};
      assert FitsItems(store, r, items, m);
    }
  }

  /** A submission takes the most repeats that fit, and at least one. */
  ghost predicate IsMost(t: Tables, plan: int, r: Recipe, budget: int, n: int) {
    n >= 1 && Fits(t, plan, r, budget, n) && forall m :: Fits(t, plan, r, budget, m) ==> m <= n
  }

  /** Some input of the recipe is held in less than `n` repeats take in and borrow. */
  ghost predicate TooShort(t: Tables, plan: int, r: Recipe, n: int) {
    exists u :: IsInput(r, u) && AmountIn(t, plan, u) < (AmountOf(r.ingredients, u) + AmountOf(r.catalysts, u)) * n
  }

  lemma FitsUnlessShort(t: Tables, plan: int, r: Recipe, budget: int, n: int)
    requires PositiveAmounts(r.ingredients) && PositiveAmounts(r.catalysts)
    ensures Fits(t, plan, r, budget, n) <==> n <= budget && (r.catalysts == [] || n <= 1) && !TooShort(t, plan, r, n)
  {
    forall u ensures IsInput(r, u) <==> Intake(r, u) > 0 {
      IntakePositive(r, u);
    }
    hide AmountOf, IsInput, AmountIn;
  }

  /** The repeats computed for one step, whatever the plan holds: positive exactly if one fits, and then the most. */
  method NextRepeats(t: Tables, plan: int, store: map<Uid, int>, r: Recipe, budget: int) returns (n: int)
    requires PositiveAmounts(r.ingredients) && PositiveAmounts(r.catalysts)
    requires forall u :: Get(store, u) == AmountIn(t, plan, u)
    ensures n > 0 <==> Fits(t, plan, r, budget, 1)
    ensures n > 0 ==> IsMost(t, plan, r, budget, n)
    ensures n > 0 <==> budget > 0 && !TooShort(t, plan, r, 1)
    ensures n > 0 ==> n <= budget && (r.catalysts == [] || n == 1) && !TooShort(t, plan, r, n)
    ensures n > 0 ==> n == budget || r.catalysts != [] || TooShort(t, plan, r, n + 1)
  {
    var totals := AddAmounts(map[], r.ingredients);
    totals := AddAmounts(totals, r.catalysts);
    forall u ensures
      (u in totals <==> Intake(r, u) > 0) && (u in totals ==> totals[u] == Intake(r, u)) && Intake(r, u) >= 0
    {
      IntakePositive(r, u);
      assert Get(totals, u) == Intake(r, u);
    }
    n := budget;
    if r.catalysts != [] && n > 1 {
      n := 1;
    }
    ghost var cap := n;
    ghost var fitted: set<Uid> := {};
    var rest := totals.Keys;
    while rest != {}
      invariant rest <= totals.Keys && fitted == totals.Keys - rest
      invariant Narrowed(store, r, fitted, cap, n)
    {
      var u :| u in rest;
      var q := Quotient(Get(store, u), totals[u]);
      NarrowStep(store, r, fitted, u, cap, n, q);
      n := if n <= q then n else q;
      fitted := fitted + {u};
      rest := rest - {u};
    }
    NarrowedIsMost(t, plan, store, r, budget, fitted, cap, n);
    FitsUnlessShort(t, plan, r, budget, 1);
    FitsUnlessShort(t, plan, r, budget, n);
    FitsUnlessShort(t, plan, r, budget, n + 1);
    hide Fits, TooShort, Narrowed;
  }

  lemma NarrowedIsMost(t: Tables, plan: int, store: map<Uid, int>, r: Recipe, budget: int,
                       items: set<Uid>, cap: int, n: int)
    requires forall u :: Get(store, u) == AmountIn(t, plan, u)
    requires (forall u :: u in items <==> Intake(r, u) > 0) && forall u :: Intake(r, u) >= 0
    requires cap == if r.catalysts != [] && budget > 1 then 1 else budget
    requires Narrowed(store, r, items, cap, n)
    ensures n > 0 <==> Fits(t, plan, r, budget, 1)
    ensures n > 0 ==> IsMost(t, plan, r, budget, n)
  {
    hide Intake, AmountIn;
    forall m | m >= 1 ensures Fits(t, plan, r, budget, m) <==> m <= cap && FitsItems(store, r, items, m) {
    }
    if n > 0 {
      assert FitsItems(store, r, items, 1) by {
        forall u | u in items ensures Intake(r, u) * 1 <= Get(store, u) {
          ScaledMonotone(Intake(r, u), 1, n);
        }
      }
    }
  }

  // ---------------------------------------------------------------- CheckNextSteps

  /** The plan state handed in is a current read of the plan's step rows, one per recipe. */
  ghost predicate Fresh(book: Book, t: Tables, plan: int, steps: seq<PlanStep>) {
    && (forall i :: 0 <= i < |steps| ==> FreshStep(book, t, plan, steps[i]))
    && (forall i, j :: 0 <= i < j < |steps| ==> steps[i].recipe != steps[j].recipe)
  }

  ghost predicate FreshStep(book: Book, t: Tables, plan: int, s: PlanStep) {
    && s.recipe in book && book[s.recipe].id == s.recipe
    && StepKey(plan, s.recipe) in t.steps && t.steps[StepKey(plan, s.recipe)] == s.repeats
  }

  ghost predicate CanSubmit(book: Book, t: Tables, plan: int, s: PlanStep) {
    s.recipe in book && Fits(t, plan, book[s.recipe], s.repeats, 1)
  }

  /** A submission takes the most repeats that fit, and goes through. */
  ghost predicate Submits(book: Book, t: Tables, plan: int, s: PlanStep, id: int, n: int, t': Tables) {
    && s.recipe in book && IsMost(t, plan, book[s.recipe], s.repeats, n) && id !in t.crafts
    && CanInsertCraft(t, plan, book[s.recipe], n)
    && t' == AfterInsertCraft(t, id, plan, book[s.recipe], n)
  }

  /** What the check makes of the tables at one step: a submission exactly if one repeat fits. */
  ghost predicate StepChecked(book: Book, t: Tables, plan: int, s: PlanStep, t': Tables) {
    if CanSubmit(book, t, plan, s) then exists id, n :: Submits(book, t, plan, s, id, n, t') else t' == t
  }

  /** The tables before, between and after the steps of a check, in the order the plan lists them. */
  ghost predicate Walked(book: Book, plan: int, steps: seq<PlanStep>, trace: seq<Tables>) {
    && |trace| == |steps| + 1
    && forall i :: 0 <= i < |steps| ==> StepChecked(book, trace[i], plan, steps[i], trace[i + 1])
  }

  /** One whole check: its steps, and the cleanup if anything was submitted. */
  ghost predicate Checked(book: Book, t: Tables, plan: int, steps: seq<PlanStep>, trace: seq<Tables>, t': Tables) {
    && Walked(book, plan, steps, trace) && trace[0] == t
    && t' == if trace[|steps|] == t then t else AfterCleanup(trace[|steps|], plan)
  }

  /** What fits is never refused by the insert, even when a recipe lists one item in many slots. */
  lemma FittingIsAccepted(book: Book, t: Tables, plan: int, s: PlanStep, n: int)
    requires GoodBook(book) && FreshStep(book, t, plan, s) && n >= 1
    requires Fits(t, plan, book[s.recipe], s.repeats, n)
    ensures CanInsertCraft(t, plan, book[s.recipe], n)
  {
    var r := book[s.recipe];
    forall u | Mentions(r.ingredients, u)
      ensures ItemKey(plan, u) in t.items && t.items[ItemKey(plan, u)].amount >= Need(r, u, n)
    {
      PositiveWhenMentioned(r.ingredients, u);
      PositiveWhenMentioned(r.catalysts, u);
      ScaledMonotone(Intake(r, u), 1, n);
      ScaledMonotone(n, AmountOf(r.ingredients, u), Intake(r, u));
      assert Intake(r, u) * n <= AmountIn(t, plan, u);
    }
  }

  lemma AmountsNonNegative(book: Book, t: Tables, plan: int)
    requires Valid(book, t)
    ensures forall u :: AmountIn(t, plan, u) >= 0
  {
  }

  /** The later steps of a fresh plan stay fresh when one step is checked. */
  lemma StaysFresh(book: Book, t: Tables, t': Tables, plan: int, steps: seq<PlanStep>, i: nat)
    requires i < |steps| && (forall j :: i <= j < |steps| ==> FreshStep(book, t, plan, steps[j]))
    requires forall j, k :: 0 <= j < k < |steps| ==> steps[j].recipe != steps[k].recipe
    requires StepChecked(book, t, plan, steps[i], t')
    ensures forall j :: i < j < |steps| ==> FreshStep(book, t', plan, steps[j])
  {
    hide Fits, CanInsertCraft, Spend;
    forall j | i < j < |steps| ensures FreshStep(book, t', plan, steps[j]) {
      assert FreshStep(book, t, plan, steps[i]) && FreshStep(book, t, plan, steps[j]);
      assert StepKey(plan, steps[j].recipe) != StepKey(plan, steps[i].recipe);
    }
  }

  /** While the steps are walked, crafts are only added, and the tables differ once one was. */
  lemma StepAdds(book: Book, t: Tables, plan: int, s: PlanStep, t': Tables)
    requires StepChecked(book, t, plan, s, t')
    ensures t.crafts.Keys <= t'.crafts.Keys
    ensures CanSubmit(book, t, plan, s) ==> t.crafts.Keys < t'.crafts.Keys
    ensures !CanSubmit(book, t, plan, s) ==> t' == t
  {
    hide Fits, CanInsertCraft, Spend, CanSubmit;
  }

  lemma StepKeepsValid(book: Book, t: Tables, plan: int, s: PlanStep, t': Tables)
    requires Valid(book, t) && FreshStep(book, t, plan, s) && StepChecked(book, t, plan, s, t')
    ensures Valid(book, t')
  {
    hide Valid, Fits, CanInsertCraft, AfterInsertCraft;
    if CanSubmit(book, t, plan, s) {
      var id, n :| Submits(book, t, plan, s, id, n, t');
      assert Next(book, t, InsertCraft(id, plan, s.recipe, n), t');
      NextKeepsValid(book, t, InsertCraft(id, plan, s.recipe, n), t');
    }
  }

  /** All that a walk keeps and shows. */
  lemma {:induction false} WalkFacts(book: Book, t: Tables, plan: int, steps: seq<PlanStep>, trace: seq<Tables>, n: nat)
    requires Walked(book, plan, steps, trace) && trace[0] == t && Fresh(book, t, plan, steps) && n <= |steps|
    ensures t.crafts.Keys <= trace[n].crafts.Keys
    ensures if exists i :: 0 <= i < n && CanSubmit(book, t, plan, steps[i])
            then t.crafts.Keys < trace[n].crafts.Keys else trace[n] == t
    ensures forall j :: n <= j < |steps| ==> FreshStep(book, trace[n], plan, steps[j])
    ensures Valid(book, t) ==> Valid(book, trace[n])
  {
    hide CanSubmit, StepChecked, FreshStep, Valid;
    if n > 0 {
      WalkFacts(book, t, plan, steps, trace, n - 1);
      assert StepChecked(book, trace[n - 1], plan, steps[n - 1], trace[n - 1 + 1]);
      StepAdds(book, trace[n - 1], plan, steps[n - 1], trace[n]);
      StaysFresh(book, trace[n - 1], trace[n], plan, steps, n - 1);
      if Valid(book, t) {
        StepKeepsValid(book, trace[n - 1], plan, steps[n - 1], trace[n]);
      }
    }
  }

  /** A check submits something exactly if some step can submit when it begins; otherwise nothing changes. */
  lemma CheckSubmitsIff(book: Book, t: Tables, plan: int, steps: seq<PlanStep>, trace: seq<Tables>, t': Tables)
    requires Checked(book, t, plan, steps, trace, t') && Fresh(book, t, plan, steps)
    ensures (exists s :: s in steps && CanSubmit(book, t, plan, s)) <==> trace[|steps|] != t
    ensures trace[|steps|] != t ==> t.crafts.Keys < t'.crafts.Keys
    ensures trace[|steps|] == t ==> t' == t
    ensures Valid(book, t) ==> Valid(book, t')
  {
    assert |trace| == |steps| + 1;
    hide CanSubmit, Walked, Fresh, Valid;
    WalkFacts(book, t, plan, steps, trace, |steps|);
    if s :| s in steps && CanSubmit(book, t, plan, s) {
      var i :| 0 <= i < |steps| && steps[i] == s;
    }
    CleanupIsKept(book, trace[|steps|], plan);
  }

  /**
    Walks the steps of a freshly read plan, submitting for each the most repeats that fit,
    whatever the sign of what the plan holds. No submission is refused.
   */
  method CheckNextSteps(db: Database, plan: int, steps: seq<PlanStep>)
    returns (submitted: bool, ghost trace: seq<Tables>)
    requires GoodBook(db.book) && Fresh(db.book, db.tables, plan, steps)
    modifies db`tables
    ensures Checked(db.book, old(db.tables), plan, steps, trace, db.tables)
    ensures submitted <==> exists s :: s in steps && CanSubmit(db.book, old(db.tables), plan, s)
    ensures !submitted ==> db.tables == old(db.tables)
    ensures Valid(db.book, old(db.tables)) ==> Valid(db.book, db.tables)
  {
    hide Valid, IsMost, Fits, CanInsertCraft, AfterInsertCraft, AfterCleanup, GoodBook;
    submitted, trace := false, [db.tables];
    var store := ReadStore(db.tables, plan);
    for i := 0 to |steps|
      invariant forall u :: Get(store, u) == AmountIn(db.tables, plan, u)
      invariant forall j :: i <= j < |steps| ==> FreshStep(db.book, db.tables, plan, steps[j])
      invariant Walked(db.book, plan, steps[..i], trace) && trace[0] == old(db.tables) && trace[i] == db.tables
      invariant old(db.tables).crafts.Keys <= db.tables.crafts.Keys
      invariant if submitted then old(db.tables).crafts.Keys < db.tables.crafts.Keys else db.tables == old(db.tables)
    {
      var s := steps[i];
      var r := db.book[s.recipe];
      ghost var t := db.tables;
      LinesPositive(db.book, s.recipe);
      var n := NextRepeats(db.tables, plan, store, r, s.repeats);
      if n > 0 {
        assert Fits(t, plan, r, s.repeats, n) by { MostFits(t, plan, r, s.repeats, n); }
        FittingIsAccepted(db.book, t, plan, s, n);
        var ok, id := db.InsertCraft(plan, r, n);
        assert Submits(db.book, t, plan, s, id, n, db.tables);
        submitted := true;
        store := ReadStore(db.tables, plan);
      }
      StepAdds(db.book, t, plan, s, db.tables);
      StaysFresh(db.book, t, db.tables, plan, steps, i);
      WalkOn(db.book, plan, steps, i, trace, db.tables);
      trace := trace + [db.tables];
    }
    assert steps[..|steps|] == steps;
    if submitted {
      ghost var t := db.tables;
      db.CleanupItems(plan);
      CleanedUp(t, db.tables, plan);
    }
    CheckSubmitsIff(db.book, old(db.tables), plan, steps, trace, db.tables);
  }

  lemma WalkOn(book: Book, plan: int, steps: seq<PlanStep>, i: nat, trace: seq<Tables>, t: Tables)
    requires i < |steps| && Walked(book, plan, steps[..i], trace)
    requires StepChecked(book, trace[i], plan, steps[i], t)
    ensures Walked(book, plan, steps[..i + 1], trace + [t])
  {
    hide StepChecked;
    var trace' := trace + [t];
    forall j | 0 <= j < i + 1 ensures StepChecked(book, trace'[j], plan, steps[..i + 1][j], trace'[j + 1]) {
      if j < i {
        assert StepChecked(book, trace[j], plan, steps[..i][j], trace[j + 1]);
      }
    }
  }

  lemma LinesPositive(book: Book, id: int)
    requires GoodBook(book) && id in book
    ensures PositiveAmounts(book[id].ingredients) && PositiveAmounts(book[id].catalysts)
  {
  }

  lemma MostFits(t: Tables, plan: int, r: Recipe, budget: int, n: int)
    requires IsMost(t, plan, r, budget, n)
    ensures Fits(t, plan, r, budget, n)
  {
  }

  // ---------------------------------------------------------------- a check can always be made

  lemma FreshId(ids: set<int>) returns (id: int)
    ensures id !in ids
  {
    id := 0;
    while exists x :: x in ids && x >= id
      decreases set x | x in ids && x >= id
    {
      ghost var before := set x | x in ids && x >= id;
      var x :| x in ids && x >= id;
      assert x in before;
      id := x + 1;
    }
  }

  lemma MostExists(t: Tables, plan: int, r: Recipe, budget: int) returns (n: int)
    requires Fits(t, plan, r, budget, 1)
    ensures IsMost(t, plan, r, budget, n)
  {
    hide Fits;
    BudgetBounds(t, plan, r, budget);
    n := budget;
    while !Fits(t, plan, r, budget, n)
      invariant n >= 1 && forall m :: Fits(t, plan, r, budget, m) ==> m <= n
      decreases n
    {
      n := n - 1;
    }
  }

  lemma BudgetBounds(t: Tables, plan: int, r: Recipe, budget: int)
    ensures forall m :: Fits(t, plan, r, budget, m) ==> m <= budget
  {
  }

  lemma StepCanBeChecked(book: Book, t: Tables, plan: int, s: PlanStep) returns (t': Tables)
    requires GoodBook(book) && FreshStep(book, t, plan, s)
    ensures StepChecked(book, t, plan, s, t')
  {
    t' := t;
    if CanSubmit(book, t, plan, s) {
      var r := book[s.recipe];
      var n := MostExists(t, plan, r, s.repeats);
      hide Fits, GoodBook, CanInsertCraft, Spend;
      FittingIsAccepted(book, t, plan, s, n);
      assert StepKey(plan, r.id) in t.steps;
      var id := FreshId(t.crafts.Keys);
      t' := AfterInsertCraft(t, id, plan, r, n);
      assert Submits(book, t, plan, s, id, n, t');
    }
  }

  lemma {:induction false} WalkExists(book: Book, t: Tables, plan: int, steps: seq<PlanStep>, n: nat)
    returns (trace: seq<Tables>)
    requires GoodBook(book) && Fresh(book, t, plan, steps) && n <= |steps|
    ensures Walked(book, plan, steps[..n], trace) && trace[0] == t
    ensures forall j :: n <= j < |steps| ==> FreshStep(book, trace[n], plan, steps[j])
  {
    hide GoodBook, StepChecked, FreshStep;
    trace := [t];
    if n > 0 {
      trace := WalkExists(book, t, plan, steps, n - 1);
      var t' := StepCanBeChecked(book, trace[n - 1], plan, steps[n - 1]);
      StaysFresh(book, trace[n - 1], t', plan, steps, n - 1);
      WalkOn(book, plan, steps, n - 1, trace, t');
      trace := trace + [t'];
    }
  }

  /** In every state there is a check of the plan's current steps. */
  lemma CheckExists(book: Book, t: Tables, plan: int, steps: seq<PlanStep>) returns (trace: seq<Tables>, t': Tables)
    requires GoodBook(book) && Fresh(book, t, plan, steps)
    ensures Checked(book, t, plan, steps, trace, t')
  {
    hide GoodBook, Fresh, StepChecked;
    trace := WalkExists(book, t, plan, steps, |steps|);
    assert steps[..|steps|] == steps;
    t' := if trace[|steps|] == t then t else AfterCleanup(trace[|steps|], plan);
  }

  // ---------------------------------------------------------------- what a check leaves

  lemma SpentAmount(t: Tables, t': Tables, plan: int, r: Recipe, n: int, u: Uid)
    requires CanInsertCraft(t, plan, r, n) && t'.items == Spend(t.items, plan, r, n)
    ensures AmountIn(t', plan, u) == AmountIn(t, plan, u) - Need(r, u, n)
  {
    if ItemKey(plan, u) !in t.items {
      AmountOfNone(r.ingredients, u);
    }
  }

  /** A step with catalysts has no more than one repeat left. */
  ghost predicate AtMostOnce(book: Book, plan: int, t: Tables) {
    forall k :: k in t.steps && k.plan == plan && RecipeOf(book, k.recipe).catalysts != [] ==> t.steps[k] <= 1
  }

  ghost predicate NothingFits(book: Book, plan: int, t: Tables, recipe: int) {
    StepKey(plan, recipe) in t.steps ==>
      !CanSubmit(book, t, plan, PlanStep(recipe, t.steps[StepKey(plan, recipe)]))
  }

  ghost predicate NoStepFits(book: Book, plan: int, t: Tables) {
    forall k :: k in t.steps && k.plan == plan ==> NothingFits(book, plan, t, k.recipe)
  }

  /** What fits after a submission would have fitted into it. */
  lemma MoreWouldFit(book: Book, t: Tables, plan: int, s: PlanStep, id: int, n: int, t': Tables)
    requires Submits(book, t, plan, s, id, n, t') && FreshStep(book, t, plan, s) && book[s.recipe].catalysts == []
    requires Fits(t', plan, book[s.recipe], s.repeats - n, 1)
    ensures Fits(t, plan, book[s.recipe], s.repeats, n + 1)
  {
    var r := book[s.recipe];
    forall u | Intake(r, u) > 0 ensures Intake(r, u) * (n + 1) <= AmountIn(t, plan, u) {
      SpentAmount(t, t', plan, r, n, u);
      assert Intake(r, u) * 1 <= AmountIn(t', plan, u);
      assert Intake(r, u) == AmountOf(r.ingredients, u);
      assert AmountOf(r.ingredients, u) * (n + 1) == AmountOf(r.ingredients, u) * n + AmountOf(r.ingredients, u);
    }
  }

  /** Right after its turn in a check a step has nothing that fits. */
  lemma StepLeavesNothing(book: Book, t: Tables, plan: int, s: PlanStep, t': Tables)
    requires StepChecked(book, t, plan, s, t') && FreshStep(book, t, plan, s)
    requires book[s.recipe].catalysts != [] ==> s.repeats <= 1
    ensures NothingFits(book, plan, t', s.recipe)
  {
    hide Fits, CanInsertCraft, Spend;
    if CanSubmit(book, t, plan, s) {
      var id, n :| Submits(book, t, plan, s, id, n, t');
      assert t'.steps[StepKey(plan, s.recipe)] == s.repeats - n;
      if Fits(t', plan, book[s.recipe], s.repeats - n, 1) {
        FitsBudget(t', plan, book[s.recipe], s.repeats - n, 1);
        MoreWouldFit(book, t, plan, s, id, n, t');
        assert false;
      }
    }
  }

  lemma FitsBudget(t: Tables, plan: int, r: Recipe, budget: int, n: int)
    requires Fits(t, plan, r, budget, n)
    ensures n <= budget
  {
  }

  /** The submissions of other steps let nothing more fit. */
  lemma OthersLeaveNothing(book: Book, t: Tables, plan: int, s: PlanStep, t': Tables, recipe: int)
    requires GoodBook(book) && StepChecked(book, t, plan, s, t') && FreshStep(book, t, plan, s)
    requires NothingFits(book, plan, t, recipe) && s.recipe != recipe
    ensures NothingFits(book, plan, t', recipe)
  {
    if CanSubmit(book, t, plan, s) {
      var id, n :| Submits(book, t, plan, s, id, n, t');
      forall u ensures AmountIn(t', plan, u) <= AmountIn(t, plan, u) {
        SpentAmount(t, t', plan, book[s.recipe], n, u);
        NeedBounds(book, s.recipe, u, 0, n);
      }
      assert StepKey(plan, recipe) != StepKey(plan, s.recipe);
      hide AmountIn, Intake, Spend, CanInsertCraft, IsMost;
    }
  }

  lemma StepRowsFall(book: Book, t: Tables, plan: int, s: PlanStep, t': Tables)
    requires StepChecked(book, t, plan, s, t')
    ensures t'.steps.Keys == t.steps.Keys && forall k :: k in t.steps ==> t'.steps[k] <= t.steps[k]
  {
    hide Fits, Spend;
    if CanSubmit(book, t, plan, s) {
      var id, n :| Submits(book, t, plan, s, id, n, t');
      assert t'.steps.Keys == t.steps.Keys;
    }
  }

  /** While the steps are walked, those that had their turn are left with nothing that fits. */
  lemma {:induction false} WalkLeavesNothing(book: Book, t: Tables, plan: int, steps: seq<PlanStep>,
                                             trace: seq<Tables>, n: nat)
    requires Walked(book, plan, steps, trace) && trace[0] == t && Fresh(book, t, plan, steps) && n <= |steps|
    requires GoodBook(book) && AtMostOnce(book, plan, t)
    ensures forall i :: 0 <= i < n ==> NothingFits(book, plan, trace[n], steps[i].recipe)
    ensures trace[n].steps.Keys == t.steps.Keys && forall k :: k in t.steps ==> trace[n].steps[k] <= t.steps[k]
  {
    if n > 0 {
      WalkLeavesNothing(book, t, plan, steps, trace, n - 1);
      WalkFacts(book, t, plan, steps, trace, n - 1);
      var s := steps[n - 1];
      assert StepChecked(book, trace[n - 1], plan, s, trace[n - 1 + 1]) && FreshStep(book, t, plan, s);
      hide StepChecked, NothingFits, Walked, GoodBook;
      StepRowsFall(book, trace[n - 1], plan, s, trace[n]);
      assert book[s.recipe].catalysts != [] ==> s.repeats <= 1 by {
        assert StepKey(plan, s.recipe) in t.steps && RecipeOf(book, s.recipe) == book[s.recipe];
      }
      StepLeavesNothing(book, trace[n - 1], plan, s, trace[n]);
      forall i | 0 <= i < n - 1 ensures NothingFits(book, plan, trace[n], steps[i].recipe) {
        OthersLeaveNothing(book, trace[n - 1], plan, s, trace[n], steps[i].recipe);
      }
    }
  }

  lemma CleanedAmount(t: Tables, p: int, plan: int, u: Uid)
    ensures AmountIn(AfterCleanup(t, p), plan, u) == AmountIn(t, plan, u)
  {
  }

  lemma CleanupLeavesNothing(book: Book, t: Tables, plan: int, recipe: int)
    requires NothingFits(book, plan, t, recipe)
    ensures NothingFits(book, plan, AfterCleanup(t, plan), recipe)
  {
    forall u ensures AmountIn(AfterCleanup(t, plan), plan, u) == AmountIn(t, plan, u) {
      CleanedAmount(t, plan, plan, u);
    }
    hide AmountIn, Intake;
  }

  /**
    A check submits a step with catalysts for one repeat at most. If no such step has more left,
    nothing fits after a check: the next one submits nothing until the plan's items change.
   */
  lemma CheckLeavesNothing(book: Book, t: Tables, plan: int, steps: seq<PlanStep>, trace: seq<Tables>, t': Tables)
    requires Checked(book, t, plan, steps, trace, t') && Fresh(book, t, plan, steps) && GoodBook(book)
    requires AtMostOnce(book, plan, t)
    requires forall k :: k in t.steps && k.plan == plan ==> exists i :: 0 <= i < |steps| && steps[i].recipe == k.recipe
    ensures NoStepFits(book, plan, t') && AtMostOnce(book, plan, t')
  {
    WalkLeavesNothing(book, t, plan, steps, trace, |steps|);
    hide Walked, NothingFits, Fresh, GoodBook;
    forall k | k in t'.steps && k.plan == plan ensures NothingFits(book, plan, t', k.recipe) {
      var i :| 0 <= i < |steps| && steps[i].recipe == k.recipe;
      assert NothingFits(book, plan, trace[|steps|], steps[i].recipe);
      CleanupLeavesNothing(book, trace[|steps|], plan, k.recipe);
    }
  }
}
