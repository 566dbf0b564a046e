/**
  The start of a craft on a processing machine: its tables and the transfer it asks for
  (internal/services/worker/processing_crafter_worker.go).
 */
module ProcessingRequest {
  import opened Recipes
  import opened Ledger
  import opened LedgerRuns
  import opened Transfer
  import opened Deliveries

  /**
    A machine as configured: an empty name means that it has no such inlet or outlet, an empty
    list of results that every result is taken.
   */
  datatype Machine = Machine(
    worker: string,
    wait: bool,
    inventory: string,
    tank: string,
    resultInventory: string,
    resultItems: seq<Uid>,
    resultTank: string,
    resultFluids: seq<Uid>)

  /**
    What the requests of a machine pass through: the stores that transfers are set up in, and the
    most that one slot or tank of them takes of an item, where that is limited.
   */
  datatype Site = Site(cfg: Config, room: map<Uid, int>)

  const FLUID_PREFIX := "fluid:"

  predicate IsFluid(u: Uid) {
    FLUID_PREFIX <= u.name
  }

  /** A fluid's own name, without the prefix that marks fluids among the items. */
  function FluidUid(u: Uid): Uid {
    if IsFluid(u) then Uid(u.name[|FLUID_PREFIX|..]) else u
  }

  function FluidItem(fluid: Uid): Uid {
    Uid(FLUID_PREFIX + fluid.name)
  }

  /** The machine has the inlets that the recipe's inputs need. */
  predicate Accepts(m: Machine, r: Recipe) {
    && (forall i :: 0 <= i < |r.ingredients| ==>
        if IsFluid(r.ingredients[i].uid) then m.tank != "" else m.inventory != "")
    && (r.catalysts != [] ==> m.inventory != "")
  }

  predicate Matches(values: seq<Uid>, u: Uid) {
    values == [] || u in values
  }

  /** An outlet of the machine shows the item. */
  predicate Shows(m: Machine, u: Uid) {
    if IsFluid(u) then m.resultTank != "" && Matches(m.resultFluids, FluidUid(u))
    else m.resultInventory != "" && Matches(m.resultItems, u)
  }

  /** Something that comes back from a craft is seen: a result, or a catalyst. */
  predicate ShowsOutput(m: Machine, r: Recipe) {
    || (exists i :: 0 <= i < |r.results| && Shows(m, r.results[i].uid))
    || exists i :: 0 <= i < |r.catalysts| && Shows(m, r.catalysts[i].uid)
  }

  /** The tables after a craft's start: the commit, and in the same transaction a wait row or the completion. */
  function AfterStart(m: Machine, t: Tables, id: int, r: Recipe, n: int): Tables
    requires id in t.crafts
  {
    if m.wait then AddWait(AfterCommit(t, id, r, n), id, m.worker) else AfterComplete(AfterCommit(t, id, r, n), id)
  }

  /** The lines that hold fluids, or those that do not, in order. */
  function Sorted(lines: seq<RecipeItem>, fluid: bool): seq<RecipeItem> {
    if lines == [] then []
    else
      var last := lines[|lines| - 1];
      Sorted(lines[..|lines| - 1], fluid) + if IsFluid(last.uid) == fluid then [last] else []
  }

  /** The lines that travel as items: the solid ingredients, then the catalysts. */
  function Solids(r: Recipe): seq<RecipeItem> {
    Sorted(r.ingredients, false) + r.catalysts
  }

  function Fluids(r: Recipe): seq<RecipeItem> {
    Sorted(r.ingredients, true)
  }

  /** A line goes to the slot it names, or to the one after the line before it. */
  ghost predicate FillsSlots(lines: seq<RecipeItem>, items: seq<Asked>) {
    && |items| == |lines|
    && forall i :: 0 <= i < |lines| ==>
      items[i].target.slot == if lines[i].slot.Some? then lines[i].slot.value else SlotBefore(items, i) + 1
  }

  function SlotBefore(items: seq<Asked>, i: nat): int
    requires i <= |items|
  {
    if i == 0 then 0 else items[i - 1].target.slot
  }

  ghost predicate AsksItems(m: Machine, lines: seq<RecipeItem>, items: seq<Asked>) {
    && FillsSlots(lines, items)
    && forall i :: 0 <= i < |lines| ==>
      items[i].uid == lines[i].uid && items[i].amount == lines[i].amount && items[i].target.store == m.inventory
  }

  ghost predicate AsksFluids(m: Machine, lines: seq<RecipeItem>, fluids: seq<Asked>) {
    && |fluids| == |lines|
    && forall i :: 0 <= i < |lines| ==>
      fluids[i] == Asked(FluidUid(lines[i].uid), Place(m.tank, 0), lines[i].amount)
  }

  /** The request for one repeat of the recipe. */
  ghost predicate RequestFor(m: Machine, r: Recipe, req: Request) {
    AsksItems(m, Solids(r), req.items) && AsksFluids(m, Fluids(r), req.fluids)
  }

  // ---------------------------------------------------------------- which requests go through

  /** The checks made of every request for the recipe before a transfer is set up. */
  predicate Admissible(cfg: Config, r: Recipe) {
    && (Solids(r) != [] || Fluids(r) != [])
    && |Solids(r)| <= 27
    && (Solids(r) != [] ==> cfg.itemStore != "")
    && |Fluids(r)| <= |cfg.tanks|
    && forall i :: 0 <= i < |Fluids(r)| ==> cfg.tanks[i] != ""
  }

  predicate HasRoom(site: Site, line: RecipeItem) {
    line.uid in site.room ==> line.amount <= site.room[line.uid]
  }

  /**
    The setup can find all it asks for, each line in one slot or tank: catalysts are looked for
    among the items, and no store is locked twice.
   */
  predicate Stageable(site: Site, r: Recipe) {
    && (forall i :: 0 <= i < |r.ingredients| ==> HasRoom(site, r.ingredients[i]))
    && (forall i :: 0 <= i < |r.catalysts| ==> HasRoom(site, r.catalysts[i]) && !IsFluid(r.catalysts[i].uid))
    && |Fluids(r)| <= |site.cfg.tanks|
    && (forall i, j :: 0 <= i < j < |Fluids(r)| ==> site.cfg.tanks[i] != site.cfg.tanks[j])
    && (Solids(r) != [] ==> site.cfg.itemStore !in site.cfg.tanks[..|Fluids(r)|])
  }

  /** The machine takes the recipe on: no request for it is refused whatever is in storage. */
  predicate TakesOn(m: Machine, site: Site, r: Recipe) {
    Accepts(m, r) && Admissible(site.cfg, r) && Stageable(site, r)
  }

  lemma {:induction false} SortedArePositive(lines: seq<RecipeItem>, fluid: bool)
    requires PositiveAmounts(lines)
    ensures PositiveAmounts(Sorted(lines, fluid))
  {
    if lines != [] {
      SortedArePositive(lines[..|lines| - 1], fluid);
    }
  }

  /** A recipe's request is admitted if and only if the recipe passes the checks. */
  lemma AdmittedIff(cfg: Config, m: Machine, r: Recipe, req: Request)
    requires RequestFor(m, r, req) && PositiveAmounts(r.ingredients) && PositiveAmounts(r.catalysts)
    ensures Admitted(cfg, req) <==> Admissible(cfg, r)
  {
    SortedArePositive(r.ingredients, false);
    SortedArePositive(r.ingredients, true);
    assert forall i :: 0 <= i < |Fluids(r)| ==> req.fluids[i].amount == Fluids(r)[i].amount;
    hide Sorted, IsFluid, FluidUid;
  }

  const WALL := [RecipeItem(Uid("wall"), 1, None)]
  const FROM_MANY := Recipe(1, None, WALL, seq(28, _ => RecipeItem(Uid("stone"), 1, None)), [])
  const FROM_TWO_FLUIDS := Recipe(2, None, WALL,
    [RecipeItem(Uid("fluid:water"), 1000, None), RecipeItem(Uid("fluid:lava"), 1000, None)], [])
  const FROM_NOTHING := Recipe(3, None, WALL, [], [])

  lemma {:induction false} AllSolid(lines: seq<RecipeItem>)
    requires forall i :: 0 <= i < |lines| ==> !IsFluid(lines[i].uid)
    ensures Sorted(lines, false) == lines
  {
    if lines != [] {
      AllSolid(lines[..|lines| - 1]);
    }
  }

  lemma {:induction false} AllFluid(lines: seq<RecipeItem>)
    requires forall i :: 0 <= i < |lines| ==> IsFluid(lines[i].uid)
    ensures Sorted(lines, true) == lines
  {
    if lines != [] {
      AllFluid(lines[..|lines| - 1]);
    }
  }

  /**
    Three recipes that nothing else is wrong with, and whose requests are refused every time, by
    machines with all inlets: 28 item lines, two fluids with one transaction tank, no input at all.
   */
  lemma RefusedRecipes(m: Machine, cfg: Config, req: Request)
    requires m.inventory != "" && m.tank != ""
    ensures forall r :: r in [FROM_MANY, FROM_TWO_FLUIDS, FROM_NOTHING] ==> WellFormed(r) && Accepts(m, r)
    ensures RequestFor(m, FROM_MANY, req) || RequestFor(m, FROM_NOTHING, req) ==> !Admitted(cfg, req)
    ensures RequestFor(m, FROM_TWO_FLUIDS, req) && |cfg.tanks| <= 1 ==> !Admitted(cfg, req)
  {
    assert FLUID_PREFIX <= "fluid:water" && FLUID_PREFIX <= "fluid:lava" && "stone"[0] != FLUID_PREFIX[0];
    AllSolid(FROM_MANY.ingredients);
    AllFluid(FROM_TWO_FLUIDS.ingredients);
    forall r | r in [FROM_MANY, FROM_TWO_FLUIDS, FROM_NOTHING] && RequestFor(m, r, req)
      ensures Admitted(cfg, req) <==> Admissible(cfg, r)
    {
      AdmittedIff(cfg, m, r, req);
    }
  }

  const FROM_MOST := Recipe(4, None, WALL, seq(27, _ => RecipeItem(Uid("stone"), 1, None)), [])

  lemma StonesAreSolid()
    ensures Solids(FROM_MOST) == FROM_MOST.ingredients && Fluids(FROM_MOST) == []
  {
    assert "stone"[0] != FLUID_PREFIX[0];
    assert !IsFluid(Uid("stone"));
    hide Sorted, IsFluid;
    AllSolid(FROM_MOST.ingredients);
    SplitFluids(FROM_MOST.ingredients, false);
  }

  lemma WaterAndLavaAreFluid()
    ensures Fluids(FROM_TWO_FLUIDS) == FROM_TWO_FLUIDS.ingredients && Solids(FROM_TWO_FLUIDS) == []
  {
    assert FLUID_PREFIX <= "fluid:water" && FLUID_PREFIX <= "fluid:lava";
    hide Sorted;
    AllFluid(FROM_TWO_FLUIDS.ingredients);
    SplitFluids(FROM_TWO_FLUIDS.ingredients, true);
  }

  /** What the checks let through: 27 item lines, and as many fluids as there are transaction tanks. */
  lemma AdmittedRecipes(m: Machine, cfg: Config, req: Request)
    requires cfg.itemStore != "" && forall i :: 0 <= i < |cfg.tanks| ==> cfg.tanks[i] != ""
    ensures RequestFor(m, FROM_MOST, req) ==> Admitted(cfg, req)
    ensures RequestFor(m, FROM_TWO_FLUIDS, req) && |cfg.tanks| >= 2 ==> Admitted(cfg, req)
  {
    StonesAreSolid();
    WaterAndLavaAreFluid();
    hide RequestFor, Admitted, Sorted, Solids, Fluids;
    if RequestFor(m, FROM_MOST, req) {
      AdmittedIff(cfg, m, FROM_MOST, req);
    }
    if RequestFor(m, FROM_TWO_FLUIDS, req) {
      AdmittedIff(cfg, m, FROM_TWO_FLUIDS, req);
    }
  }

  lemma SplitFluids(lines: seq<RecipeItem>, fluid: bool)
    requires forall i :: 0 <= i < |lines| ==> IsFluid(lines[i].uid) == fluid
    ensures Sorted(lines, !fluid) == []
  {
    SortedIsEmptyIff(lines, !fluid);
  }

  lemma SortedStep(lines: seq<RecipeItem>, i: nat, fluid: bool)
    requires i < |lines|
    ensures Sorted(lines[..i + 1], fluid)
         == if IsFluid(lines[i].uid) == fluid then Sorted(lines[..i], fluid) + [lines[i]] else Sorted(lines[..i], fluid)
  {
    assert lines[..i + 1][..i] == lines[..i];
  }

  lemma AsksOneMore(m: Machine, lines: seq<RecipeItem>, items: seq<Asked>, line: RecipeItem, slot: int)
    requires AsksItems(m, lines, items)
    requires slot == if line.slot.Some? then line.slot.value else SlotBefore(items, |items|) + 1
    ensures var items' := items + [Asked(line.uid, Place(m.inventory, slot), line.amount)];
      AsksItems(m, lines + [line], items') && SlotBefore(items', |items'|) == slot
  {
    var items' := items + [Asked(line.uid, Place(m.inventory, slot), line.amount)];
    assert forall i :: 0 <= i <= |lines| ==> SlotBefore(items', i) == SlotBefore(items, i);
  }

  /** No entry is without a store to go to. */
  ghost predicate GoesInside(req: Request) {
    && (forall i :: 0 <= i < |req.items| ==> req.items[i].target.store != "")
    && (forall i :: 0 <= i < |req.fluids| ==> req.fluids[i].target.store != "")
  }

  lemma {:induction false} SortedIsEmptyIff(lines: seq<RecipeItem>, fluid: bool)
    ensures Sorted(lines, fluid) == [] <==> forall i :: 0 <= i < |lines| ==> IsFluid(lines[i].uid) != fluid
  {
    if lines != [] {
      SortedIsEmptyIff(lines[..|lines| - 1], fluid);
      assert forall i :: 0 <= i < |lines| - 1 ==> lines[..|lines| - 1][i] == lines[i];
    }
  }

  /** The machine accepts a recipe exactly if it has an inventory for its solids and a tank for its fluids. */
  lemma AcceptedGoesInside(m: Machine, r: Recipe)
    ensures Accepts(m, r) <==> (Solids(r) == [] || m.inventory != "") && (Fluids(r) == [] || m.tank != "")
    ensures Accepts(m, r) ==> forall req :: RequestFor(m, r, req) ==> GoesInside(req)
  {
    SortedIsEmptyIff(r.ingredients, false);
    SortedIsEmptyIff(r.ingredients, true);
    hide Sorted, IsFluid, FluidUid;
  }

  /** The loops over ingredients and catalysts; the request fails at the first line without an inlet. */
  method BuildRequest(m: Machine, r: Recipe) returns (req: Option<Request>)
    ensures req.Some? <==> Accepts(m, r)
    ensures req.Some? ==> RequestFor(m, r, req.value) && GoesInside(req.value)
    ensures req.None? ==> (Solids(r) != [] && m.inventory == "") || (Fluids(r) != [] && m.tank == "")
  {
    AcceptedGoesInside(m, r);
    hide Sorted, AsksItems, IsFluid, FluidUid, GoesInside;
    var items, fluids: seq<Asked> := [], [];
    var slot := 0;
    assert AsksItems(m, Sorted(r.ingredients[..0], false), items)
      && AsksFluids(m, Sorted(r.ingredients[..0], true), fluids) by {
      AsksNothing(m, r.ingredients);
    }
    for i := 0 to |r.ingredients|
      invariant AsksItems(m, Sorted(r.ingredients[..i], false), items)
      invariant AsksFluids(m, Sorted(r.ingredients[..i], true), fluids)
      invariant slot == SlotBefore(items, |items|)
      invariant forall j :: 0 <= j < i ==> if IsFluid(r.ingredients[j].uid) then m.tank != "" else m.inventory != ""
    {
      var line := r.ingredients[i];
      SortedStep(r.ingredients, i, false);
      SortedStep(r.ingredients, i, true);
      if IsFluid(line.uid) {
        if m.tank == "" {
          return None;
        }
        fluids := fluids + [Asked(FluidUid(line.uid), Place(m.tank, 0), line.amount)];
      } else {
        if m.inventory == "" {
          return None;
        }
        slot := if line.slot.Some? then line.slot.value else slot + 1;
        AsksOneMore(m, Sorted(r.ingredients[..i], false), items, line, slot);
        items := items + [Asked(line.uid, Place(m.inventory, slot), line.amount)];
      }
    }
    assert r.ingredients[..|r.ingredients|] == r.ingredients;
    ghost var solids := Sorted(r.ingredients, false);
    assert solids + r.catalysts[..0] == solids;
    for i := 0 to |r.catalysts|
      invariant AsksItems(m, solids + r.catalysts[..i], items)
      invariant slot == SlotBefore(items, |items|)
      invariant i > 0 ==> m.inventory != ""
    {
      if m.inventory == "" {
        return None;
      }
      var line := r.catalysts[i];
      slot := if line.slot.Some? then line.slot.value else slot + 1;
      AsksOneMore(m, solids + r.catalysts[..i], items, line, slot);
      items := items + [Asked(line.uid, Place(m.inventory, slot), line.amount)];
      assert solids + r.catalysts[..i] + [line] == solids + r.catalysts[..i + 1];
    }
    assert r.catalysts[..|r.catalysts|] == r.catalysts;
    req := Some(Request(items, fluids));
  }

  lemma AsksNothing(m: Machine, lines: seq<RecipeItem>)
    ensures AsksItems(m, Sorted(lines[..0], false), []) && AsksFluids(m, Sorted(lines[..0], true), [])
  {
  }

  // ---------------------------------------------------------------- what a request moves

  /** The amount of an item, named as in the recipes, over the lines of a request. */
  function AskedOf(asked: seq<Asked>, fluid: bool, u: Uid): int {
    if asked == [] then 0
    else
      var last := asked[|asked| - 1];
      AskedOf(asked[..|asked| - 1], fluid, u)
        + if (if fluid then FluidItem(last.uid) else last.uid) == u then last.amount else 0
  }

  lemma {:induction false} AskedItems(m: Machine, lines: seq<RecipeItem>, items: seq<Asked>, u: Uid)
    requires AsksItems(m, lines, items)
    ensures AskedOf(items, false, u) == AmountOf(lines, u)
  {
    if lines != [] {
      var n := |lines| - 1;
      assert forall i :: 0 <= i <= n ==> SlotBefore(items[..n], i) == SlotBefore(items, i);
      AskedItems(m, lines[..n], items[..n], u);
    }
  }

  lemma FluidNamed(u: Uid)
    requires IsFluid(u)
    ensures FluidItem(FluidUid(u)) == u
  {
    assert u.name == u.name[..|FLUID_PREFIX|] + u.name[|FLUID_PREFIX|..];
  }

  lemma {:induction false} SortedAreFluids(lines: seq<RecipeItem>, fluid: bool)
    ensures forall i :: 0 <= i < |Sorted(lines, fluid)| ==> IsFluid(Sorted(lines, fluid)[i].uid) == fluid
  {
    if lines != [] {
      SortedAreFluids(lines[..|lines| - 1], fluid);
    }
  }

  lemma {:induction false} AskedFluids(m: Machine, lines: seq<RecipeItem>, fluids: seq<Asked>, u: Uid)
    requires AsksFluids(m, lines, fluids) && forall i :: 0 <= i < |lines| ==> IsFluid(lines[i].uid)
    ensures AskedOf(fluids, true, u) == AmountOf(lines, u)
  {
    if lines != [] {
      var n := |lines| - 1;
      FluidNamed(lines[n].uid);
      AskedFluids(m, lines[..n], fluids[..n], u);
    }
  }

  lemma {:induction false} SortedAmounts(lines: seq<RecipeItem>, u: Uid)
    ensures AmountOf(Sorted(lines, false), u) + AmountOf(Sorted(lines, true), u) == AmountOf(lines, u)
  {
    if lines != [] {
      var n := |lines| - 1;
      SortedAmounts(lines[..n], u);
      var fluid := IsFluid(lines[n].uid);
      AmountOfAppend(Sorted(lines[..n], fluid), [lines[n]], u);
      assert [lines[n]][..0] == [] && AmountOf([lines[n]], u) == if lines[n].uid == u then lines[n].amount else 0;
      assert Sorted(lines, !fluid) == Sorted(lines[..n], !fluid);
    }
  }

  lemma {:induction false} AmountOfAppend(a: seq<RecipeItem>, b: seq<RecipeItem>, u: Uid)
    ensures AmountOf(a + b, u) == AmountOf(a, u) + AmountOf(b, u)
  {
    if b == [] {
      assert a + b == a;
    } else {
      var n := |b| - 1;
      AmountOfAppend(a, b[..n], u);
      assert (a + b)[..|a| + n] == a + b[..n];
    }
  }

  /** A request moves one repeat's ingredients and catalysts, to the last item. */
  lemma RequestAmounts(m: Machine, r: Recipe, req: Request, u: Uid)
    requires RequestFor(m, r, req)
    ensures AskedOf(req.items, false, u) + AskedOf(req.fluids, true, u)
         == AmountOf(r.ingredients, u) + AmountOf(r.catalysts, u)
  {
    AskedItems(m, Solids(r), req.items, u);
    SortedAreFluids(r.ingredients, true);
    AskedFluids(m, Fluids(r), req.fluids, u);
    AmountOfAppend(Sorted(r.ingredients, false), r.catalysts, u);
    SortedAmounts(r.ingredients, u);
  }

  // ---------------------------------------------------------------- where a request moves it

  /** The slot of the machine for a line: the one it names, or the next one after the line before it, from 1 on. */
  function SlotAt(lines: seq<RecipeItem>, i: nat): int
    requires i < |lines|
  {
    match lines[i].slot
    case Some(n) => n
    case None => if i == 0 then 1 else SlotAt(lines, i - 1) + 1
  }

  /** After a line that names its slot, lines without one fill the slots that follow; without any, slots 1, 2, 3. */
  lemma {:induction false} SlotsFollow(lines: seq<RecipeItem>, j: nat, i: nat)
    requires j <= i < |lines| && forall k :: j < k <= i ==> lines[k].slot.None?
    ensures lines[j].slot.Some? ==> SlotAt(lines, i) == lines[j].slot.value + (i - j)
    ensures j == 0 && lines[0].slot.None? ==> SlotAt(lines, i) == i + 1
    decreases i
  {
    if i > j {
      SlotsFollow(lines, j, i - 1);
    }
  }

  /** The amount of an item that lines going as items owe to a place. */
  function DueItems(m: Machine, lines: seq<RecipeItem>, p: Place, u: Uid): int {
    if lines == [] then 0
    else
      var n := |lines| - 1;
      DueItems(m, lines[..n], p, u)
        + if Place(m.inventory, SlotAt(lines, n)) == p && lines[n].uid == u then lines[n].amount else 0
  }

  /** The amount of a fluid, by its own name, that fluid lines owe to a place. */
  function DueFluids(m: Machine, lines: seq<RecipeItem>, p: Place, u: Uid): int {
    if lines == [] then 0
    else
      var n := |lines| - 1;
      DueFluids(m, lines[..n], p, u)
        + if Place(m.tank, 0) == p && FluidUid(lines[n].uid) == u then lines[n].amount else 0
  }

  /**
    What one repeat of a recipe has to bring to a place: to each slot of the machine's inventory
    the solid ingredients and catalysts of that slot, and to its tank the fluids.
   */
  function DueTo(m: Machine, r: Recipe, p: Place, u: Uid): int {
    DueItems(m, Solids(r), p, u) + DueFluids(m, Fluids(r), p, u)
  }

  lemma {:induction false} FilledSlots(lines: seq<RecipeItem>, items: seq<Asked>, i: nat)
    requires FillsSlots(lines, items) && i < |lines|
    ensures items[i].target.slot == SlotAt(lines, i)
  {
    if i > 0 {
      FilledSlots(lines, items, i - 1);
    }
  }

  lemma {:induction false} ItemsAreDue(m: Machine, lines: seq<RecipeItem>, items: seq<Asked>, p: Place, u: Uid)
    requires AsksItems(m, lines, items)
    ensures AskedAt(items, p, u) == DueItems(m, lines, p, u)
  {
    if lines != [] {
      var n := |lines| - 1;
      assert forall i :: 0 <= i <= n ==> SlotBefore(items[..n], i) == SlotBefore(items, i);
      ItemsAreDue(m, lines[..n], items[..n], p, u);
      FilledSlots(lines, items, n);
    }
  }

  lemma {:induction false} FluidsAreDue(m: Machine, lines: seq<RecipeItem>, fluids: seq<Asked>, p: Place, u: Uid)
    requires AsksFluids(m, lines, fluids)
    ensures AskedAt(fluids, p, u) == DueFluids(m, lines, p, u)
  {
    if lines != [] {
      var n := |lines| - 1;
      FluidsAreDue(m, lines[..n], fluids[..n], p, u);
    }
  }

  /** A request asks for what one repeat is due, place by place. */
  lemma RequestIsDue(m: Machine, r: Recipe, req: Request, p: Place, u: Uid)
    requires RequestFor(m, r, req)
    ensures AskedTo(req, p, u) == DueTo(m, r, p, u)
  {
    ItemsAreDue(m, Solids(r), req.items, p, u);
    FluidsAreDue(m, Fluids(r), req.fluids, p, u);
  }
}
