/**
  The warm-storage index (internal/services/storage/multiple_chests_store.go): stacks per item,
  used slots, free-slot counters and totals, all derived from what the chests hold.
 */
module WarmIndex {
  import opened Recipes
  import opened Sums

  datatype SlotRef = SlotRef(inventory: string, slot: int)
  datatype Pile = Pile(uid: Uid, count: int)
  datatype StoreInventory = StoreInventory(freeSlots: int, size: int)

  /** What the slots hold; a slot that is missing is empty. */
  type Content = map<SlotRef, Pile>

  datatype Index = Index(
    stacks: map<Uid, map<SlotRef, int>>,
    inventories: map<string, StoreInventory>,
    used: set<SlotRef>,
    stats: map<Uid, int>)

  function StacksOf(stacks: map<Uid, map<SlotRef, int>>, u: Uid): map<SlotRef, int> {
    if u in stacks then stacks[u] else map[]
  }

  function StockOf(content: Content, u: Uid): map<SlotRef, int> {
    map ref | ref in content && content[ref].uid == u :: content[ref].count
  }

  ghost function Total(content: Content, u: Uid): int {
    Sum(StockOf(content, u))
  }

  function SlotsIn(content: Content, name: string): set<SlotRef> {
    set ref | ref in content && ref.inventory == name
  }

  predicate InRange(inventories: map<string, StoreInventory>, ref: SlotRef) {
    ref.inventory in inventories && 1 <= ref.slot <= inventories[ref.inventory].size
  }

  ghost predicate Sound(content: Content, inventories: map<string, StoreInventory>) {
    forall ref :: ref in content ==> content[ref].count > 0 && InRange(inventories, ref)
  }

  ghost predicate Counted(content: Content, inventories: map<string, StoreInventory>) {
    forall name :: name in inventories ==>
      inventories[name].freeSlots == inventories[name].size - |SlotsIn(content, name)|
  }

  /** Each of the four parts of the index is what the content makes it. */
  ghost predicate Mirrors(ix: Index, content: Content) {
    && Sound(content, ix.inventories)
    && ix.used == content.Keys
    && (forall u :: StacksOf(ix.stacks, u) == StockOf(content, u))
    && (forall u :: Get(ix.stats, u) == Total(content, u))
    && Counted(content, ix.inventories)
  }

  // ---------------------------------------------------------------- writing one stack

  function WithFree(inventories: map<string, StoreInventory>, name: string, change: int): map<string, StoreInventory>
    requires name in inventories
  {
    inventories[name := inventories[name].(freeSlots := inventories[name].freeSlots + change)]
  }

  function AfterSet(ix: Index, uid: Uid, ref: SlotRef, amount: int): Index
    requires ref.inventory in ix.inventories
  {
    var stacks := StacksOf(ix.stacks, uid);
    var stats := ix.stats[uid := Get(ix.stats, uid) + amount - Get(stacks, ref)];
    if amount > 0 then
      var entered := Get(stacks, ref) == 0;
      Index(ix.stacks[uid := stacks[ref := amount]],
            if entered then WithFree(ix.inventories, ref.inventory, -1) else ix.inventories,
            if entered then ix.used + {ref} else ix.used,
            stats)
    else
      Index(ix.stacks[uid := stacks - {ref}], WithFree(ix.inventories, ref.inventory, 1), ix.used - {ref}, stats)
  }

  function Written(content: Content, uid: Uid, ref: SlotRef, amount: int): Content {
    if amount > 0 then content[ref := Pile(uid, amount)] else content - {ref}
  }

  lemma StockWritten(content: Content, uid: Uid, ref: SlotRef, amount: int, u: Uid)
    requires ref in content ==> content[ref].uid == uid
    ensures StockOf(Written(content, uid, ref, amount), u) == (
      if u != uid then StockOf(content, u)
      else if amount > 0 then StockOf(content, u)[ref := amount]
      else StockOf(content, u) - {ref})
  {
  }

  lemma TotalWritten(content: Content, uid: Uid, ref: SlotRef, amount: int, u: Uid)
    requires amount >= 0 && (ref in content ==> content[ref].uid == uid)
    ensures Total(Written(content, uid, ref, amount), u)
         == Total(content, u) + if u == uid then amount - Get(StockOf(content, u), ref) else 0
  {
    StockWritten(content, uid, ref, amount, u);
    if u == uid {
      if amount > 0 {
        SumUpdate(StockOf(content, u), ref, amount);
      } else if ref in content {
        SumRemove(StockOf(content, u), ref);
      } else {
        assert StockOf(content, u) - {ref} == StockOf(content, u);
      }
    }
  }

  lemma SlotsWritten(content: Content, uid: Uid, ref: SlotRef, amount: int, name: string)
    ensures |SlotsIn(Written(content, uid, ref, amount), name)| == |SlotsIn(content, name)|
      + if name != ref.inventory then 0
        else if amount > 0 then (if ref in content then 0 else 1)
        else (if ref in content then -1 else 0)
  {
    var slots, slots' := SlotsIn(content, name), SlotsIn(Written(content, uid, ref, amount), name);
    assert ref in slots <==> ref in content && name == ref.inventory;
    assert slots' == if name != ref.inventory then slots else if amount > 0 then slots + {ref} else slots - {ref};
    hide *;
  }

  lemma CountedAfterSet(ix: Index, content: Content, uid: Uid, ref: SlotRef, amount: int)
    requires Mirrors(ix, content) && InRange(ix.inventories, ref) && amount >= 0
    requires ref in content ==> content[ref].uid == uid
    ensures Counted(Written(content, uid, ref, amount), AfterSet(ix, uid, ref, amount).inventories)
      <==> amount > 0 || ref in content
  {
    var ix', content' := AfterSet(ix, uid, ref, amount), Written(content, uid, ref, amount);
    assert StacksOf(ix.stacks, uid) == StockOf(content, uid);
    assert Get(StacksOf(ix.stacks, uid), ref) == 0 <==> ref !in content;
    hide Sum, StacksOf, StockOf;
    forall name | name in ix.inventories
      ensures ix'.inventories[name].freeSlots == ix'.inventories[name].size - |SlotsIn(content', name)|
        <==> name != ref.inventory || amount > 0 || ref in content
    {
      SlotsWritten(content, uid, ref, amount, name);
    }
    assert ref.inventory in ix'.inventories;
  }

  /**
    Writing a stack keeps every part of the index right exactly when it writes a positive amount
    or the slot was in use: clearing a slot that was not in use counts it free twice.
   */
  lemma SetKeepsIff(ix: Index, content: Content, uid: Uid, ref: SlotRef, amount: int)
    requires Mirrors(ix, content) && InRange(ix.inventories, ref) && amount >= 0
    requires ref in content ==> content[ref].uid == uid
    ensures Mirrors(AfterSet(ix, uid, ref, amount), Written(content, uid, ref, amount)) <==>
      amount > 0 || ref in content
  {
    var ix', content' := AfterSet(ix, uid, ref, amount), Written(content, uid, ref, amount);
    CountedAfterSet(ix, content, uid, ref, amount);
    RangeAfterSet(ix, content, uid, ref, amount);
    forall u ensures StacksOf(ix'.stacks, u) == StockOf(content', u) && Get(ix'.stats, u) == Total(content', u) {
      ItemAfterSet(ix, content, uid, ref, amount, u);
    }
    hide AfterSet, Written, Sound, Counted, StacksOf, StockOf, Total;
  }

  lemma RangeAfterSet(ix: Index, content: Content, uid: Uid, ref: SlotRef, amount: int)
    requires Mirrors(ix, content) && InRange(ix.inventories, ref) && amount >= 0
    requires ref in content ==> content[ref].uid == uid
    ensures Sound(Written(content, uid, ref, amount), AfterSet(ix, uid, ref, amount).inventories)
    ensures AfterSet(ix, uid, ref, amount).used == Written(content, uid, ref, amount).Keys
  {
    assert StacksOf(ix.stacks, uid) == StockOf(content, uid);
    assert Get(StacksOf(ix.stacks, uid), ref) == 0 <==> ref !in content;
    hide Total, Counted, StacksOf, StockOf, Get;
  }

  lemma ItemAfterSet(ix: Index, content: Content, uid: Uid, ref: SlotRef, amount: int, u: Uid)
    requires Mirrors(ix, content) && InRange(ix.inventories, ref) && amount >= 0
    requires ref in content ==> content[ref].uid == uid
    ensures StacksOf(AfterSet(ix, uid, ref, amount).stacks, u) == StockOf(Written(content, uid, ref, amount), u)
    ensures Get(AfterSet(ix, uid, ref, amount).stats, u) == Total(Written(content, uid, ref, amount), u)
  {
    StockWritten(content, uid, ref, amount, u);
    TotalWritten(content, uid, ref, amount, u);
    assert Get(ix.stats, u) == Total(content, u) && StacksOf(ix.stacks, u) == StockOf(content, u);
    assert StacksOf(ix.stacks, uid) == StockOf(content, uid);
    hide Total, StockOf, Sound, Counted, Mirrors, Written;
  }

  // ---------------------------------------------------------------- empty slots

  function AllSlots(name: string, size: nat): set<SlotRef> {
    set i | 1 <= i <= size :: SlotRef(name, i)
  }

  lemma {:induction false} CountSlots(name: string, size: nat)
    ensures |AllSlots(name, size)| == size
  {
    if size > 0 {
      CountSlots(name, size - 1);
      assert AllSlots(name, size) == AllSlots(name, size - 1) + {SlotRef(name, size)};
    }
  }

  lemma SubsetCount<T>(a: set<T>, b: set<T>)
    requires a <= b
    ensures |a| <= |b| && (|a| == |b| ==> a == b)
  {
    assert b == a + (b - a);
  }

  /** A counter above zero means that some slot in range is empty, and zero that none is. */
  lemma FreeIffEmptySlot(ix: Index, content: Content, name: string)
    requires Mirrors(ix, content) && name in ix.inventories && ix.inventories[name].size >= 0
    ensures ix.inventories[name].freeSlots >= 0
    ensures ix.inventories[name].freeSlots > 0 <==>
      exists i :: 1 <= i <= ix.inventories[name].size && SlotRef(name, i) !in ix.used
  {
    var size := ix.inventories[name].size;
    var all, slots := AllSlots(name, size), SlotsIn(content, name);
    CountSlots(name, size);
    assert slots <= all by {
      forall ref | ref in slots ensures ref in all {
        assert InRange(ix.inventories, ref) && ref == SlotRef(name, ref.slot);
      }
    }
    SubsetCount(slots, all);
    if i :| 1 <= i <= size && SlotRef(name, i) !in ix.used {
      assert SlotRef(name, i) in all && SlotRef(name, i) !in slots;
    } else {
      forall ref | ref in all ensures ref in slots {
        assert ref == SlotRef(name, ref.slot) && SlotRef(name, ref.slot) in ix.used;
      }
      SubsetCount(all, slots);
    }
  }
}

/** The store that keeps the index while items move in and out of the chests. */
module WarmStore {
  import opened Recipes
  import opened Sums
  import opened WarmIndex
  import opened StackMoves

  datatype Found = Nowhere | At(ref: SlotRef)

  datatype Listed = Listed(slot: int, uid: Uid, count: int)
  datatype Inventory = Inventory(name: string, size: int, items: seq<Listed>)

  /** Distinct slots within the inventory, none of them empty. */
  ghost predicate GoodInventory(inv: Inventory) {
    && inv.size >= 0
    && (forall i :: 0 <= i < |inv.items| ==> 1 <= inv.items[i].slot <= inv.size && inv.items[i].count > 0)
    && (forall i, j :: 0 <= i < j < |inv.items| ==> inv.items[i].slot != inv.items[j].slot)
  }

  function ContentsOf(inv: Inventory, n: nat): Content
    requires n <= |inv.items|
  {
    if n == 0 then map[]
    else
      var item := inv.items[n - 1];
      ContentsOf(inv, n - 1)[SlotRef(inv.name, item.slot) := Pile(item.uid, item.count)]
  }

  /** What a listing of several inventories shows. */
  function AllContents(invs: seq<Inventory>): Content {
    if invs == [] then map[]
    else
      var n := |invs| - 1;
      AllContents(invs[..n]) + ContentsOf(invs[n], |invs[n].items|)
  }

  ghost predicate GoodListing(invs: seq<Inventory>) {
    && (forall i :: 0 <= i < |invs| ==> GoodInventory(invs[i]))
    && (forall i, j :: 0 <= i < j < |invs| ==> invs[i].name != invs[j].name)
  }

  /** Something is noted for a slot exactly if the listing shows it there. */
  ghost predicate ShowsAt(invs: seq<Inventory>, ref: SlotRef, pile: Pile) {
    exists i, j :: 0 <= i < |invs| && 0 <= j < |invs[i].items| && invs[i].name == ref.inventory
      && invs[i].items[j] == Listed(ref.slot, pile.uid, pile.count)
  }

  lemma {:induction false} ContentsOfShows(inv: Inventory, n: nat, ref: SlotRef, pile: Pile)
    requires GoodInventory(inv) && n <= |inv.items|
    ensures ref in ContentsOf(inv, n) && ContentsOf(inv, n)[ref] == pile <==> exists j ::
      0 <= j < n && inv.name == ref.inventory && inv.items[j] == Listed(ref.slot, pile.uid, pile.count)
    decreases n
  {
    if n > 0 {
      ContentsOfShows(inv, n - 1, ref, pile);
      var item := inv.items[n - 1];
      assert item == Listed(item.slot, item.uid, item.count);
    }
  }

  /** The index is made of the listed stacks, each at its slot, and of nothing else. */
  lemma {:induction false} AllContentsShow(invs: seq<Inventory>, ref: SlotRef, pile: Pile)
    requires GoodListing(invs)
    ensures ref in AllContents(invs) && AllContents(invs)[ref] == pile <==> ShowsAt(invs, ref, pile)
  {
    hide ContentsOf, GoodInventory;
    if invs != [] {
      var n := |invs| - 1;
      AllContentsShow(invs[..n], ref, pile);
      ContentsOfShows(invs[n], |invs[n].items|, ref, pile);
      if ref in ContentsOf(invs[n], |invs[n].items|) {
        OnlyItsOwn(invs[n], ref);
      }
      if ref in AllContents(invs[..n]) {
        var there := AllContents(invs[..n])[ref];
        AllContentsShow(invs[..n], ref, there);
      }
    }
  }

  lemma OnlyItsOwn(inv: Inventory, ref: SlotRef)
    requires ref in ContentsOf(inv, |inv.items|)
    ensures ref.inventory == inv.name
  {
    ContentsAt(inv, |inv.items|);
  }

  lemma {:induction false} ContentsAt(inv: Inventory, n: nat)
    requires n <= |inv.items|
    ensures forall ref :: ref in ContentsOf(inv, n) <==>
      exists i :: 0 <= i < n && ref == SlotRef(inv.name, inv.items[i].slot)
    decreases n
  {
    if n > 0 {
      ContentsAt(inv, n - 1);
    }
  }

  /** The index while an inventory is entered: its counter already allows for the items still to come. */
  function Entering(ix: Index, inv: Inventory, n: int): Index {
    ix.(inventories := ix.inventories[inv.name := StoreInventory(inv.size - n, inv.size)])
  }

  lemma AllEntered(ix: Index, c0: Content, inv: Inventory)
    requires HasEntered(ix, c0, inv, |inv.items|) && inv.name in ix.inventories
    requires ix.inventories[inv.name] == StoreInventory(inv.size - |inv.items|, inv.size)
    ensures Mirrors(ix, c0 + ContentsOf(inv, |inv.items|))
  {
    assert Entering(ix, inv, |inv.items|) == ix;
    hide Mirrors, ContentsOf;
  }

  lemma NewInventory(ix: Index, content: Content, inv: Inventory)
    requires Mirrors(ix, content) && inv.name !in ix.inventories
    ensures HasEntered(Entering(ix, inv, |inv.items|), content, inv, 0)
  {
    assert Entering(Entering(ix, inv, |inv.items|), inv, 0) == Entering(ix, inv, 0);
    assert content + ContentsOf(inv, 0) == content;
    forall ref | ref in content ensures ref.inventory != inv.name {
      assert InRange(ix.inventories, ref);
    }
    NewCounter(ix, content, inv);
    hide StockOf, Total, Counted, Get, StacksOf, ContentsOf;
  }

  lemma NewCounter(ix: Index, content: Content, inv: Inventory)
    requires Counted(content, ix.inventories) && inv.name !in ix.inventories
    requires forall ref :: ref in content ==> ref.inventory != inv.name
    ensures Counted(content, Entering(ix, inv, 0).inventories)
  {
    assert SlotsIn(content, inv.name) == {};
  }

  /** A listed stack written to every part of the index but the counter. */
  function Entered(ix: Index, uid: Uid, ref: SlotRef, count: int): Index {
    Index(ix.stacks[uid := StacksOf(ix.stacks, uid)[ref := count]], ix.inventories, ix.used + {ref},
          ix.stats[uid := Get(ix.stats, uid) + count])
  }

  /** The inventory being entered is new, and its first `i` stacks are in. */
  ghost predicate HasEntered(ix: Index, c0: Content, inv: Inventory, i: nat)
    requires i <= |inv.items|
  {
    && (forall ref :: ref in c0 ==> ref.inventory != inv.name)
    && Mirrors(Entering(ix, inv, i), c0 + ContentsOf(inv, i))
  }

  lemma EnteredIsSet(ix: Index, inv: Inventory, i: nat, uid: Uid, ref: SlotRef, count: int)
    requires Get(StacksOf(ix.stacks, uid), ref) == 0 && ref.inventory == inv.name && count > 0
    ensures Entering(Entered(ix, uid, ref, count), inv, i + 1) == AfterSet(Entering(ix, inv, i), uid, ref, count)
  {
    hide Get, StacksOf;
  }

  lemma NextIsEmpty(c0: Content, inv: Inventory, i: nat)
    requires GoodInventory(inv) && i < |inv.items| && (forall ref :: ref in c0 ==> ref.inventory != inv.name)
    ensures SlotRef(inv.name, inv.items[i].slot) !in c0 + ContentsOf(inv, i)
  {
    ContentsAt(inv, i);
  }

  /** Entering the next listed stack; the counter is already ahead. */
  lemma EnterStep(ix: Index, c0: Content, inv: Inventory, i: nat)
    requires GoodInventory(inv) && i < |inv.items| && HasEntered(ix, c0, inv, i)
    ensures HasEntered(Entered(ix, inv.items[i].uid, SlotRef(inv.name, inv.items[i].slot), inv.items[i].count), c0,
      inv, i + 1)
  {
    var item := inv.items[i];
    var ref := SlotRef(inv.name, item.slot);
    var ix0, content := Entering(ix, inv, i), c0 + ContentsOf(inv, i);
    NextIsEmpty(c0, inv, i);
    NotStacked(ix0, content, item.uid, ref);
    assert InRange(ix0.inventories, ref);
    NextContents(c0, inv, i);
    assert ix0.stacks == ix.stacks;
    hide InRange, Entering, Mirrors, StacksOf, StockOf, Get, AfterSet, Entered, ContentsOf, Written;
    SetKeepsIff(ix0, content, item.uid, ref, item.count);
    EnteredIsSet(ix, inv, i, item.uid, ref, item.count);
  }

  lemma NotStacked(ix: Index, content: Content, uid: Uid, ref: SlotRef)
    requires Mirrors(ix, content) && ref !in content
    ensures Get(StacksOf(ix.stacks, uid), ref) == 0
  {
    assert StacksOf(ix.stacks, uid) == StockOf(content, uid);
  }

  lemma NextContents(c0: Content, inv: Inventory, i: nat)
    requires i < |inv.items| && inv.items[i].count > 0
    ensures Written(c0 + ContentsOf(inv, i), inv.items[i].uid, SlotRef(inv.name, inv.items[i].slot), inv.items[i].count)
         == c0 + ContentsOf(inv, i + 1)
  {
  }

  /** Items come in at a slot; only an empty slot or a stack of the same item takes any. */
  predicate ComesIn(before: Content, after: Content, ref: SlotRef, uid: Uid, k: int) {
    if k == 0 then after == before
    else if ref !in before then k > 0 && after == before[ref := Pile(uid, k)]
    else k > 0 && before[ref].uid == uid && after == before[ref := Pile(uid, before[ref].count + k)]
  }

  /** Items leave a slot; an emptied slot holds nothing. */
  predicate GoesOut(before: Content, after: Content, ref: SlotRef, k: int) {
    if k == 0 then after == before
    else
      && ref in before && 0 < k <= before[ref].count
      && after == Written(before, before[ref].uid, ref, before[ref].count - k)
  }

  /** What the index says the slots hold, what they do hold, and the inventories. */
  datatype View = View(content: Content, chests: Content, inventories: map<string, StoreInventory>)

  /**
    From one view to another. `drift` is what the index then claims of the item beyond what the
    chests hold; `change` is what a successful call reports to have moved.
   */
  ghost predicate Shifts(v: View, v': View, uid: Uid, change: int, ok: bool, drift: int) {
    SameSizes(v'.inventories, v.inventories) && Moves(v.content, v.chests, v'.content, v'.chests, uid, change, ok,
      drift)
  }

  ghost predicate Moves(content: Content, chests: Content, content': Content, chests': Content,
                        uid: Uid, change: int, ok: bool, drift: int) {
    && (forall v :: v != uid ==> StockOf(content', v) == StockOf(content, v))
    && (content == chests ==>
        && (content' == chests' <==> drift == 0)
        && Total(content', uid) == Total(chests', uid) + drift
        && (ok ==> Total(chests', uid) == Total(chests, uid) + change))
  }

  lemma NothingShifts(v: View, uid: Uid)
    ensures Shifts(v, v, uid, 0, true, 0)
  {
  }

  lemma ShiftFails(v: View, uid: Uid)
    ensures Shifts(v, v, uid, 0, false, 0)
  {
  }

  lemma ShiftsJoin(v0: View, v1: View, v2: View, uid: Uid, n: int, m: int, ok: bool, drift: int, change: int)
    requires Shifts(v0, v1, uid, n, true, 0) && Shifts(v1, v2, uid, m, ok, drift)
    requires ok ==> change == n + m
    ensures Shifts(v0, v2, uid, change, ok, drift)
  {
    hide Total;
    forall u | u != uid ensures StockOf(v2.content, u) == StockOf(v0.content, u) {
      assert StockOf(v2.content, u) == StockOf(v1.content, u) && StockOf(v1.content, u) == StockOf(v0.content, u);
    }
  }

  /** The index notes `noted` for a slot that then really holds `held`. */
  lemma SlotShifts(content: Content, chests: Content, chests': Content, ref: SlotRef, uid: Uid, noted: int, held: int,
                   change: int, ok: bool, drift: int)
    requires ref in content ==> content[ref].uid == uid
    requires noted >= 0 && held >= 0 && drift == noted - held
      && (ok ==> change == held - Get(StockOf(content, uid), ref))
    requires content == chests ==> chests' == Written(chests, uid, ref, held)
    ensures Moves(content, chests, Written(content, uid, ref, noted), chests', uid, change, ok, drift)
  {
    var content' := Written(content, uid, ref, noted);
    forall v | v != uid ensures StockOf(content', v) == StockOf(content, v) {
      StockWritten(content, uid, ref, noted, v);
    }
    TotalWritten(content, uid, ref, noted, uid);
    TotalWritten(content, uid, ref, held, uid);
    hide Total, StockOf;
    if content == chests && noted != held {
      assert content' != chests' by {
        var more := if noted > held then content' else chests';
        assert ref in more && more[ref].count > 0;
      }
    }
  }

  lemma ComesInWrites(before: Content, after: Content, ref: SlotRef, uid: Uid, k: int)
    requires ComesIn(before, after, ref, uid, k) && k >= 0
      && (ref in before ==> before[ref].uid == uid && before[ref].count > 0)
    ensures after == Written(before, uid, ref, Get(StockOf(before, uid), ref) + k)
  {
    if k == 0 {
      assert ref in before ==> before[ref] == Pile(uid, before[ref].count);
    }
  }

  lemma FillShifts(v0: View, v1: View, ref: SlotRef, uid: Uid, count: int, change: int, ok: bool, k: int)
    requires ref in v0.content && v0.content[ref] == Pile(uid, count) && count > 0 && k >= 0 && (ok ==> change == k)
    requires ComesIn(v0.chests, v1.chests, ref, uid, k) && SameSizes(v1.inventories, v0.inventories)
    requires v1.content == if ok then Written(v0.content, uid, ref, count + k) else v0.content
    ensures Shifts(v0, v1, uid, change, ok, if ok then 0 else -k)
    ensures StockOf(v1.content, uid).Keys == StockOf(v0.content, uid).Keys
  {
    var noted := if ok then count + k else count;
    assert Get(StockOf(v0.content, uid), ref) == count && ref in StockOf(v0.content, uid);
    if v0.content == v0.chests {
      ComesInWrites(v0.chests, v1.chests, ref, uid, k);
    }
    assert v1.content == Written(v0.content, uid, ref, noted);
    SlotShifts(v0.content, v0.chests, v1.chests, ref, uid, noted, count + k, change, ok, if ok then 0 else -k);
    StockWritten(v0.content, uid, ref, noted, uid);
    hide Moves, StockOf;
  }

  lemma GoesOutWrites(before: Content, after: Content, ref: SlotRef, k: int)
    requires GoesOut(before, after, ref, k) && ref in before && before[ref].count > 0
    ensures after == Written(before, before[ref].uid, ref, before[ref].count - k)
  {
    if k == 0 {
      assert before[ref] == Pile(before[ref].uid, before[ref].count);
    }
  }

  lemma DrainShifts(v0: View, v1: View, ref: SlotRef, uid: Uid, count: int, change: int, ok: bool, k: int)
    requires ref in v0.content && v0.content[ref] == Pile(uid, count) && 0 <= k <= count && count > 0
      && (ok ==> change == -k)
    requires GoesOut(v0.chests, v1.chests, ref, k) && SameSizes(v1.inventories, v0.inventories)
    requires v1.content == if ok then Written(v0.content, uid, ref, count - k) else v0.content
    ensures Shifts(v0, v1, uid, change, ok, if ok then 0 else k)
  {
    var noted := if ok then count - k else count;
    assert Get(StockOf(v0.content, uid), ref) == count;
    if v0.content == v0.chests {
      GoesOutWrites(v0.chests, v1.chests, ref, k);
    }
    assert v1.content == Written(v0.content, uid, ref, noted);
    SlotShifts(v0.content, v0.chests, v1.chests, ref, uid, noted, count - k, change, ok, if ok then 0 else k);
    hide Moves, StockOf;
  }

  lemma PlaceShifts(v0: View, v1: View, ref: SlotRef, uid: Uid, amount: int, change: int, ok: bool, k: int)
    requires ref !in v0.content && k >= 0 && amount >= 0 && (ok ==> change == k)
    requires ComesIn(v0.chests, v1.chests, ref, uid, k) && SameSizes(v1.inventories, v0.inventories)
    requires v1.content == if ok then Written(v0.content, uid, ref, amount) else v0.content
    ensures Shifts(v0, v1, uid, change, ok, if ok then amount - k else -k)
  {
    var noted := if ok then amount else 0;
    assert Get(StockOf(v0.content, uid), ref) == 0;
    if v0.content == v0.chests {
      ComesInWrites(v0.chests, v1.chests, ref, uid, k);
    }
    assert v0.content - {ref} == v0.content;
    assert v1.content == Written(v0.content, uid, ref, noted);
    SlotShifts(v0.content, v0.chests, v1.chests, ref, uid, noted, k, change, ok, noted - k);
    hide Moves, StockOf;
  }

  lemma InStock(content: Content, uid: Uid, ref: SlotRef)
    requires ref in StockOf(content, uid)
    ensures ref in content && content[ref].uid == uid
  {
  }

  lemma StockIsPositive(content: Content, inventories: map<string, StoreInventory>, uid: Uid)
    requires Sound(content, inventories)
    ensures AllPositive(StockOf(content, uid))
  {
  }

  lemma SameWritten(content: Content, uid: Uid, ref: SlotRef, count: int)
    requires ref in content && content[ref] == Pile(uid, count) && count > 0
    ensures Written(content, uid, ref, count) == content
  {
  }

  lemma WriteChanges(content: Content, content': Content, uid: Uid, ref: SlotRef, count: int, k: int, ok: bool)
    requires ref in content && content[ref] == Pile(uid, count) && (ok ==> count + k >= 0)
    requires content' == if ok then Written(content, uid, ref, count + k) else content
    ensures Changes(StockOf(content, uid), StockOf(content', uid), ref, if ok then k else 0)
  {
    assert Get(StockOf(content, uid), ref) == count;
    if ok {
      StockWritten(content, uid, ref, count + k, uid);
    }
    hide StockOf, Written;
  }

  /**
    A pass over the stacks that began at `v0`: the moves so far, the stacks in `rest` still to come.
    It goes on while its moves succeed; a failed one puts the index off by what it did not note.
   */
  ghost predicate Underway(v0: View, v: View, uid: Uid, rooms: map<SlotRef, int>, amount: int, moves: seq<Move>,
                           rest: set<SlotRef>, into: bool, ok: bool, drift: int) {
    && Passing(rooms, amount, moves, rest)
    && Stands(StockOf(v0.content, uid), StockOf(v.content, uid), moves, into)
    && (if ok then drift == 0 && Shifts(v0, v, uid, if into then TookOf(moves) else -TookOf(moves), true, 0)
        else Shifts(v0, v, uid, 0, false, drift) && if into then drift <= 0 else drift >= 0)
  }

  lemma SetOut(v: View, uid: Uid, rooms: map<SlotRef, int>, amount: int, into: bool)
    ensures Underway(v, v, uid, rooms, amount, [], rooms.Keys, into, true, 0)
  {
    PassStarts(rooms, amount);
    NothingShifts(v, uid);
    assert Stands(StockOf(v.content, uid), StockOf(v.content, uid), [], into);
    hide Passing, Shifts, Stands;
  }

  lemma StillToCome(v0: View, v: View, uid: Uid, rooms: map<SlotRef, int>, amount: int, moves: seq<Move>,
                    rest: set<SlotRef>, into: bool, ref: SlotRef)
    requires Underway(v0, v, uid, rooms, amount, moves, rest, into, true, 0) && ref in rest
    requires rooms.Keys == StockOf(v0.content, uid).Keys && AllPositive(StockOf(v0.content, uid))
    ensures ref in rooms && ref in StockOf(v.content, uid)
    ensures StockOf(v.content, uid)[ref] == StockOf(v0.content, uid)[ref]
  {
    hide Shifts, StockOf;
    StandsInRest(StockOf(v0.content, uid), StockOf(v.content, uid), rooms, amount, moves, rest, into, ref);
  }

  lemma GoesOn(v0: View, v1: View, v2: View, uid: Uid, rooms: map<SlotRef, int>, amount: int, moves: seq<Move>,
               rest: set<SlotRef>, into: bool, move: Move, ok: bool, drift: int)
    requires Underway(v0, v1, uid, rooms, amount, moves, rest, into, true, 0) && move.ref in rest
    requires AsksNext(rooms, amount - TookOf(moves), move) && (!ok ==> move.took == 0)
    requires ok ==> drift == 0 && Shifts(v1, v2, uid, if into then move.took else -move.took, true, 0)
    requires !ok ==> Shifts(v1, v2, uid, 0, false, drift) && if into then drift <= 0 else drift >= 0
    requires Changes(StockOf(v1.content, uid), StockOf(v2.content, uid), move.ref,
      if into then move.took else -move.took)
    ensures Underway(v0, v2, uid, rooms, amount, moves + [move], rest - {move.ref}, into, ok, drift)
    ensures TookOf(moves + [move]) == TookOf(moves) + move.took
  {
    hide Shifts, StockOf, Passing, Stands, AsksNext, Changes, TookOf;
    PassStep(rooms, amount, moves, rest, move);
    StandsNext(StockOf(v0.content, uid), StockOf(v1.content, uid), StockOf(v2.content, uid), moves, move, into);
    var sofar, more := TookOf(moves), move.took;
    ShiftsJoin(v0, v1, v2, uid, if into then sofar else -sofar, if into then more else -more, ok, drift,
      if !ok then 0 else if into then sofar + more else -sofar - more);
  }

  lemma GoesPast(v0: View, v1: View, v2: View, uid: Uid, rooms: map<SlotRef, int>, amount: int, moves: seq<Move>,
                 rest: set<SlotRef>, into: bool, ref: SlotRef)
    requires Underway(v0, v1, uid, rooms, amount, moves, rest, into, true, 0) && ref in rest && rooms[ref] <= 0
    requires Shifts(v1, v2, uid, 0, true, 0) && Changes(StockOf(v1.content, uid), StockOf(v2.content, uid), ref, 0)
    ensures Underway(v0, v2, uid, rooms, amount, moves, rest - {ref}, into, true, 0)
  {
    PassSkips(rooms, amount, moves, rest, ref);
    assert Stands(StockOf(v0.content, uid), StockOf(v2.content, uid), moves, into);
    hide Shifts, StockOf, Passing, Stands, Changes, TookOf;
    var sofar := if into then TookOf(moves) else -TookOf(moves);
    ShiftsJoin(v0, v1, v2, uid, sofar, 0, true, 0, sofar);
  }

  /** A pass over the stacks from `v0` to `v` that has asked all of them that it had to, or has failed. */
  ghost predicate Passed(v0: View, v: View, uid: Uid, rooms: map<SlotRef, int>, amount: int, moves: seq<Move>,
                         into: bool, ok: bool, drift: int) {
    && Asks(rooms, amount, moves) && (ok ==> AsksAll(rooms, amount, moves))
    && Stands(StockOf(v0.content, uid), StockOf(v.content, uid), moves, into)
    && (if ok then drift == 0 && Shifts(v0, v, uid, if into then TookOf(moves) else -TookOf(moves), true, 0)
        else Shifts(v0, v, uid, 0, false, drift) && if into then drift <= 0 else drift >= 0)
  }

  lemma PassDone(v0: View, v: View, uid: Uid, rooms: map<SlotRef, int>, amount: int, moves: seq<Move>,
                 rest: set<SlotRef>, into: bool, ok: bool, drift: int)
    requires Underway(v0, v, uid, rooms, amount, moves, rest, into, ok, drift)
    requires ok ==> rest == {} || TookOf(moves) == amount
    ensures Passed(v0, v, uid, rooms, amount, moves, into, ok, drift)
  {
    hide Passing, Stands, Shifts, StockOf, TookOf, Asks, AsksAll;
    PassAsks(rooms, amount, moves, rest);
    if ok {
      PassEnds(rooms, amount, moves, rest);
    }
  }

  /** Slots in use stay in use when items come in. */
  lemma SlotsStay(v0: View, v1: View, uid: Uid, n: int, ok: bool, drift: int, moves: seq<Move>)
    requires Shifts(v0, v1, uid, n, ok, drift) && Stands(StockOf(v0.content, uid), StockOf(v1.content, uid), moves,
      true)
    requires AllPositive(StockOf(v0.content, uid)) && forall i :: 0 <= i < |moves| ==> moves[i].took >= 0
    ensures v0.content.Keys <= v1.content.Keys
  {
    hide Total;
    forall ref | ref in v0.content ensures ref in v1.content {
      var u := v0.content[ref].uid;
      assert ref in StockOf(v0.content, u);
      if u == uid {
        TookAtNonNegative(moves, ref);
        assert Get(StockOf(v1.content, uid), ref) == Get(StockOf(v0.content, uid), ref) + TookAt(moves, ref);
      } else {
        assert ref in StockOf(v1.content, u);
      }
    }
  }

  predicate NoFreeSlot(inventories: map<string, StoreInventory>) {
    forall name :: name in inventories ==> inventories[name].freeSlots <= 0
  }

  predicate SameSizes(a: map<string, StoreInventory>, b: map<string, StoreInventory>) {
    a.Keys == b.Keys && forall name :: name in a ==> a[name].size == b[name].size
  }

  lemma SizesSame(a: map<string, StoreInventory>)
    ensures SameSizes(a, a)
  {
  }

  /** A call of the storage: items to bring in, or to take out. */
  datatype Call = Import(uid: Uid, amount: int) | Export(uid: Uid, amount: int)

  /** What the calls report to have brought in, less what they report to have taken out. */
  function Net(calls: seq<Call>, moved: seq<int>, u: Uid): int
    requires |moved| == |calls|
  {
    if calls == [] then 0
    else
      var n := |calls| - 1;
      Net(calls[..n], moved[..n], u)
        + if calls[n].uid != u then 0 else if calls[n].Import? then moved[n] else -moved[n]
  }

  /** What one call did: the items it reported, whether it succeeded, and how far it put the index off. */
  datatype Outcome = Outcome(moved: int, ok: bool, drift: int)

  function MovedBy(done: seq<Outcome>): (moved: seq<int>)
    ensures |moved| == |done| && forall i :: 0 <= i < |done| ==> moved[i] == done[i].moved
  {
    seq(|done|, i requires 0 <= i < |done| => done[i].moved)
  }

  ghost predicate CallShifts(v: View, v': View, c: Call, d: Outcome) {
    && Shifts(v, v', c.uid, if c.Import? then d.moved else -d.moved, d.ok, d.drift)
    && (d.ok ==> 0 <= d.moved <= c.amount && if c.Import? then d.drift >= 0 else d.drift == 0)
    && (!d.ok ==> if c.Import? then d.drift <= 0 else d.drift >= 0)
  }

  /** The views before, between and after the calls. */
  ghost predicate Served(calls: seq<Call>, views: seq<View>, done: seq<Outcome>) {
    && |views| == |calls| + 1 && |done| == |calls|
    && forall i :: 0 <= i < |calls| ==> CallShifts(views[i], views[i + 1], calls[i], done[i])
  }

  ghost predicate Quiet(done: seq<Outcome>) {
    forall i :: 0 <= i < |done| ==> done[i].ok && done[i].drift == 0
  }

  /**
    As long as no call fails or leaves a drift, an exact index stays exact and the reports add up;
    the first drift puts it off.
   */
  lemma {:induction false} QuietCallsStayExact(calls: seq<Call>, views: seq<View>, done: seq<Outcome>, n: nat)
    requires Served(calls, views, done) && views[0].content == views[0].chests && n <= |calls| && Quiet(done[..n])
    ensures views[n].content == views[n].chests
    ensures forall u :: Total(views[n].chests, u) == Total(views[0].chests, u) + Net(calls[..n], MovedBy(done[..n]), u)
    ensures n < |calls| ==> (views[n + 1].content == views[n + 1].chests <==> done[n].drift == 0)
  {
    if n > 0 {
      assert forall i :: 0 <= i < n - 1 ==> done[..n - 1][i] == done[..n][i];
      QuietCallsStayExact(calls, views, done, n - 1);
      assert CallShifts(views[n - 1], views[n - 1 + 1], calls[n - 1], done[n - 1]) && done[..n][n - 1] == done[n - 1];
      assert calls[..n][..n - 1] == calls[..n - 1] && MovedBy(done[..n])[..n - 1] == MovedBy(done[..n - 1]);
      forall u ensures Total(views[n].chests, u) == Total(views[0].chests, u) + Net(calls[..n], MovedBy(done[..n]), u) {
        if u != calls[n - 1].uid {
          assert StockOf(views[n].content, u) == StockOf(views[n - 1].content, u);
        }
      }
    } else {
      assert calls[..0] == [];
    }
    if n < |calls| {
      assert CallShifts(views[n], views[n + 1], calls[n], done[n]);
    }
  }

  lemma ServedGrows(calls: seq<Call>, i: nat, views: seq<View>, done: seq<Outcome>, v: View, d: Outcome)
    requires i < |calls| && Served(calls[..i], views, done) && CallShifts(views[i], v, calls[i], d)
    ensures Served(calls[..i + 1], views + [v], done + [d])
  {
    hide CallShifts;
    var views', done' := views + [v], done + [d];
    forall j | 0 <= j < i + 1 ensures CallShifts(views'[j], views'[j + 1], calls[..i + 1][j], done'[j]) {
      if j < i {
        assert CallShifts(views[j], views[j + 1], calls[..i][j], done[j]);
      }
    }
  }

  class MultipleChestsStore {
    var stacksByUID: map<Uid, map<SlotRef, int>>
    var inventories: map<string, StoreInventory>
    var usedSlots: set<SlotRef>
    var maxSizeByUID: map<Uid, int>
    var itemStats: map<Uid, int>

    /** The chests themselves, which only remote moves change. */
    var chests: Content
    /** What the index says the slots hold. */
    ghost var content: Content
    /** The remote moves that were asked for. */
    ghost var asks: seq<Move>

    function TheIndex(): Index
      reads this`stacksByUID, this`inventories, this`usedSlots, this`itemStats
    {
      Index(stacksByUID, inventories, usedSlots, itemStats)
    }

    ghost predicate Valid()
      reads this`stacksByUID, this`inventories, this`usedSlots, this`itemStats, this`content
    {
      Mirrors(TheIndex(), content) && forall name :: name in inventories ==> inventories[name].size >= 0
    }

    /** The index agrees with the chests. */
    ghost predicate Exact()
      reads this
    {
      content == chests
    }

    ghost function Now(): View
      reads this`content, this`chests, this`inventories
    {
      View(content, chests, inventories)
    }

    method Clear()
      modifies this`stacksByUID, this`inventories, this`usedSlots, this`itemStats, this`content
      ensures Valid() && content == map[] && inventories == map[] && chests == old(chests)
    {
      stacksByUID, usedSlots, inventories, itemStats := map[], {}, map[], map[];
      content := map[];
      forall u ensures Total(content, u) == 0 {
        assert StockOf(content, u) == map[];
      }
    }

    method EnterStack(uid: Uid, ref: SlotRef, count: int)
      modifies this`stacksByUID, this`usedSlots, this`itemStats
      ensures TheIndex() == Entered(old(TheIndex()), uid, ref, count)
    {
      hide Get, StacksOf;
      stacksByUID := stacksByUID[uid := StacksOf(stacksByUID, uid)[ref := count]];
      usedSlots := usedSlots + {ref};
      itemStats := itemStats[uid := Get(itemStats, uid) + count];
    }

    method EnterItems(inv: Inventory, ghost c0: Content)
      requires GoodInventory(inv) && HasEntered(TheIndex(), c0, inv, 0)
      modifies this`stacksByUID, this`usedSlots, this`itemStats
      ensures HasEntered(TheIndex(), c0, inv, |inv.items|)
    {
      hide HasEntered, Entered, GoodInventory, TheIndex;
      for i := 0 to |inv.items|
        invariant HasEntered(TheIndex(), c0, inv, i)
      {
        var item := inv.items[i];
        ghost var ix := TheIndex();
        EnterStep(ix, c0, inv, i);
        EnterStack(item.uid, SlotRef(inv.name, item.slot), item.count);
      }
    }

    /** Enters a listed inventory that the index does not have yet. */
    method Add(inv: Inventory)
      requires Valid() && GoodInventory(inv) && inv.name !in inventories
      modifies this`stacksByUID, this`inventories, this`usedSlots, this`itemStats, this`content
      ensures Valid() && content == old(content) + ContentsOf(inv, |inv.items|)
      ensures inventories == old(inventories)[inv.name := StoreInventory(inv.size - |inv.items|, inv.size)]
    {
      ghost var c0, ix0 := content, TheIndex();
      NewInventory(ix0, c0, inv);
      inventories := inventories[inv.name := StoreInventory(inv.size - |inv.items|, inv.size)];
      assert TheIndex() == Entering(ix0, inv, |inv.items|);
      hide Mirrors, HasEntered, ContentsOf, Entering, GoodInventory;
      EnterItems(inv, c0);
      content := content + ContentsOf(inv, |inv.items|);
      ghost var ix := TheIndex();
      AllEntered(ix, c0, inv);
    }

    /** The periodic synchronisation: whatever the index said, it now mirrors the listing. */
    method Sync(invs: seq<Inventory>)
      requires GoodListing(invs)
      modifies this
      ensures Valid() && content == AllContents(invs) && chests == old(chests)
    {
      Clear();
      hide Valid, GoodInventory;
      for i := 0 to |invs|
        invariant Valid() && content == AllContents(invs[..i]) && chests == old(chests)
        invariant inventories.Keys == set j | 0 <= j < i :: invs[j].name
      {
        Add(invs[i]);
        assert invs[..i + 1][..i] == invs[..i];
      }
      assert invs[..|invs|] == invs;
    }

    /** Notes the new size of a stack in all four parts of the index. */
    method SetStackSize(uid: Uid, ref: SlotRef, amount: int)
      requires ref.inventory in inventories
      modifies this`stacksByUID, this`inventories, this`usedSlots, this`itemStats
      ensures TheIndex() == AfterSet(old(TheIndex()), uid, ref, amount)
    {
      hide Get, StacksOf;
      var stacks := StacksOf(stacksByUID, uid);
      itemStats := itemStats[uid := Get(itemStats, uid) + amount - Get(stacks, ref)];
      if amount > 0 {
        if Get(stacks, ref) == 0 {
          inventories := WithFree(inventories, ref.inventory, -1);
          usedSlots := usedSlots + {ref};
        }
        stacks := stacks[ref := amount];
      } else {
        stacks := stacks - {ref};
        usedSlots := usedSlots - {ref};
        inventories := WithFree(inventories, ref.inventory, 1);
      }
      stacksByUID := stacksByUID[uid := stacks];
    }

    /** With a positive size or a slot in use, the whole index stays right. */
    method Record(uid: Uid, ref: SlotRef, amount: int)
      requires Valid() && InRange(inventories, ref) && amount >= 0 && (amount > 0 || ref in content)
      requires ref in content ==> content[ref].uid == uid
      modifies this`stacksByUID, this`inventories, this`usedSlots, this`itemStats, this`content
      ensures Valid() && content == Written(old(content), uid, ref, amount) && SameSizes(inventories, old(inventories))
    {
      SetKeeps(uid, ref, amount);
      hide Valid, Mirrors, InRange, Written, Get, StacksOf, SameSizes, AfterSet;
      ghost var ix, before := TheIndex(), content;
      SetStackSize(uid, ref, amount);
      content := Written(content, uid, ref, amount);
      SetDone(ix, before, uid, ref, amount);
    }

    lemma SetKeeps(uid: Uid, ref: SlotRef, amount: int)
      requires Valid() && InRange(inventories, ref) && amount >= 0 && (amount > 0 || ref in content)
      requires ref in content ==> content[ref].uid == uid
      ensures ref.inventory in inventories
      ensures Mirrors(AfterSet(TheIndex(), uid, ref, amount), Written(content, uid, ref, amount))
      ensures forall name :: name in inventories ==> inventories[name].size >= 0
    {
      SetKeepsIff(TheIndex(), content, uid, ref, amount);
    }

    /** The fields now hold the index after the write. */
    lemma SetDone(ix: Index, before: Content, uid: Uid, ref: SlotRef, amount: int)
      requires ref.inventory in ix.inventories && TheIndex() == AfterSet(ix, uid, ref, amount)
      requires content == Written(before, uid, ref, amount)
      requires Mirrors(AfterSet(ix, uid, ref, amount), Written(before, uid, ref, amount))
      requires forall name :: name in ix.inventories ==> ix.inventories[name].size >= 0
      ensures Valid() && SameSizes(inventories, ix.inventories)
    {
      hide Mirrors, Written, StacksOf, Get;
    }

    /** A remote move into a chest: `carried` items arrive, and a reply may say so. */
    method MoveIn(ref: SlotRef, uid: Uid, amount: int) returns (moved: int, ok: bool, ghost carried: int)
      requires amount >= 0
      modifies this`chests, this`asks
      ensures 0 <= carried <= amount && ComesIn(old(chests), chests, ref, uid, carried)
      ensures ok ==> moved == carried
      ensures Logged(old(asks), asks, [Move(ref, amount, if ok then moved else 0)])
    {
      moved :| 0 <= moved <= amount;
      if ref in chests && chests[ref].uid != uid {
        moved := 0;
      }
      if moved > 0 {
        chests := chests[ref := Pile(uid, moved + if ref in chests then chests[ref].count else 0)];
      }
      carried := moved;
      ok := *;
      asks := asks + [Move(ref, amount, if ok then moved else 0)];
    }

    method MoveOut(ref: SlotRef, amount: int) returns (moved: int, ok: bool, ghost carried: int)
      requires amount >= 0
      modifies this`chests, this`asks
      ensures 0 <= carried <= amount && GoesOut(old(chests), chests, ref, carried)
      ensures ok ==> moved == carried
      ensures Logged(old(asks), asks, [Move(ref, amount, if ok then moved else 0)])
    {
      var limit := if ref in chests && chests[ref].count > 0 then Min(amount, chests[ref].count) else 0;
      moved :| 0 <= moved <= limit;
      carried := moved;
      ok := *;
      if moved > 0 {
        chests := Written(chests, chests[ref].uid, ref, chests[ref].count - moved);
      }
      asks := asks + [Move(ref, amount, if ok then moved else 0)];
    }

    /** The first unused slot of some inventory whose counter is not zero. */
    method FindEmptySlot() returns (found: Found)
      requires Valid()
      ensures found.Nowhere? ==> NoFreeSlot(inventories)
      ensures found.At? ==> InRange(inventories, found.ref) && found.ref !in content
    {
      var rest := inventories.Keys;
      while rest != {}
        invariant rest <= inventories.Keys
        invariant forall name :: name in inventories && name !in rest ==> inventories[name].freeSlots <= 0
        decreases |rest|
      {
        var name :| name in rest;
        rest := rest - {name};
        if inventories[name].freeSlots != 0 {
          var size := inventories[name].size;
          for i := 1 to size + 1
            invariant forall j :: 1 <= j < i ==> SlotRef(name, j) in usedSlots
          {
            if SlotRef(name, i) !in usedSlots {
              return At(SlotRef(name, i));
            }
          }
          FreeIffEmptySlot(TheIndex(), content, name);
        }
      }
      return Nowhere;
    }

    /** A stack in the index grows by what arrived; a failed call notes nothing. */
    method Fill(uid: Uid, ref: SlotRef, amount: int) returns (moved: int, ok: bool, ghost drift: int)
      requires Valid() && amount > 0 && ref in content && content[ref].uid == uid
      modifies this`stacksByUID, this`inventories, this`usedSlots, this`itemStats, this`content, this`chests, this`asks
      ensures Valid() && Shifts(old(Now()), Now(), uid, moved, ok, drift)
      ensures if ok then 0 <= moved <= amount && drift == 0 else moved == 0 && drift <= 0
      ensures Logged(old(asks), asks, [Move(ref, amount, if ok then moved else 0)])
      ensures content
        == if ok then Written(old(content), uid, ref, old(content)[ref].count + moved) else old(content)
    {
      var count := CountOf(uid, ref);
      ghost var v0 := Now();
      SizesSame(v0.inventories);
      hide Valid, Mirrors, Shifts, ComesIn, StockOf, InRange, SameSizes, Written, TheIndex, Logged;
      ghost var carried: int;
      moved, ok, carried := MoveIn(ref, uid, amount);
      drift := if ok then 0 else -carried;
      if ok {
        Record(uid, ref, count + moved);
      } else {
        moved := 0;
      }
      ghost var v1 := Now();
      FillShifts(v0, v1, ref, uid, count, moved, ok, carried);
    }

    /** The size the index has for a stack. */
    method CountOf(uid: Uid, ref: SlotRef) returns (count: int)
      requires Valid() && ref in content && content[ref].uid == uid
      ensures content[ref] == Pile(uid, count) && count > 0 && InRange(inventories, ref)
    {
      assert ref in StockOf(content, uid);
      assert StacksOf(stacksByUID, uid) == StockOf(content, uid);
      count := stacksByUID[uid][ref];
    }

    /** A stack in the index shrinks by what left; a failed call notes nothing. */
    method Drain(uid: Uid, ref: SlotRef, amount: int) returns (moved: int, ok: bool, ghost drift: int)
      requires Valid() && ref in content && content[ref].uid == uid && 0 < amount <= content[ref].count
      modifies this`stacksByUID, this`inventories, this`usedSlots, this`itemStats, this`content, this`chests, this`asks
      ensures Valid() && Shifts(old(Now()), Now(), uid, -moved, ok, drift)
      ensures if ok then 0 <= moved <= amount && drift == 0 else moved == 0 && drift >= 0
      ensures Logged(old(asks), asks, [Move(ref, amount, if ok then moved else 0)])
      ensures content
        == if ok then Written(old(content), uid, ref, old(content)[ref].count - moved) else old(content)
    {
      var count := CountOf(uid, ref);
      ghost var v0 := Now();
      SizesSame(v0.inventories);
      ghost var carried: int;
      moved, ok, carried := MoveOut(ref, amount);
      drift := if ok then 0 else carried;
      if ok {
        Record(uid, ref, count - moved);
      } else {
        moved := 0;
      }
      ghost var v1 := Now();
      DrainShifts(v0, v1, ref, uid, count, -moved, ok, carried);
    }

    /**
      The index notes the offered amount, not the moved one, so it stays exact if and only if the
      empty slot took all of it. No slot is found only if there is none.
     */
    method ImportToEmptySlot(uid: Uid, amount: int)
      returns (n: int, ok: bool, ghost drift: int, ghost last: Option<Move>)
      requires Valid() && amount > 0
      modifies this`stacksByUID, this`inventories, this`usedSlots, this`itemStats, this`content, this`chests, this`asks
      ensures Valid() && Shifts(old(Now()), Now(), uid, n, ok, drift) && Logged(old(asks), asks, AsList(last))
      ensures if ok then 0 <= n <= amount && drift >= 0 else n == 0 && drift <= 0
      ensures last.None? ==> ok && n == 0 && drift == 0 && NoFreeSlot(inventories) && content == old(content)
      ensures last.Some? ==> last.value.ref !in old(content) && last.value.asked == amount && last.value.took == n
      ensures last.Some? && ok ==>
        drift == amount - n && content == Written(old(content), uid, last.value.ref, amount)
    {
      var slot := FindEmptySlot();
      if slot.Nowhere? {
        NothingShifts(Now(), uid);
        return 0, true, 0, None;
      }
      ghost var v0 := Now();
      SizesSame(v0.inventories);
      hide Valid, Mirrors, Shifts, ComesIn, StockOf, InRange, SameSizes, Written, TheIndex, Logged;
      ghost var carried: int;
      n, ok, carried := MoveIn(slot.ref, uid, amount);
      drift := if ok then amount - carried else -carried;
      if ok {
        Record(uid, slot.ref, amount);
      } else {
        n := 0;
      }
      last := Some(Move(slot.ref, amount, n));
      ghost var v1 := Now();
      PlaceShifts(v0, v1, slot.ref, uid, amount, n, ok, carried);
    }

    /** The stack limit of an item, remembered after the first answer. */
    method GetMaxSize(uid: Uid) returns (size: int, ok: bool)
      modifies this`maxSizeByUID
      ensures ok ==> uid in maxSizeByUID && size == maxSizeByUID[uid]
      ensures uid in old(maxSizeByUID) ==> ok && maxSizeByUID == old(maxSizeByUID)
    {
      if uid in maxSizeByUID {
        return maxSizeByUID[uid], true;
      }
      ok := *;
      size := *;
      if ok {
        maxSizeByUID := maxSizeByUID[uid := size];
      }
    }

    /** Fills up one stack as far as its limit and `remain` allow. */
    method FillNext(uid: Uid, ref: SlotRef, remain: int, maxCount: int) returns (n: int, ok: bool, ghost drift: int)
      requires Valid() && ref in StockOf(content, uid) && remain > 0
      modifies this`stacksByUID, this`inventories, this`usedSlots, this`itemStats, this`content, this`chests, this`asks
      ensures Valid() && Shifts(old(Now()), Now(), uid, n, ok, drift)
      ensures if ok then 0 <= n <= remain && drift == 0 else n == 0 && drift <= 0
      ensures var room := maxCount - old(StockOf(content, uid))[ref];
        if room <= 0 then ok && n == 0 && Logged(old(asks), asks, [])
        else (ok ==> n <= room) && Logged(old(asks), asks, [Move(ref, Min(room, remain), n)])
      ensures Changes(old(StockOf(content, uid)), StockOf(content, uid), ref, if ok then n else 0)
    {
      InStock(content, uid, ref);
      NothingShifts(Now(), uid);
      var count := CountOf(uid, ref);
      ghost var before := content;
      assert StockOf(before, uid)[ref] == count;
      hide Valid, Shifts, StockOf, Now, InRange, Written, Changes;
      var toTransfer := Min(maxCount - count, remain);
      n, ok, drift := 0, true, 0;
      if toTransfer > 0 {
        n, ok, drift := Fill(uid, ref, toTransfer);
      } else {
        assert Written(before, uid, ref, count) == before by { SameWritten(before, uid, ref, count); }
      }
      ghost var after := content;
      WriteChanges(before, after, uid, ref, count, n, ok);
    }

    /** One round of the pass that began at `v0`: `more` is the move it asks for, if any. */
    method FillRound(uid: Uid, ref: SlotRef, remain: int, maxCount: int, ghost v0: View,
                     ghost rooms: map<SlotRef, int>, ghost amount: int, ghost moves: seq<Move>,
                     ghost rest: set<SlotRef>)
      returns (n: int, ok: bool, ghost drift: int, ghost more: seq<Move>)
      requires Valid() && ref in rest && 0 < remain == amount - TookOf(moves) && AllPositive(StockOf(v0.content, uid))
      requires rooms == Rooms(StockOf(v0.content, uid), maxCount)
      requires Underway(v0, Now(), uid, rooms, amount, moves, rest, true, true, 0)
      modifies this`stacksByUID, this`inventories, this`usedSlots, this`itemStats, this`content, this`chests, this`asks
      ensures Valid() && Logged(old(asks), asks, more) && TookOf(moves + more) == TookOf(moves) + n
      ensures if ok then 0 <= n <= remain && drift == 0 else n == 0
      ensures Underway(v0, Now(), uid, rooms, amount, moves + more, rest - {ref}, true, ok, drift)
    {
      hide Valid, Shifts, StockOf, Stands, Passing, AllPositive, Changes, Underway, TookOf;
      ghost var v1 := Now();
      StillToCome(v0, v1, uid, rooms, amount, moves, rest, true, ref);
      n, ok, drift := FillNext(uid, ref, remain, maxCount);
      ghost var v2 := Now();
      if rooms[ref] > 0 {
        more := [Move(ref, Min(rooms[ref], remain), n)];
        GoesOn(v0, v1, v2, uid, rooms, amount, moves, rest, true, more[0], ok, drift);
      } else {
        more := [];
        assert moves + more == moves;
        GoesPast(v0, v1, v2, uid, rooms, amount, moves, rest, true, ref);
      }
    }

    /** Fills up the stacks of the item, in any order, until all has come in or none is left. */
    method FillStacks(uid: Uid, amount: int, maxCount: int)
      returns (n: int, ok: bool, ghost drift: int, ghost moves: seq<Move>)
      requires Valid() && amount > 0
      modifies this`stacksByUID, this`inventories, this`usedSlots, this`itemStats, this`content, this`chests, this`asks
      ensures Valid() && Logged(old(asks), asks, moves) && if ok then 0 <= n == TookOf(moves) <= amount else n == 0
      ensures Passed(old(Now()), Now(), uid, Rooms(old(StockOf(content, uid)), maxCount), amount, moves, true, ok,
        drift)
    {
      ghost var v0 := Now();
      ghost var rooms := Rooms(StockOf(v0.content, uid), maxCount);
      StockIsPositive(content, inventories, uid);
      ok, drift, moves := true, 0, [];
      var remain := amount;
      var rest := StacksIn(uid);
      SetOut(v0, uid, rooms, amount, true);
      assert TookOf(moves) == 0 && rest == rooms.Keys;
      ghost var log := asks;
      assert AllPositive(StockOf(v0.content, uid)) && Logged(log, asks, moves);
      hide Valid, Shifts, StockOf, Stands, Passing, AllPositive, Changes, Underway, TookOf, Rooms, Asks, AsksAll,
        Passed;
      hide Logged;
      while rest != {}
        invariant ok && drift == 0 && Valid() && remain == amount - TookOf(moves) && Logged(log, asks, moves)
        invariant 0 < remain <= amount && Underway(v0, Now(), uid, rooms, amount, moves, rest, true, true, 0)
        decreases rest
      {
        var ref :| ref in rest;
        ghost var more: seq<Move>;
        ghost var mid := asks;
        n, ok, drift, more := FillRound(uid, ref, remain, maxCount, v0, rooms, amount, moves, rest);
        LogGrows(log, mid, asks, moves, more);
        moves := moves + more;
        rest := rest - {ref};
        remain := remain - n;
        if !ok || remain == 0 {
          break;
        }
      }
      n := if ok then amount - remain else 0;
      ghost var v := Now();
      PassDone(v0, v, uid, rooms, amount, moves, rest, true, ok, drift);
    }

    /** The slots the index has for an item. */
    method StacksIn(uid: Uid) returns (refs: set<SlotRef>)
      requires Valid()
      ensures refs == StockOf(content, uid).Keys
    {
      refs := StacksOf(stacksByUID, uid).Keys;
      assert StacksOf(stacksByUID, uid) == StockOf(content, uid);
    }

    /** Fills up the stacks there are, if their limit can be learnt. */
    method FillUp(uid: Uid, amount: int) returns (n: int, ok: bool, ghost drift: int, ghost moves: seq<Move>)
      requires Valid() && amount > 0
      modifies this
      ensures Valid() && Shifts(old(Now()), Now(), uid, n, ok, drift) && Logged(old(asks), asks, moves)
      ensures if ok then 0 <= n == TookOf(moves) <= amount && drift == 0 else n == 0 && drift <= 0
      ensures Filled(old(StockOf(content, uid)), maxSizeByUID, uid, amount, moves, ok)
      ensures uid in old(maxSizeByUID) ==> maxSizeByUID == old(maxSizeByUID)
      ensures Stands(old(StockOf(content, uid)), StockOf(content, uid), moves, true)
    {
      ghost var v0, log := Now(), asks;
      NothingShifts(v0, uid);
      StandsAtFirst(StockOf(content, uid), true);
      var stacks := StacksIn(uid);
      n, ok, drift, moves := 0, true, 0, [];
      assert Logged(log, asks, moves);
      hide Valid, Shifts, Logged, Stands, Asks, AsksAll, StockOf, AllPositive;
      if stacks != {} {
        var maxCount, known := GetMaxSize(uid);
        if known {
          n, ok, drift, moves := FillStacks(uid, amount, maxCount);
        } else {
          ShiftFails(v0, uid);
          ok := false;
        }
      }
    }

    /**
      Stacks are filled up first, in any order; the rest goes to an empty slot. The result is what
      really came in. A positive drift, where the index claims more than the chests hold, arises
      only when an empty slot took less than it was offered; without drift either all came in, or
      no slot is free and each stack is full or took less than it was asked for.
     */
    method ImportStack(uid: Uid, amount: int)
      returns (n: int, ok: bool, ghost drift: int, ghost moves: seq<Move>, ghost last: Option<Move>)
      requires Valid() && amount > 0
      modifies this
      ensures Valid() && Shifts(old(Now()), Now(), uid, n, ok, drift) && Logged(old(asks), asks, moves + AsList(last))
      ensures if ok then 0 <= n <= amount && drift >= 0 else drift <= 0
      ensures Filled(old(StockOf(content, uid)), maxSizeByUID, uid, amount, moves, ok || last.Some?)
      ensures uid in old(maxSizeByUID) ==> maxSizeByUID == old(maxSizeByUID)
      ensures last.Some? ==> last.value.asked == amount - TookOf(moves) > 0 && last.value.ref !in old(content)
      ensures ok ==>
        if last.Some? then n == TookOf(moves) + last.value.took && drift == last.value.asked - last.value.took
        else n == TookOf(moves) && drift == 0 && (n == amount || NoFreeSlot(inventories))
      ensures ok && AllTaken(moves) ==>
        TookOf(moves) == Min(amount, RoomLeft(old(StockOf(content, uid)), maxSizeByUID, uid))
      ensures ok && drift == 0 && n < amount ==>
        && NoFreeSlot(inventories)
        && FullOrLess(old(StockOf(content, uid)), StockOf(content, uid), maxSizeByUID, uid, moves)
    {
      ghost var v0, log := Now(), asks;
      StockIsPositive(content, inventories, uid);
      n, ok, drift, moves := FillUp(uid, amount);
      last := None;
      ghost var v1, mid, limits := Now(), asks, maxSizeByUID;
      NothingMore(log, mid, moves);
      if ok {
        FilledUp(StockOf(v0.content, uid), StockOf(v1.content, uid), limits, uid, amount, moves);
        FilledTook(StockOf(v0.content, uid), limits, uid, amount, moves, ok);
        SlotsStay(v0, v1, uid, n, ok, drift, moves);
      }
      hide Valid, Shifts, Filled, Stands, FullOrLess, RoomLeft, AllTaken, AllPositive, StockOf, Logged, AsList, TookOf;
      hide NoFreeSlot, Written, Min;
      if ok && n < amount {
        var filled := n;
        n, ok, drift, last := ImportToEmptySlot(uid, amount - filled);
        ghost var v2 := Now();
        ShiftsJoin(v0, v1, v2, uid, filled, n, ok, drift, if ok then filled + n else 0);
        LogGrows(log, mid, asks, moves, AsList(last));
        n := if ok then filled + n else 0;
      }
    }

    /** Takes what there is of one stack, as far as `remain` goes. */
    method DrainNext(uid: Uid, ref: SlotRef, remain: int) returns (n: int, ok: bool, ghost drift: int)
      requires Valid() && ref in StockOf(content, uid) && remain > 0
      modifies this`stacksByUID, this`inventories, this`usedSlots, this`itemStats, this`content, this`chests, this`asks
      ensures Valid() && Shifts(old(Now()), Now(), uid, -n, ok, drift)
      ensures if ok then 0 <= n <= remain && drift == 0 else n == 0 && drift >= 0
      ensures n <= old(StockOf(content, uid))[ref]
      ensures Logged(old(asks), asks, [Move(ref, Min(old(StockOf(content, uid))[ref], remain), n)])
      ensures old(StockOf(content, uid))[ref] > 0
      ensures Changes(old(StockOf(content, uid)), StockOf(content, uid), ref, if ok then -n else 0)
    {
      InStock(content, uid, ref);
      var count := CountOf(uid, ref);
      ghost var before := content;
      assert StockOf(before, uid)[ref] == count;
      hide Valid, Shifts, StockOf, Now, InRange, Written, Changes;
      n, ok, drift := Drain(uid, ref, Min(count, remain));
      ghost var after := content;
      WriteChanges(before, after, uid, ref, count, -n, ok);
    }

    /** One round of the pass that began at `v0`: `move` is what it asks for. */
    method DrainRound(uid: Uid, ref: SlotRef, remain: int, ghost v0: View, ghost amount: int,
                      ghost moves: seq<Move>, ghost rest: set<SlotRef>)
      returns (n: int, ok: bool, ghost drift: int, ghost move: Move)
      requires Valid() && ref in rest && 0 < remain == amount - TookOf(moves) && AllPositive(StockOf(v0.content, uid))
      requires Underway(v0, Now(), uid, StockOf(v0.content, uid), amount, moves, rest, false, true, 0)
      modifies this`stacksByUID, this`inventories, this`usedSlots, this`itemStats, this`content, this`chests, this`asks
      ensures Valid() && Logged(old(asks), asks, [move]) && TookOf(moves + [move]) == TookOf(moves) + n
      ensures if ok then 0 <= n <= remain && drift == 0 else n == 0
      ensures Underway(v0, Now(), uid, StockOf(v0.content, uid), amount, moves + [move], rest - {ref}, false, ok, drift)
    {
      hide Valid, Shifts, StockOf, Stands, Passing, AllPositive, Changes, Underway, TookOf;
      ghost var v1, stock := Now(), StockOf(v0.content, uid);
      StillToCome(v0, v1, uid, stock, amount, moves, rest, false, ref);
      n, ok, drift := DrainNext(uid, ref, remain);
      ghost var v2 := Now();
      move := Move(ref, Min(stock[ref], remain), n);
      GoesOn(v0, v1, v2, uid, stock, amount, moves, rest, false, move, ok, drift);
    }

    /** Takes from the stacks in any order until enough has left or none is left to ask. */
    method DrainStacks(uid: Uid, amount: int)
      returns (n: int, ok: bool, ghost drift: int, ghost moves: seq<Move>)
      requires Valid() && amount > 0
      modifies this`stacksByUID, this`inventories, this`usedSlots, this`itemStats, this`content, this`chests, this`asks
      ensures Valid() && Logged(old(asks), asks, moves) && if ok then 0 <= n == TookOf(moves) <= amount else n == 0
      ensures Passed(old(Now()), Now(), uid, old(StockOf(content, uid)), amount, moves, false, ok, drift)
    {
      ghost var v0, stock := Now(), StockOf(content, uid);
      StockIsPositive(content, inventories, uid);
      ok, drift, moves := true, 0, [];
      var remain := amount;
      var rest := StacksIn(uid);
      SetOut(v0, uid, stock, amount, false);
      ghost var log := asks;
      assert TookOf(moves) == 0 && rest == stock.Keys && Logged(log, asks, moves);
      hide Valid, Shifts, StockOf, Stands, Passing, AllPositive, Changes, Underway, TookOf, Asks, AsksAll, Passed,
        Logged;
      while rest != {}
        invariant ok && drift == 0 && Valid() && remain == amount - TookOf(moves) && Logged(log, asks, moves)
        invariant 0 < remain <= amount && Underway(v0, Now(), uid, stock, amount, moves, rest, false, true, 0)
        decreases rest
      {
        var ref :| ref in rest;
        ghost var move: Move;
        ghost var mid := asks;
        n, ok, drift, move := DrainRound(uid, ref, remain, v0, amount, moves, rest);
        LogGrows(log, mid, asks, moves, [move]);
        moves := moves + [move];
        rest := rest - {ref};
        remain := remain - n;
        if !ok || remain == 0 {
          break;
        }
      }
      n := if ok then amount - remain else 0;
      ghost var v := Now();
      PassDone(v0, v, uid, stock, amount, moves, rest, false, ok, drift);
    }

    /**
      Takes from the stacks until enough has left. The result is what really left. When every move
      took all that it was asked for, that is the amount, or everything there was; what is short of
      it is left in stacks that gave less than they were asked for.
     */
    method ExportStack(uid: Uid, amount: int) returns (n: int, ok: bool, ghost drift: int, ghost moves: seq<Move>)
      requires Valid() && amount > 0
      modifies this`stacksByUID, this`inventories, this`usedSlots, this`itemStats, this`content, this`chests, this`asks
      ensures Valid() && Shifts(old(Now()), Now(), uid, -n, ok, drift)
      ensures if ok then 0 <= n <= amount && drift == 0 else drift >= 0
      ensures Logged(old(asks), asks, moves) && Asks(old(StockOf(content, uid)), amount, moves)
      ensures ok ==> n == TookOf(moves) && AsksAll(old(StockOf(content, uid)), amount, moves)
      ensures ok ==> n <= old(Total(content, uid)) && (AllTaken(moves) ==> n == Min(amount, old(Total(content, uid))))
      ensures ok && n < amount ==>
        forall ref :: ref in StockOf(content, uid) ==> ref in old(StockOf(content, uid)) && TookLess(moves, ref)
    {
      ghost var stock := StockOf(content, uid);
      StockIsPositive(content, inventories, uid);
      n, ok, drift, moves := DrainStacks(uid, amount);
      ghost var left := StockOf(content, uid);
      StockIsPositive(content, inventories, uid);
      if ok {
        Drained(stock, left, amount, moves);
      }
    }

    /**
      Any sequence of imports and exports. While no call fails or leaves a drift, an index that was
      exact stays exact, and the chests change by exactly what the calls report.
     */
    method Serve(calls: seq<Call>) returns (moved: seq<int>, ghost views: seq<View>, ghost done: seq<Outcome>)
      requires Valid() && forall i :: 0 <= i < |calls| ==> calls[i].amount > 0
      modifies this
      ensures Valid() && Served(calls, views, done) && views[0] == old(Now()) && views[|calls|] == Now()
      ensures moved == MovedBy(done)
      ensures old(Exact()) && Quiet(done) ==> Exact()
      ensures old(Exact()) && Quiet(done) ==>
        forall u :: Total(chests, u) == old(Total(chests, u)) + Net(calls, moved, u)
    {
      moved, views, done := [], [Now()], [];
      hide Valid, Shifts, Total, Net, Filled, Asks, AsksAll, FullOrLess, AllTaken, Logged, AsList, NoFreeSlot, StockOf;
      for i := 0 to |calls|
        invariant Valid() && Served(calls[..i], views, done) && views[0] == old(Now()) && views[i] == Now()
        invariant moved == MovedBy(done)
      {
        var n: int, ok: bool;
        ghost var drift: int;
        if calls[i].Import? {
          ghost var moves: seq<Move>, last: Option<Move>;
          n, ok, drift, moves, last := ImportStack(calls[i].uid, calls[i].amount);
        } else {
          ghost var moves: seq<Move>;
          n, ok, drift, moves := ExportStack(calls[i].uid, calls[i].amount);
        }
        ghost var v, d := Now(), Outcome(n, ok, drift);
        assert CallShifts(views[i], v, calls[i], d);
        ServedGrows(calls, i, views, done, v, d);
        views, done, moved := views + [v], done + [d], moved + [n];
      }
      assert calls[..|calls|] == calls && done[..|done|] == done;
      if views[0].content == views[0].chests && Quiet(done) {
        QuietCallsStayExact(calls, views, done, |calls|);
      }
    }
  }
}
