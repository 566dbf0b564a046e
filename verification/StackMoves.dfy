/**
  The moves that an import or an export asks of the stacks of an item
  (internal/services/storage/multiple_chests_store.go): how much each stack is asked for, and
  what that comes to.
 */
module StackMoves {
  import opened Recipes
  import opened Sums
  import opened WarmIndex

  /** A remote move at a slot: how much was asked for, and how much the reply says was moved; none without a reply. */
  datatype Move = Move(ref: SlotRef, asked: int, took: int)

  function Min(a: int, b: int): int {
    if a < b then a else b
  }

  function TookOf(moves: seq<Move>): int {
    if moves == [] then 0 else TookOf(moves[..|moves| - 1]) + moves[|moves| - 1].took
  }

  predicate WasAsked(moves: seq<Move>, ref: SlotRef) {
    exists i :: 0 <= i < |moves| && moves[i].ref == ref
  }

  /** The stack is asked for its room or for what remains, whichever is less, and for something. */
  predicate AsksNext(rooms: map<SlotRef, int>, remain: int, move: Move) {
    && move.ref in rooms && 0 < move.asked == Min(rooms[move.ref], remain)
    && 0 <= move.took <= move.asked
  }

  /** No stack is asked twice, or after nothing remains. */
  ghost predicate Asks(rooms: map<SlotRef, int>, amount: int, moves: seq<Move>) {
    && (forall i, j :: 0 <= i < j < |moves| ==> moves[i].ref != moves[j].ref)
    && forall i :: 0 <= i < |moves| ==> AsksNext(rooms, amount - TookOf(moves[..i]), moves[i])
  }

  /** The moves go on until nothing remains or every stack with room has been asked. */
  ghost predicate AsksAll(rooms: map<SlotRef, int>, amount: int, moves: seq<Move>) {
    && Asks(rooms, amount, moves)
    && (TookOf(moves) == amount || forall ref :: ref in rooms && rooms[ref] > 0 ==> WasAsked(moves, ref))
  }

  /** On the way: the stacks in `rest` are still to come. */
  ghost predicate Passing(rooms: map<SlotRef, int>, amount: int, moves: seq<Move>, rest: set<SlotRef>) {
    && Asks(rooms, amount, moves)
    && (forall ref :: ref in rest ==> ref in rooms && !WasAsked(moves, ref))
    && (forall ref :: ref in rooms && ref !in rest && rooms[ref] > 0 ==> WasAsked(moves, ref))
  }

  /** Every move took all that it was asked for. */
  predicate AllTaken(moves: seq<Move>) {
    forall i :: 0 <= i < |moves| ==> moves[i].took == moves[i].asked
  }

  predicate TookLess(moves: seq<Move>, ref: SlotRef) {
    exists i :: 0 <= i < |moves| && moves[i].ref == ref && moves[i].took < moves[i].asked
  }

  function TookAt(moves: seq<Move>, ref: SlotRef): int {
    if moves == [] then 0
    else
      var last := moves[|moves| - 1];
      TookAt(moves[..|moves| - 1], ref) + if last.ref == ref then last.took else 0
  }

  // ---------------------------------------------------------------- one stack after the other

  lemma PassStarts(rooms: map<SlotRef, int>, amount: int)
    ensures Passing(rooms, amount, [], rooms.Keys)
  {
  }

  lemma PassStep(rooms: map<SlotRef, int>, amount: int, moves: seq<Move>, rest: set<SlotRef>, move: Move)
    requires Passing(rooms, amount, moves, rest) && move.ref in rest
    requires AsksNext(rooms, amount - TookOf(moves), move)
    ensures Passing(rooms, amount, moves + [move], rest - {move.ref})
    ensures TookOf(moves + [move]) == TookOf(moves) + move.took
  {
    hide AsksNext, TookOf;
    var moves' := moves + [move];
    assert moves'[..|moves|] == moves;
    assert TookOf(moves') == TookOf(moves) + move.took by { LastTook(moves, move); }
    forall i | 0 <= i < |moves'| ensures AsksNext(rooms, amount - TookOf(moves'[..i]), moves'[i]) {
      assert i < |moves| ==> moves'[..i] == moves[..i];
    }
    forall i, j | 0 <= i < j < |moves'| ensures moves'[i].ref != moves'[j].ref {
      assert WasAsked(moves, moves[i].ref);
    }
    assert WasAsked(moves', move.ref) by { assert moves'[|moves|].ref == move.ref; }
    forall ref ensures WasAsked(moves', ref) <==> WasAsked(moves, ref) || ref == move.ref {
      if i :| 0 <= i < |moves| && moves[i].ref == ref {
        assert moves'[i].ref == ref;
      }
    }
  }

  lemma LastTook(moves: seq<Move>, move: Move)
    ensures TookOf(moves + [move]) == TookOf(moves) + move.took
  {
    assert (moves + [move])[..|moves|] == moves;
  }

  lemma LastTookAt(moves: seq<Move>, move: Move, ref: SlotRef)
    ensures TookAt(moves + [move], ref) == TookAt(moves, ref) + if move.ref == ref then move.took else 0
  {
    assert (moves + [move])[..|moves|] == moves;
  }

  /** A stack without room is passed over. */
  lemma PassSkips(rooms: map<SlotRef, int>, amount: int, moves: seq<Move>, rest: set<SlotRef>, ref: SlotRef)
    requires Passing(rooms, amount, moves, rest) && ref in rest && rooms[ref] <= 0
    ensures Passing(rooms, amount, moves, rest - {ref})
  {
  }

  lemma PassEnds(rooms: map<SlotRef, int>, amount: int, moves: seq<Move>, rest: set<SlotRef>)
    requires Passing(rooms, amount, moves, rest) && (rest == {} || TookOf(moves) == amount)
    ensures AsksAll(rooms, amount, moves)
  {
  }

  lemma {:induction false} NothingTookAt(moves: seq<Move>, ref: SlotRef)
    requires !WasAsked(moves, ref)
    ensures TookAt(moves, ref) == 0
  {
    if moves != [] {
      var n := |moves| - 1;
      assert moves[n].ref != ref;
      assert forall i :: 0 <= i < n ==> moves[..n][i] == moves[i];
      NothingTookAt(moves[..n], ref);
    }
  }

  lemma {:induction false} TookAtOnce(moves: seq<Move>, i: nat)
    requires i < |moves| && forall a, b :: 0 <= a < b < |moves| ==> moves[a].ref != moves[b].ref
    ensures TookAt(moves, moves[i].ref) == moves[i].took
  {
    var n := |moves| - 1;
    if i < n {
      TookAtOnce(moves[..n], i);
    } else {
      NothingTookAt(moves[..n], moves[n].ref);
    }
  }

  lemma {:induction false} TookAtNonNegative(moves: seq<Move>, ref: SlotRef)
    requires forall i :: 0 <= i < |moves| ==> moves[i].took >= 0
    ensures TookAt(moves, ref) >= 0
  {
    if moves != [] {
      TookAtNonNegative(moves[..|moves| - 1], ref);
    }
  }

  // ---------------------------------------------------------------- what the moves come to

  lemma {:induction false} TookGrows(rooms: map<SlotRef, int>, amount: int, moves: seq<Move>, i: nat)
    requires Asks(rooms, amount, moves) && i <= |moves|
    ensures TookOf(moves[..i]) <= TookOf(moves)
    decreases |moves| - i
  {
    if i < |moves| {
      TookGrows(rooms, amount, moves, i + 1);
      assert moves[..i + 1][..i] == moves[..i];
    } else {
      assert moves[..i] == moves;
    }
  }

  lemma AsksPrefix(rooms: map<SlotRef, int>, amount: int, moves: seq<Move>, n: nat)
    requires Asks(rooms, amount, moves) && n <= |moves|
    ensures Asks(rooms, amount, moves[..n])
  {
    hide AsksNext;
    forall i | 0 <= i < n ensures AsksNext(rooms, amount - TookOf(moves[..n][..i]), moves[..n][i]) {
      assert moves[..n][..i] == moves[..i];
    }
  }

  lemma TookWithin(rooms: map<SlotRef, int>, amount: int, moves: seq<Move>)
    requires Asks(rooms, amount, moves) && amount >= 0
    ensures 0 <= TookOf(moves) <= amount
  {
    TookGrows(rooms, amount, moves, 0);
    if moves != [] {
      var n := |moves| - 1;
      assert AsksNext(rooms, amount - TookOf(moves[..n]), moves[n]);
    }
  }

  /** The room of the stacks that were not asked. */
  function Unasked(rooms: map<SlotRef, int>, moves: seq<Move>): map<SlotRef, int> {
    map ref | ref in rooms && rooms[ref] > 0 && !WasAsked(moves, ref) :: rooms[ref]
  }

  /** The room of all stacks that have any. */
  ghost function SummedRoom(rooms: map<SlotRef, int>): int {
    Sum(map ref | ref in rooms && rooms[ref] > 0 :: rooms[ref])
  }

  lemma UnaskedStep(rooms: map<SlotRef, int>, moves: seq<Move>)
    requires moves != []
    requires var last := moves[|moves| - 1].ref;
      last in rooms && rooms[last] > 0 && !WasAsked(moves[..|moves| - 1], last)
    ensures Sum(Unasked(rooms, moves[..|moves| - 1])) == Sum(Unasked(rooms, moves)) + rooms[moves[|moves| - 1].ref]
  {
    hide Sum;
    var n := |moves| - 1;
    var last := moves[n].ref;
    forall ref ensures WasAsked(moves, ref) <==> WasAsked(moves[..n], ref) || ref == last {
      if i :| 0 <= i < n && moves[..n][i].ref == ref {
        assert moves[i].ref == ref;
      }
      if i :| 0 <= i < |moves| && moves[i].ref == ref && i < n {
        assert moves[..n][i].ref == ref;
      }
    }
    assert Unasked(rooms, moves) == Unasked(rooms, moves[..n]) - {last};
    SumRemove(Unasked(rooms, moves[..n]), last);
  }

  lemma {:induction false} TookAndUnasked(rooms: map<SlotRef, int>, amount: int, moves: seq<Move>)
    requires Asks(rooms, amount, moves)
    ensures TookOf(moves) + Sum(Unasked(rooms, moves)) <= SummedRoom(rooms)
    ensures AllTaken(moves) && TookOf(moves) < amount ==>
      TookOf(moves) + Sum(Unasked(rooms, moves)) == SummedRoom(rooms)
  {
    hide Sum;
    if moves == [] {
      assert Unasked(rooms, moves) == map ref | ref in rooms && rooms[ref] > 0 :: rooms[ref];
    } else {
      var n := |moves| - 1;
      AsksPrefix(rooms, amount, moves, n);
      TookAndUnasked(rooms, amount, moves[..n]);
      var before, move := TookOf(moves[..n]), moves[n];
      assert AsksNext(rooms, amount - before, move) && TookOf(moves) == before + move.took;
      assert !WasAsked(moves[..n], move.ref) by {
        assert forall i :: 0 <= i < n ==> moves[..n][i] == moves[i];
      }
      UnaskedStep(rooms, moves);
      assert AllTaken(moves) ==> AllTaken(moves[..n]) && move.took == move.asked;
      hide TookOf, Unasked, SummedRoom, Asks, AllTaken, WasAsked;
    }
  }

  /** Moves that take all they are asked for come to the amount, or to the room there is. */
  lemma FullMoves(rooms: map<SlotRef, int>, amount: int, moves: seq<Move>)
    requires AsksAll(rooms, amount, moves) && amount >= 0
    ensures 0 <= TookOf(moves) <= Min(amount, SummedRoom(rooms))
    ensures AllTaken(moves) ==> TookOf(moves) == Min(amount, SummedRoom(rooms))
  {
    TookWithin(rooms, amount, moves);
    TookAndUnasked(rooms, amount, moves);
    SumNonNegative(Unasked(rooms, moves));
    hide Asks, SummedRoom;
    if TookOf(moves) < amount {
      assert Unasked(rooms, moves) == map[];
      SumZero(Unasked(rooms, moves));
    }
  }

  /** A stack that was asked, seen at its move. */
  lemma AtMove(rooms: map<SlotRef, int>, amount: int, moves: seq<Move>, i: nat) returns (before: int)
    requires Asks(rooms, amount, moves) && i < |moves|
    ensures AsksNext(rooms, amount - before, moves[i]) && before + moves[i].took <= TookOf(moves)
    ensures TookAt(moves, moves[i].ref) == moves[i].took
    ensures moves[i].took < moves[i].asked ==> TookLess(moves, moves[i].ref)
  {
    before := TookOf(moves[..i]);
    TookAtOnce(moves, i);
    TookGrows(rooms, amount, moves, i + 1);
    LastTook(moves[..i], moves[i]);
    assert moves[..i + 1] == moves[..i] + [moves[i]];
    hide TookOf, TookAt, AsksNext;
  }

  /** Where the moves came to less than the amount, each stack got all its room, or took less than it was asked for. */
  lemma FullOrShort(rooms: map<SlotRef, int>, amount: int, moves: seq<Move>, ref: SlotRef)
    requires AsksAll(rooms, amount, moves) && TookOf(moves) < amount && ref in rooms
    ensures rooms[ref] <= TookAt(moves, ref) || TookLess(moves, ref)
  {
    hide TookOf, TookAt, Asks, TookLess;
    if i :| 0 <= i < |moves| && moves[i].ref == ref {
      var before := AtMove(rooms, amount, moves, i);
    } else {
      NothingTookAt(moves, ref);
    }
  }

  // ---------------------------------------------------------------- the log of moves

  /** The moves that were asked for between two times. */
  ghost predicate Logged(before: seq<Move>, after: seq<Move>, moves: seq<Move>) {
    after == before + moves
  }

  function AsList(move: Option<Move>): seq<Move> {
    if move.Some? then [move.value] else []
  }

  lemma NothingMore(before: seq<Move>, after: seq<Move>, moves: seq<Move>)
    requires Logged(before, after, moves)
    ensures Logged(before, after, moves + AsList(None))
  {
    assert moves + [] == moves;
  }

  lemma LogGrows(before: seq<Move>, mid: seq<Move>, after: seq<Move>, moves: seq<Move>, more: seq<Move>)
    requires Logged(before, mid, moves) && Logged(mid, after, more)
    ensures Logged(before, after, moves + more)
  {
    assert before + moves + more == before + (moves + more);
  }

  // ---------------------------------------------------------------- the stacks after the moves

  /** One stack changes by `k`. */
  ghost predicate Changes(stock: map<SlotRef, int>, stock': map<SlotRef, int>, ref: SlotRef, k: int) {
    forall r :: Get(stock', r) == Get(stock, r) + if r == ref then k else 0
  }

  /** The stacks hold what they held before the moves, and what these brought in or took out. */
  ghost predicate Stands(before: map<SlotRef, int>, stock: map<SlotRef, int>, moves: seq<Move>, into: bool) {
    forall ref :: Get(stock, ref) == Get(before, ref) + if into then TookAt(moves, ref) else -TookAt(moves, ref)
  }

  ghost predicate AllPositive(stock: map<SlotRef, int>) {
    forall ref :: ref in stock ==> stock[ref] > 0
  }

  lemma StandsAtFirst(stock: map<SlotRef, int>, into: bool)
    ensures Stands(stock, stock, [], into)
  {
  }

  /** A stack that is still to come is as it was. */
  lemma StandsInRest(before: map<SlotRef, int>, stock: map<SlotRef, int>, rooms: map<SlotRef, int>, amount: int,
                     moves: seq<Move>, rest: set<SlotRef>, into: bool, ref: SlotRef)
    requires Stands(before, stock, moves, into) && Passing(rooms, amount, moves, rest) && ref in rest
    requires rooms.Keys == before.Keys && AllPositive(before)
    ensures ref in before && ref in stock && stock[ref] == before[ref]
  {
    NothingTookAt(moves, ref);
    assert Get(stock, ref) == Get(before, ref) > 0;
  }

  /** The stacks after one more move. */
  lemma StandsNext(before: map<SlotRef, int>, stock: map<SlotRef, int>, stock': map<SlotRef, int>, moves: seq<Move>,
                   move: Move, into: bool)
    requires Stands(before, stock, moves, into)
    requires Changes(stock, stock', move.ref, if into then move.took else -move.took)
    ensures Stands(before, stock', moves + [move], into)
  {
    forall ref
      ensures Get(stock', ref)
        == Get(before, ref) + if into then TookAt(moves + [move], ref) else -TookAt(moves + [move], ref)
    {
      LastTookAt(moves, move, ref);
      assert Get(stock, ref) == Get(before, ref) + if into then TookAt(moves, ref) else -TookAt(moves, ref);
    }
  }

  lemma PassAsks(rooms: map<SlotRef, int>, amount: int, moves: seq<Move>, rest: set<SlotRef>)
    requires Passing(rooms, amount, moves, rest)
    ensures Asks(rooms, amount, moves)
  {
  }

  lemma NothingAskedOf(rooms: map<SlotRef, int>, amount: int, moves: seq<Move>, ref: SlotRef)
    requires Asks(rooms, amount, moves) && ref !in rooms
    ensures TookAt(moves, ref) == 0
  {
    forall i | 0 <= i < |moves| ensures moves[i].ref != ref {
      assert AsksNext(rooms, amount - TookOf(moves[..i]), moves[i]);
    }
    NothingTookAt(moves, ref);
  }

  /** For an export the room of a stack is what it holds, and the summed room all there is. */
  lemma StockIsRoom(stock: map<SlotRef, int>)
    requires AllPositive(stock)
    ensures SummedRoom(stock) == Sum(stock)
  {
    assert (map ref | ref in stock && stock[ref] > 0 :: stock[ref]) == stock;
  }

  /** What moves out of the stacks come to, and what they leave. */
  lemma Drained(before: map<SlotRef, int>, stock: map<SlotRef, int>, amount: int, moves: seq<Move>)
    requires AsksAll(before, amount, moves) && Stands(before, stock, moves, false) && amount > 0
    requires AllPositive(before) && AllPositive(stock)
    ensures TookOf(moves) <= Sum(before) && (AllTaken(moves) ==> TookOf(moves) == Min(amount, Sum(before)))
    ensures TookOf(moves) < amount ==> forall ref :: ref in stock ==> ref in before && TookLess(moves, ref)
  {
    FullMoves(before, amount, moves);
    StockIsRoom(before);
    if TookOf(moves) < amount {
      forall ref | ref in stock ensures ref in before && TookLess(moves, ref) {
        assert Get(stock, ref) == Get(before, ref) - TookAt(moves, ref);
        if ref in before {
          FullOrShort(before, amount, moves, ref);
        } else {
          NothingAskedOf(before, amount, moves, ref);
        }
      }
    }
  }

  /** How far each stack is below the limit. */
  function Rooms(stock: map<SlotRef, int>, limit: int): map<SlotRef, int> {
    map ref | ref in stock :: limit - stock[ref]
  }

  /** The stacks were asked by the limit that is remembered for the item, and all of them if `all` says so. */
  ghost predicate Filled(stock: map<SlotRef, int>, limits: map<Uid, int>, uid: Uid, amount: int, moves: seq<Move>,
                         all: bool) {
    if stock == map[] then moves == []
    else
      && (moves != [] || all ==> uid in limits && Asks(Rooms(stock, limits[uid]), amount, moves))
      && (all ==> AsksAll(Rooms(stock, limits[uid]), amount, moves))
  }

  lemma FilledTook(stock: map<SlotRef, int>, limits: map<Uid, int>, uid: Uid, amount: int, moves: seq<Move>,
                   all: bool)
    requires Filled(stock, limits, uid, amount, moves, all)
    ensures forall i :: 0 <= i < |moves| ==> moves[i].took >= 0
  {
    if moves != [] {
      forall i | 0 <= i < |moves| ensures moves[i].took >= 0 {
        assert AsksNext(Rooms(stock, limits[uid]), amount - TookOf(moves[..i]), moves[i]);
      }
    }
  }

  /** How much the stacks of an item can take before each is at the limit that is remembered for it. */
  ghost function RoomLeft(stock: map<SlotRef, int>, limits: map<Uid, int>, uid: Uid): int {
    if uid in limits then SummedRoom(Rooms(stock, limits[uid])) else 0
  }

  /** Each stack there was is at the limit, or took less than it was asked for. */
  ghost predicate FullOrLess(before: map<SlotRef, int>, stock: map<SlotRef, int>, limits: map<Uid, int>, uid: Uid,
                             moves: seq<Move>) {
    forall ref :: ref in before ==>
      uid in limits && (limits[uid] <= Get(stock, ref) || TookLess(moves, ref))
  }

  /** What moves into the stacks come to, and how they leave them. */
  lemma FilledUp(before: map<SlotRef, int>, stock: map<SlotRef, int>, limits: map<Uid, int>, uid: Uid, amount: int,
                 moves: seq<Move>)
    requires Filled(before, limits, uid, amount, moves, true) && Stands(before, stock, moves, true) && amount > 0
    ensures AllTaken(moves) ==> TookOf(moves) == Min(amount, RoomLeft(before, limits, uid))
    ensures TookOf(moves) < amount ==> FullOrLess(before, stock, limits, uid, moves)
  {
    if before != map[] {
      var rooms := Rooms(before, limits[uid]);
      FullMoves(rooms, amount, moves);
      if TookOf(moves) < amount {
        forall ref | ref in before ensures limits[uid] <= Get(stock, ref) || TookLess(moves, ref) {
          FullOrShort(rooms, amount, moves, ref);
          assert Get(stock, ref) == Get(before, ref) + TookAt(moves, ref);
        }
      }
    } else if uid in limits {
      SumZero(map ref | ref in Rooms(before, limits[uid]) :: 0);
    }
  }
}
