/**
  The form in which recipe items are edited: its printer (internal/server/resources/components/helpers.go)
  and its parser (internal/services/recipe/recipe_manager.go).
 */
module Text {
  import opened Recipes

  /** The characters that unicode.IsSpace accepts. */
  predicate IsSpace(c: char) {
    || c in {'\t', '\n', '\U{000B}', '\U{000C}', '\r', ' ', '\U{0085}', '\U{00A0}', '\U{1680}'}
    || '\U{2000}' <= c <= '\U{200A}'
    || c in {'\U{2028}', '\U{2029}', '\U{202F}', '\U{205F}', '\U{3000}'}
  }

  predicate Trimmed(s: string) {
    s != "" ==> !IsSpace(s[0]) && !IsSpace(s[|s| - 1])
  }

  function TrimLeft(s: string): string {
    if s != "" && IsSpace(s[0]) then TrimLeft(s[1..]) else s
  }

  function TrimRight(s: string): string {
    if s != "" && IsSpace(s[|s| - 1]) then TrimRight(s[..|s| - 1]) else s
  }

  function TrimSpace(s: string): string {
    TrimRight(TrimLeft(s))
  }

  lemma {:induction false} TrimRightEnds(s: string)
    ensures TrimRight(s) <= s && (TrimRight(s) != "" ==> !IsSpace(TrimRight(s)[|TrimRight(s)| - 1]))
  {
    if s != "" && IsSpace(s[|s| - 1]) {
      TrimRightEnds(s[..|s| - 1]);
    }
  }

  lemma {:induction false} TrimLeftStarts(s: string)
    ensures TrimLeft(s) != "" ==> !IsSpace(TrimLeft(s)[0])
  {
    if s != "" && IsSpace(s[0]) {
      TrimLeftStarts(s[1..]);
    }
  }

  /** Trimming leaves a trimmed string, and leaves exactly the trimmed strings alone. */
  lemma TrimKeepsTrimmed(s: string)
    ensures Trimmed(TrimSpace(s)) && (TrimSpace(s) == s <==> Trimmed(s))
  {
    TrimLeftStarts(s);
    TrimRightEnds(TrimLeft(s));
  }

  predicate AllSpace(s: string) {
    forall i :: 0 <= i < |s| ==> IsSpace(s[i])
  }

  lemma {:induction false} TrimLeftTakesSpace(s: string) returns (before: string)
    ensures s == before + TrimLeft(s) && AllSpace(before)
  {
    before := "";
    if s != "" && IsSpace(s[0]) {
      var rest := TrimLeftTakesSpace(s[1..]);
      before := [s[0]] + rest;
    }
  }

  lemma {:induction false} TrimRightTakesSpace(s: string) returns (after: string)
    ensures s == TrimRight(s) + after && AllSpace(after)
  {
    after := "";
    if s != "" && IsSpace(s[|s| - 1]) {
      var rest := TrimRightTakesSpace(s[..|s| - 1]);
      after := rest + [s[|s| - 1]];
    }
  }

  /** What trimming takes away at either end is space. */
  lemma TrimTakesSpace(s: string) returns (before: string, after: string)
    ensures s == before + TrimSpace(s) + after && AllSpace(before) && AllSpace(after)
  {
    before := TrimLeftTakesSpace(s);
    after := TrimRightTakesSpace(TrimLeft(s));
  }

  // ---------------------------------------------------------------- decimal numbers

  predicate IsDigit(c: char) {
    '0' <= c <= '9'
  }

  function Digit(d: int): char
    requires 0 <= d < 10
  {
    ('0' as int + d) as char
  }

  function Digits(n: nat): string {
    if n < 10 then [Digit(n)] else Digits(n / 10) + [Digit(n % 10)]
  }

  function Itoa(n: int): string {
    if n < 0 then "-" + Digits(-n) else Digits(n)
  }

  predicate AllDigits(s: string) {
    forall i :: 0 <= i < |s| ==> IsDigit(s[i])
  }

  function Value(s: string): nat
    requires AllDigits(s)
  {
    if s == "" then 0 else 10 * Value(s[..|s| - 1]) + (s[|s| - 1] as int - '0' as int)
  }

  predicate Int64(n: int) {
    -0x8000_0000_0000_0000 <= n < 0x8000_0000_0000_0000
  }

  /** A sign, then at least one digit, within the range of a 64-bit integer. */
  function Atoi(s: string): Option<int> {
    var unsigned := if s != "" && (s[0] == '-' || s[0] == '+') then s[1..] else s;
    if unsigned == "" || !AllDigits(unsigned) then None
    else
      var size: int := Value(unsigned);
      var n := if s[0] == '-' then -size else size;
      if Int64(n) then Some(n) else None
  }

  lemma {:induction false} DigitsValue(n: nat)
    ensures Digits(n) != "" && AllDigits(Digits(n)) && Value(Digits(n)) == n
  {
    if n >= 10 {
      DigitsValue(n / 10);
      assert Digits(n)[..|Digits(n)| - 1] == Digits(n / 10);
    } else {
      assert Digits(n)[..0] == "";
    }
  }

  /** Printing and reading a number undo each other exactly in the 64-bit range. */
  lemma AtoiItoa(n: int)
    ensures Atoi(Itoa(n)) == if Int64(n) then Some(n) else None
    ensures Itoa(n) != "" && Trimmed(Itoa(n))
  {
    var digits := Digits(if n < 0 then -n else n);
    DigitsValue(if n < 0 then -n else n);
    assert IsDigit(digits[0]) && IsDigit(digits[|digits| - 1]);
    if n < 0 {
      assert Itoa(n)[1..] == digits;
    }
  }

  lemma {:induction false} LeadingZero(s: string)
    requires AllDigits(s)
    ensures AllDigits("0" + s) && Value("0" + s) == Value(s)
  {
    if s == "" {
      assert ("0" + s)[..0] == "" && ("0" + s)[0] == '0';
    } else {
      var n := |s| - 1;
      LeadingZero(s[..n]);
      assert ("0" + s)[..n + 1] == "0" + s[..n] && ("0" + s)[n + 1] == s[n];
    }
  }

  /** A plus sign and leading zeros are read over; a sign by itself, or a space, makes no number. */
  lemma AtoiReads(n: nat)
    requires Int64(n)
    ensures Atoi("+" + Digits(n)) == Atoi("0" + Digits(n)) == Some(n as int)
    ensures Atoi("") == Atoi("-") == Atoi("+") == Atoi(" " + Digits(n)) == Atoi(Digits(n) + " ") == None
  {
    var s := Digits(n);
    DigitsValue(n);
    LeadingZero(s);
    assert IsDigit(s[0]) && ("+" + s)[1..] == s && ("0" + s)[0] == '0';
    assert (" " + s)[0] == ' ' && (s + " ")[|s|] == ' ' && (s + " ")[0] == s[0];
    hide Digits, Value;
    assert !AllDigits(" " + s) && !AllDigits(s + " ");
  }

  lemma ItoaInjective(a: int, b: int)
    requires Itoa(a) == Itoa(b)
    ensures a == b
  {
    DigitsValue(if a < 0 then -a else a);
    DigitsValue(if b < 0 then -b else b);
    var s := Itoa(a);
    if a < 0 || b < 0 {
      assert s[0] == '-';
      assert a < 0 ==> s[1..] == Digits(-a);
      assert b < 0 ==> s[1..] == Digits(-b);
    }
  }
}

module RecipeForm {
  import opened Recipes
  import opened Text

  datatype Result<T> = Ok(value: T) | Error(message: string)

  datatype FormItem = FormItem(uid: string, amount: int, slot: Option<int>, role: string)

  /** Submitted values: each key has one or more. */
  type Form = map<string, seq<string>>

  /** The four properties of an item, in the order in which the parser tries them. */
  datatype Prop = ItemProp | SlotProp | AmountProp | RoleProp

  function Name(prop: Prop): string {
    match prop
    case ItemProp => "item"
    case SlotProp => "slot"
    case AmountProp => "amount"
    case RoleProp => "role"
  }

  function Key(prop: Prop, id: string): string {
    Name(prop) + "_" + id
  }

  /** The values found for one item. */
  datatype Group = Group(item: Option<string>, slot: Option<string>, amount: Option<string>, role: Option<string>)

  const EmptyGroup := Group(None, None, None, None)

  function Put(group: Group, prop: Prop, value: string): Group {
    match prop
    case ItemProp => group.(item := Some(value))
    case SlotProp => group.(slot := Some(value))
    case AmountProp => group.(amount := Some(value))
    case RoleProp => group.(role := Some(value))
  }

  // ---------------------------------------------------------------- printing

  function Enter(form: Form, item: FormItem, id: string): Form {
    (if item.slot.Some? then form[Key(SlotProp, id) := [Itoa(item.slot.value)]] else form)
    [Key(ItemProp, id) := [item.uid]][Key(RoleProp, id) := [item.role]][Key(AmountProp, id) := [Itoa(item.amount)]]
  }

  /** The form of the first `n` items, each under its position. */
  function Printed(items: seq<FormItem>, n: nat): Form
    requires n <= |items|
  {
    if n == 0 then map[] else Enter(Printed(items, n - 1), items[n - 1], Itoa(n - 1))
  }

  method RecipeItemsToParams(items: seq<FormItem>) returns (params: Form)
    ensures params == Printed(items, |items|)
  {
    hide Key, Itoa;
    params := map[];
    for i := 0 to |items|
      invariant params == Printed(items, i)
    {
      var item, id := items[i], Itoa(i);
      if item.slot.Some? {
        params := params[Key(SlotProp, id) := [Itoa(item.slot.value)]];
      }
      params := params[Key(ItemProp, id) := [item.uid]];
      params := params[Key(RoleProp, id) := [item.role]];
      params := params[Key(AmountProp, id) := [Itoa(item.amount)]];
    }
  }

  // ---------------------------------------------------------------- parsing

  /** The property and the id that a key names, by the first prefix that matches. */
  datatype Named = Nothing | Named(prop: Prop, id: string)

  function NamedBy(key: string): Named {
    if "item_" <= key then Named(ItemProp, key[5..])
    else if "slot_" <= key then Named(SlotProp, key[5..])
    else if "amount_" <= key then Named(AmountProp, key[7..])
    else if "role_" <= key then Named(RoleProp, key[5..])
    else Nothing
  }

  /** A key names a property and an id exactly when it is written from them. */
  lemma NamedByKey(key: string, prop: Prop, id: string)
    ensures NamedBy(key) == Named(prop, id) <==> key == Key(prop, id)
  {
    assert Key(prop, id)[0] == Name(prop)[0];
    assert Key(prop, id)[|Name(prop)| + 1..] == id;
  }

  ghost predicate Filled(form: Form) {
    forall key :: key in form ==> form[key] != []
  }

  ghost predicate HasId(form: Form, id: string) {
    Key(ItemProp, id) in form || Key(SlotProp, id) in form || Key(AmountProp, id) in form || Key(RoleProp, id) in form
  }

  /** Of several values submitted under a key the first counts. */
  function First(form: Form, key: string): Option<string>
    requires key in form ==> form[key] != []
  {
    if key in form then Some(form[key][0]) else None
  }

  function GroupOf(form: Form, id: string): Group
    requires forall key :: key in form ==> form[key] != []
  {
    Group(First(form, Key(ItemProp, id)), First(form, Key(SlotProp, id)),
          First(form, Key(AmountProp, id)), First(form, Key(RoleProp, id)))
  }

  function TrimmedText(value: Option<string>): string {
    if value.Some? then TrimSpace(value.value) else ""
  }

  function ParseItemParams(group: Group): Result<FormItem> {
    var uid := TrimmedText(group.item);
    if uid == "" then Error("Item uid not specified")
    else
      var amount := if group.amount.Some? then Atoi(group.amount.value) else Some(1);
      if amount.None? then Error("Invalid amount")
      else
        var slotText := TrimmedText(group.slot);
        var slot := if slotText == "" then None else Atoi(slotText);
        if slotText != "" && slot.None? then Error("Invalid slot index")
        else
          var role := TrimmedText(group.role);
          if role == "" then Error("Role must be specified") else Ok(FormItem(uid, amount.value, slot, role))
  }

  /** The first value submitted under a key, without the space around it; nothing for a key that is missing. */
  function Entry(form: Form, key: string): string
    requires key in form ==> form[key] != []
  {
    if key in form then TrimSpace(form[key][0]) else ""
  }

  /**
    What a person who filled in the form under an id has asked for: an amount left out is one, a
    slot left out none.
   */
  ghost predicate Describes(form: Form, id: string, item: FormItem)
    requires forall key :: key in form ==> form[key] != []
  {
    && item.uid == Entry(form, "item_" + id) != ""
    && item.role == Entry(form, "role_" + id) != ""
    && (if "amount_" + id in form then Atoi(form["amount_" + id][0]) == Some(item.amount) else item.amount == 1)
    && (if Entry(form, "slot_" + id) == "" then item.slot == None
        else item.slot.Some? && Atoi(Entry(form, "slot_" + id)) == item.slot)
  }

  /** What keeps the values under an id from describing an item; the first complaint is the one that is made. */
  predicate Complaint(form: Form, id: string, message: string)
    requires forall key :: key in form ==> form[key] != []
  {
    var badAmount := "amount_" + id in form && Atoi(form["amount_" + id][0]) == None;
    var badSlot := Entry(form, "slot_" + id) != "" && Atoi(Entry(form, "slot_" + id)) == None;
    message == if Entry(form, "item_" + id) == "" then "Item uid not specified"
      else if badAmount then "Invalid amount"
      else if badSlot then "Invalid slot index"
      else "Role must be specified"
  }

  /** An id parses to the item that its values describe, and is refused exactly if they describe none. */
  lemma ParsedMeans(form: Form, id: string, r: Result<FormItem>)
    requires Filled(form) && HasId(form, id)
    ensures Parsed(form, id, r) <==>
      if r.Ok? then Describes(form, id, r.value)
      else (forall item :: !Describes(form, id, item)) && Complaint(form, id, r.message)
  {
    assert Key(ItemProp, id) == "item_" + id && Key(SlotProp, id) == "slot_" + id
      && Key(AmountProp, id) == "amount_" + id && Key(RoleProp, id) == "role_" + id;
    hide TrimSpace, Atoi;
    var parsed := ParseItemParams(GroupOf(form, id));
    if parsed.Ok? {
      assert Describes(form, id, parsed.value);
    }
  }

  /** Every id of the form once, in the order in which the parser happens to visit them. */
  ghost predicate Lists(order: seq<string>, form: Form) {
    Distinct(order) && forall id :: id in order <==> HasId(form, id)
  }

  ghost predicate Distinct(order: seq<string>) {
    forall i, j :: 0 <= i < j < |order| ==> order[i] != order[j]
  }

  ghost predicate Parsed(form: Form, id: string, r: Result<FormItem>)
    requires Filled(form)
  {
    HasId(form, id) && ParseItemParams(GroupOf(form, id)) == r
  }

  /** What the parser may return for a form: one item for each id, or the complaint of some id. */
  ghost predicate ParsesTo(form: Form, r: Result<seq<FormItem>>, order: seq<string>)
    requires Filled(form)
  {
    match r
    case Ok(items) => Lists(order, form) && EachParsed(form, order, items)
    case Error(message) => exists id :: Parsed(form, id, Error(message))
  }

  ghost predicate EachParsed(form: Form, order: seq<string>, items: seq<FormItem>)
    requires Filled(form)
  {
    |items| == |order| && forall i :: 0 <= i < |items| ==> Parsed(form, order[i], Ok(items[i]))
  }

  function Found(groups: map<string, Group>, id: string): Group {
    if id in groups then groups[id] else EmptyGroup
  }

  ghost predicate GroupedFor(form: Form, groups: map<string, Group>, id: string)
    requires Filled(form)
  {
    (id in groups <==> HasId(form, id)) && GroupOf(form, id) == Found(groups, id)
  }

  ghost predicate GroupedAs(form: Form, groups: map<string, Group>)
    requires Filled(form)
  {
    forall id :: GroupedFor(form, groups, id)
  }

  function PutFirst(groups: map<string, Group>, named: Named, value: string): map<string, Group> {
    match named
    case Nothing => groups
    case Named(prop, id) => groups[id := Put(Found(groups, id), prop, value)]
  }

  predicate Carries(named: Named, id: string) {
    named.Named? && named.id == id
  }

  /** What a value under a further key adds. */
  lemma GroupAt(form: Form, key: string, values: seq<string>, id: string)
    requires Filled(form) && values != []
    ensures Filled(form[key := values])
    ensures GroupOf(form[key := values], id)
      == if Carries(NamedBy(key), id) then Put(GroupOf(form, id), NamedBy(key).prop, values[0]) else GroupOf(form, id)
    ensures HasId(form[key := values], id) <==> HasId(form, id) || Carries(NamedBy(key), id)
  {
    NamedByKey(key, ItemProp, id);
    NamedByKey(key, SlotProp, id);
    NamedByKey(key, AmountProp, id);
    NamedByKey(key, RoleProp, id);
    hide NamedBy, Key;
  }

  lemma GroupStepAt(form: Form, groups: map<string, Group>, key: string, values: seq<string>, id: string)
    requires Filled(form) && GroupedFor(form, groups, id) && values != []
    ensures Filled(form[key := values])
    ensures GroupedFor(form[key := values], PutFirst(groups, NamedBy(key), values[0]), id)
  {
    GroupAt(form, key, values, id);
    hide NamedBy, GroupOf, HasId, Put;
  }

  lemma GroupStep(form: Form, groups: map<string, Group>, key: string, values: seq<string>)
    requires Filled(form) && GroupedAs(form, groups) && values != []
    ensures Filled(form[key := values])
    ensures GroupedAs(form[key := values], PutFirst(groups, NamedBy(key), values[0]))
  {
    hide NamedBy, GroupedFor, PutFirst;
    GroupAt(form, key, values, "");
    var form', groups' := form[key := values], PutFirst(groups, NamedBy(key), values[0]);
    forall id ensures GroupedFor(form', groups', id) {
      GroupStepAt(form, groups, key, values, id);
    }
  }

  /** Collects the values of each id, then parses each id's item; both in any order. */
  method ParseItemsParams(form: Form) returns (r: Result<seq<FormItem>>, ghost order: seq<string>)
    requires Filled(form)
    ensures ParsesTo(form, r, order)
  {
    var groups := CollectGroups(form);
    r, order := ParseGroups(form, groups);
  }

  /** The part of the form that has been read. */
  function Read(form: Form, rest: set<string>): Form {
    form - rest
  }

  lemma ReadNext(form: Form, rest: set<string>, key: string)
    requires key in rest && rest <= form.Keys && Filled(form)
    ensures Filled(Read(form, rest)) && Read(form, rest - {key}) == Read(form, rest)[key := form[key]]
  {
  }

  lemma NothingRead(form: Form)
    requires Filled(form)
    ensures Filled(Read(form, form.Keys)) && GroupedAs(Read(form, form.Keys), map[])
  {
    assert Read(form, form.Keys) == map[];
  }

  method CollectGroups(form: Form) returns (groups: map<string, Group>)
    requires Filled(form)
    ensures GroupedAs(form, groups)
  {
    groups := map[];
    var rest := form.Keys;
    NothingRead(form);
    hide NamedBy, GroupedAs, Read, Filled, Put, Found;
    while rest != {}
      invariant rest <= form.Keys && Filled(Read(form, rest)) && GroupedAs(Read(form, rest), groups)
      decreases rest
    {
      var key :| key in rest;
      ReadNext(form, rest, key);
      var values := form[key];
      assert values != [] by { FilledAt(form, key); }
      GroupStep(Read(form, rest), groups, key, values);
      var named := NamedBy(key);
      if named.Named? {
        groups := groups[named.id := Put(Found(groups, named.id), named.prop, values[0])];
      }
      rest := rest - {key};
    }
    AllRead(form);
  }

  lemma FilledAt(form: Form, key: string)
    requires Filled(form) && key in form
    ensures form[key] != []
  {
  }

  lemma AllRead(form: Form)
    ensures Read(form, {}) == form
  {
  }

  lemma GroupIds(form: Form, groups: map<string, Group>)
    requires Filled(form) && GroupedAs(form, groups)
    ensures forall id :: id in groups <==> HasId(form, id)
  {
    hide HasId, GroupOf;
    forall id ensures id in groups <==> HasId(form, id) {
      assert GroupedFor(form, groups, id);
    }
  }

  lemma ParsedFor(form: Form, groups: map<string, Group>, id: string)
    requires Filled(form) && GroupedAs(form, groups) && id in groups
    ensures Parsed(form, id, ParseItemParams(groups[id]))
  {
    assert GroupedFor(form, groups, id);
  }

  /** The order lists the groups that are no longer to visit. */
  ghost predicate Visited(order: seq<string>, groups: map<string, Group>, rest: set<string>) {
    && rest <= groups.Keys
    && Distinct(order)
    && (forall id :: id in order <==> id in groups && id !in rest)
  }

  lemma VisitNext(order: seq<string>, groups: map<string, Group>, rest: set<string>, id: string)
    requires Visited(order, groups, rest) && id in rest
    ensures Visited(order + [id], groups, rest - {id}) && id in groups
  {
  }

  lemma VisitedAll(form: Form, order: seq<string>, groups: map<string, Group>)
    requires Filled(form) && GroupedAs(form, groups) && Visited(order, groups, {})
    ensures Lists(order, form)
  {
    GroupIds(form, groups);
    hide GroupedAs, HasId;
  }

  method ParseGroups(form: Form, groups: map<string, Group>)
    returns (r: Result<seq<FormItem>>, ghost order: seq<string>)
    requires Filled(form) && GroupedAs(form, groups)
    ensures ParsesTo(form, r, order)
  {
    var rest := groups.Keys;
    var items := [];
    order := [];
    hide Filled, GroupedAs, Parsed, ParseItemParams, Lists;
    while rest != {}
      invariant Visited(order, groups, rest) && EachParsed(form, order, items)
      decreases rest
    {
      var id :| id in rest;
      VisitNext(order, groups, rest, id);
      rest := rest - {id};
      order := order + [id];
      var item := ParseItemParams(groups[id]);
      ParsedFor(form, groups, id);
      if item.Error? {
        return Error(item.message), order;
      }
      items := items + [item.value];
    }
    VisitedAll(form, order, groups);
    return Ok(items), order;
  }

  // ---------------------------------------------------------------- the round trip

  /** What one item is printed as. */
  function ItemGroup(item: FormItem): Group {
    Group(Some(item.uid), if item.slot.Some? then Some(Itoa(item.slot.value)) else None, Some(Itoa(item.amount)),
      Some(item.role))
  }

  predicate Clean(item: FormItem) {
    item.uid != "" && Trimmed(item.uid) && item.role != "" && Trimmed(item.role)
  }

  predicate Machine(item: FormItem) {
    Int64(item.amount) && (item.slot.Some? ==> Int64(item.slot.value))
  }

  lemma EnterGroup(form: Form, item: FormItem, id: string, other: string)
    requires Filled(form) && (id == other ==> GroupOf(form, id) == EmptyGroup)
    ensures Filled(Enter(form, item, id))
    ensures GroupOf(Enter(form, item, id), other) == if other == id then ItemGroup(item) else GroupOf(form, other)
    ensures HasId(Enter(form, item, id), other) <==> HasId(form, other) || other == id
  {
    NamedByKey(Key(SlotProp, id), SlotProp, id);
    NamedByKey(Key(ItemProp, id), ItemProp, id);
    NamedByKey(Key(RoleProp, id), RoleProp, id);
    NamedByKey(Key(AmountProp, id), AmountProp, id);
    hide NamedBy, GroupOf, HasId, Key, Itoa;
    var f0 := form;
    if item.slot.Some? {
      f0 := form[Key(SlotProp, id) := [Itoa(item.slot.value)]];
      GroupAt(form, Key(SlotProp, id), [Itoa(item.slot.value)], other);
    }
    var f1 := f0[Key(ItemProp, id) := [item.uid]];
    GroupAt(f0, Key(ItemProp, id), [item.uid], other);
    var f2 := f1[Key(RoleProp, id) := [item.role]];
    GroupAt(f1, Key(RoleProp, id), [item.role], other);
    GroupAt(f2, Key(AmountProp, id), [Itoa(item.amount)], other);
  }

  predicate IsPosition(id: string, n: nat) {
    exists i :: 0 <= i < n && Itoa(i) == id
  }

  /** The printed form has one id for each item, under which exactly its fields are found. */
  lemma {:induction false} PrintedGroups(items: seq<FormItem>, n: nat)
    requires n <= |items|
    ensures Filled(Printed(items, n))
    ensures forall id :: HasId(Printed(items, n), id) <==> IsPosition(id, n)
    ensures forall i :: 0 <= i < n ==> GroupOf(Printed(items, n), Itoa(i)) == ItemGroup(items[i])
    ensures forall id :: !HasId(Printed(items, n), id) ==> GroupOf(Printed(items, n), id) == EmptyGroup
    decreases n
  {
    if n > 0 {
      PrintedGroups(items, n - 1);
      var form, item, id := Printed(items, n - 1), items[n - 1], Itoa(n - 1);
      NextPosition(n - 1);
      hide Enter, GroupOf, HasId, ItemGroup, Itoa, IsPosition;
      forall other
        ensures HasId(Printed(items, n), other) <==> IsPosition(other, n)
        ensures GroupOf(Printed(items, n), other) == if other == id then ItemGroup(item) else GroupOf(form, other)
      {
        EnterGroup(form, item, id, other);
      }
      EnterGroup(form, item, id, id);
      forall i | 0 <= i < n ensures GroupOf(Printed(items, n), Itoa(i)) == ItemGroup(items[i]) {
        if i < n - 1 && Itoa(i) == id {
          ItoaInjective(i, n - 1);
        }
      }
    }
  }

  lemma NextPosition(n: nat)
    ensures !IsPosition(Itoa(n), n)
    ensures forall id :: IsPosition(id, n + 1) <==> IsPosition(id, n) || id == Itoa(n)
  {
    if i :| 0 <= i < n && Itoa(i) == Itoa(n) {
      ItoaInjective(i, n);
    }
    hide Itoa;
  }

  /** A printed item parses to itself when it is clean; nothing parses to an unclean item. */
  lemma ItemParses(item: FormItem)
    requires Machine(item) && Clean(item)
    ensures ParseItemParams(ItemGroup(item)) == Ok(item)
  {
    TrimKeepsTrimmed(item.uid);
    TrimKeepsTrimmed(item.role);
    AtoiItoa(item.amount);
    if item.slot.Some? {
      AtoiItoa(item.slot.value);
      TrimKeepsTrimmed(Itoa(item.slot.value));
    }
    hide TrimSpace, Atoi, Itoa, Trimmed;
  }

  lemma ParsedIsClean(group: Group)
    ensures ParseItemParams(group).Ok? ==> Clean(ParseItemParams(group).value)
  {
    TrimKeepsTrimmed(if group.item.Some? then group.item.value else "");
    TrimKeepsTrimmed(if group.role.Some? then group.role.value else "");
    hide TrimSpace, Atoi, Trimmed;
  }

  ghost predicate ListsPositions(order: seq<string>, n: nat) {
    Distinct(order) && forall id :: id in order <==> IsPosition(id, n)
  }

  function Without<T>(s: seq<T>, k: nat): seq<T>
    requires k < |s|
  {
    s[..k] + s[k + 1..]
  }

  lemma WithoutIsMinus<T>(s: seq<T>, k: nat)
    requires k < |s|
    ensures multiset(s) == multiset(Without(s, k)) + multiset{s[k]}
  {
    assert s == s[..k] + [s[k]] + s[k + 1..];
  }

  lemma PositionsWithout(order: seq<string>, n: nat, k: nat)
    requires ListsPositions(order, n + 1) && k < |order| && order[k] == Itoa(n)
    ensures ListsPositions(Without(order, k), n)
  {
    NextPosition(n);
    hide Itoa, IsPosition;
    var rest := Without(order, k);
    forall id ensures id in rest <==> id in order && id != order[k] {
      if id in order && id != order[k] {
        var j :| 0 <= j < |order| && order[j] == id;
        assert rest[if j < k then j else j - 1] == id;
      }
    }
  }

  /** Item by item what stands at the listed positions. */
  ghost predicate Picks(items: seq<FormItem>, order: seq<string>, list: seq<FormItem>) {
    && |list| == |order|
    && forall k, i :: 0 <= k < |order| && 0 <= i < |items| && order[k] == Itoa(i) ==> list[k] == items[i]
  }

  lemma FirstListed(order: seq<string>)
    ensures order != [] ==> order[0] in order
  {
  }

  /** A list that picks each position once is a permutation. */
  lemma {:induction false} SameItems(items: seq<FormItem>, order: seq<string>, list: seq<FormItem>)
    requires ListsPositions(order, |items|) && Picks(items, order, list)
    ensures multiset(list) == multiset(items)
    decreases |items|
  {
    if items == [] {
      FirstListed(order);
    } else {
      var n := |items| - 1;
      assert IsPosition(Itoa(n), n + 1);
      hide Itoa, IsPosition;
      assert Itoa(n) in order;
      var k :| 0 <= k < |order| && order[k] == Itoa(n);
      PositionsWithout(order, n, k);
      assert Picks(items[..n], Without(order, k), Without(list, k));
      SameItems(items[..n], Without(order, k), Without(list, k));
      WithoutIsMinus(list, k);
      assert items == items[..n] + [items[n]];
    }
  }

  ghost predicate AllClean(items: seq<FormItem>) {
    forall i :: 0 <= i < |items| ==> Machine(items[i]) && Clean(items[i])
  }

  lemma PositionParses(items: seq<FormItem>, id: string, i: nat, r: Result<FormItem>)
    requires AllClean(items) && i < |items| && id == Itoa(i)
    requires Filled(Printed(items, |items|)) && Parsed(Printed(items, |items|), id, r)
    ensures r == Ok(items[i])
  {
    PrintedGroups(items, |items|);
    hide GroupOf, HasId, Printed, Itoa, Machine, Clean, ItemGroup, ParseItemParams;
    ItemParses(items[i]);
  }

  lemma NoComplaint(items: seq<FormItem>, id: string, message: string)
    requires AllClean(items) && Filled(Printed(items, |items|))
    ensures !Parsed(Printed(items, |items|), id, Error(message))
  {
    PrintedGroups(items, |items|);
    hide GroupOf, HasId, Printed, Itoa, Parsed, AllClean;
    if Parsed(Printed(items, |items|), id, Error(message)) {
      ParsedHasId(Printed(items, |items|), id, Error(message));
      var i :| 0 <= i < |items| && Itoa(i) == id;
      PositionParses(items, id, i, Error(message));
    }
  }

  lemma ParsedHasId(form: Form, id: string, r: Result<FormItem>)
    requires Filled(form) && Parsed(form, id, r)
    ensures HasId(form, id)
  {
  }

  lemma PicksItems(items: seq<FormItem>, order: seq<string>, list: seq<FormItem>)
    requires AllClean(items) && Filled(Printed(items, |items|)) && EachParsed(Printed(items, |items|), order, list)
    ensures Picks(items, order, list)
  {
    hide Printed, Itoa, Parsed, AllClean, Filled;
    forall k, i | 0 <= k < |order| && 0 <= i < |items| && order[k] == Itoa(i) ensures list[k] == items[i] {
      PositionParses(items, order[k], i, Ok(list[k]));
    }
  }

  lemma PrintedHasId(items: seq<FormItem>, id: string)
    ensures HasId(Printed(items, |items|), id) <==> IsPosition(id, |items|)
  {
    PrintedGroups(items, |items|);
    hide HasId, Printed, IsPosition;
  }

  lemma ListsAll(items: seq<FormItem>, order: seq<string>)
    requires Lists(order, Printed(items, |items|))
    ensures ListsPositions(order, |items|)
  {
    hide HasId, Printed, IsPosition, Distinct;
    forall id ensures id in order <==> IsPosition(id, |items|) {
      PrintedHasId(items, id);
    }
  }

  lemma CleanItemsReturn(items: seq<FormItem>, r: Result<seq<FormItem>>, order: seq<string>)
    requires AllClean(items) && Filled(Printed(items, |items|)) && ParsesTo(Printed(items, |items|), r, order)
    ensures r.Ok? && multiset(r.value) == multiset(items)
  {
    hide Printed, Parsed, AllClean, Filled, Lists, EachParsed, Picks, ListsPositions;
    if r.Error? {
      var id :| Parsed(Printed(items, |items|), id, Error(r.message));
      NoComplaint(items, id, r.message);
    } else {
      ListsAll(items, order);
      PicksItems(items, order, r.value);
      SameItems(items, order, r.value);
    }
  }

  /**
    Whatever order the parser visits the ids in, it gives back the printed items, in some order, if
    and only if every uid and role is non-empty and trimmed.
   */
  lemma RoundTripIff(items: seq<FormItem>, r: Result<seq<FormItem>>, order: seq<string>)
    requires forall i :: 0 <= i < |items| ==> Machine(items[i])
    requires Filled(Printed(items, |items|)) && ParsesTo(Printed(items, |items|), r, order)
    ensures r.Ok? && multiset(r.value) == multiset(items) <==> forall i :: 0 <= i < |items| ==> Clean(items[i])
  {
    hide Printed, Machine, Clean, GroupOf, HasId, ParseItemParams;
    var form := Printed(items, |items|);
    if r.Ok? && multiset(r.value) == multiset(items) {
      forall i | 0 <= i < |items| ensures Clean(items[i]) {
        assert items[i] in multiset(r.value);
        var k :| 0 <= k < |r.value| && r.value[k] == items[i];
        assert Parsed(form, order[k], Ok(r.value[k]));
        ParsedIsClean(GroupOf(form, order[k]));
      }
    }
    if forall i :: 0 <= i < |items| ==> Clean(items[i]) {
      CleanItemsReturn(items, r, order);
    }
  }
}
