/** Open lots over whole trading runs, and what the risk gate's checks keep them below. */
module Exposure {
  import opened Collections
  import opened Ledger
  import opened Positions
  import Validation

  datatype Limits = Limits(maxDayLoss: real, maxStrategyLoss: real, maxTotalLots: int, maxOpenOrders: int)

  // ---- Counting lots ----

  function Lots(symbol: string, quantity: int): nat { Abs(quantity) / Validation.LotSizeOf(symbol) }

  function LotsHeld(list: seq<Position>): nat {
    if list == [] then 0
    else LotsHeld(list[..|list| - 1]) + var p := list[|list| - 1]; Lots(p.symbol, p.quantity)
  }

  /** The gate's count of open lots. */
  method CountTotalLots(list: seq<Position>) returns (total: nat)
    ensures total == LotsHeld(list)
  {
    total := 0;
    var i := 0;
    while i < |list|
      invariant 0 <= i <= |list| && total == LotsHeld(list[..i])
    {
      assert list[..i + 1][..i] == list[..i];
      var lot := Validation.LotSizeOf(list[i].symbol);
      total := total + Abs(list[i].quantity) / lot;
      i := i + 1;
    }
    assert list[..i] == list;
  }

  function KeyLotsAt(entries: map<Key, Position>, k: Key): nat {
    if k in entries then Lots(entries[k].symbol, entries[k].quantity) else 0
  }

  /** Lots over the keys of a book. */
  function LotsOver(keys: seq<Key>, entries: map<Key, Position>): nat {
    if keys == [] then 0 else KeyLotsAt(entries, keys[0]) + LotsOver(keys[1..], entries)
  }

  function OpenLots(positions: Register): nat { LotsOver(positions.order, positions.entries) }

  lemma {:induction false} LotsHeldConcat(a: seq<Position>, b: seq<Position>)
    ensures LotsHeld(a + b) == LotsHeld(a) + LotsHeld(b)
  {
    if b == [] {
      assert a + b == a;
    } else {
      assert (a + b)[..|a + b| - 1] == a + b[..|b| - 1];
      LotsHeldConcat(a, b[..|b| - 1]);
    }
  }

  lemma ZeroLots(symbol: string)
    ensures Lots(symbol, 0) == 0
  {
  }

  lemma LotsOfOne(p: Position)
    ensures LotsHeld([p]) == Lots(p.symbol, p.quantity)
  {
    assert [p][..0] == [];
  }

  /** Listing the open positions of a book and counting their lots is counting key by key. */
  lemma {:induction false} ListedLots(keys: seq<Key>, entries: map<Key, Position>)
    requires forall k :: k in keys ==> k in entries
    ensures LotsHeld(OpenOnes(Listing(keys, entries, ""))) == LotsOver(keys, entries)
  {
    if keys != [] {
      var p := entries[keys[0]];
      ListedLots(keys[1..], entries);
      var rest := Listing(keys[1..], entries, "");
      assert Listing(keys, entries, "") == [p] + rest;
      assert ([p] + rest)[1..] == rest;
      LotsHeldConcat(if p.quantity != 0 then [p] else [], OpenOnes(rest));
      LotsOfOne(p);
      ZeroLots(p.symbol);
    }
  }

  lemma {:induction false} LotsOverConcat(a: seq<Key>, b: seq<Key>, entries: map<Key, Position>)
    ensures LotsOver(a + b, entries) == LotsOver(a, entries) + LotsOver(b, entries)
  {
    if a == [] {
      assert a + b == b;
    } else {
      assert (a + b)[1..] == a[1..] + b;
      LotsOverConcat(a[1..], b, entries);
    }
  }

  lemma {:induction false} SameLots(keys: seq<Key>, a: map<Key, Position>, b: map<Key, Position>)
    requires forall k :: k in keys ==> KeyLotsAt(a, k) == KeyLotsAt(b, k)
    ensures LotsOver(keys, a) == LotsOver(keys, b)
  {
    if keys != [] { SameLots(keys[1..], a, b); }
  }

  lemma {:induction false} NoLots(keys: seq<Key>, entries: map<Key, Position>)
    requires forall k :: k in keys ==> KeyLotsAt(entries, k) == 0
    ensures LotsOver(keys, entries) == 0
  {
    if keys != [] { NoLots(keys[1..], entries); }
  }

  /** While no key is both open and archived, the lots readers can count are all the lots there are. */
  lemma VisibleLots(tracker: PositionTracker)
    requires tracker.Valid() && tracker.Disjoint()
    ensures LotsHeld(tracker.GetOpenPositions("")) == OpenLots(tracker.positions)
  {
    var positions, closed := tracker.positions, tracker.closed;
    var all := Visible(positions, closed);
    VisibleIsValid(positions, closed);
    ListedLots(all.order, all.entries);
    var archived := Unlisted(closed.order, positions.entries);
    LotsOverConcat(positions.order, archived, all.entries);
    UnlistedLaws(closed.order, positions.entries);
    SameLots(positions.order, all.entries, positions.entries);
    forall k | k in archived ensures KeyLotsAt(all.entries, k) == 0 {
      NetQuantityOfKey(positions, closed, tracker.history, k);
      ZeroLots(closed.entries[k].symbol);
    }
    NoLots(archived, all.entries);
  }

  // ---- What a fill does to the count ----

  lemma {:induction false} LotsWithout(keys: seq<Key>, entries: map<Key, Position>, key: Key)
    requires Distinct(keys)
    ensures LotsOver(Without(keys, key), entries - {key})
            == LotsOver(keys, entries) - if key in keys then KeyLotsAt(entries, key) else 0
  {
    if keys != [] {
      assert Distinct(keys[1..]) && keys[0] !in keys[1..] && keys == [keys[0]] + keys[1..];
      LotsWithout(keys[1..], entries, key);
      var rest := Without(keys[1..], key);
      if keys[0] != key {
        assert Without(keys, key) == [keys[0]] + rest && ([keys[0]] + rest)[1..] == rest;
        assert KeyLotsAt(entries - {key}, keys[0]) == KeyLotsAt(entries, keys[0]);
        assert key in keys <==> key in keys[1..];
      } else {
        assert Without(keys, key) == [] + rest == rest;
      }
    }
  }

  lemma {:induction false} LotsReplaced(keys: seq<Key>, entries: map<Key, Position>, key: Key, pos: Position)
    requires Distinct(keys)
    ensures LotsOver(keys, entries[key := pos])
            == LotsOver(keys, entries) + if key in keys then Lots(pos.symbol, pos.quantity) - KeyLotsAt(entries, key) else 0
  {
    if keys != [] {
      assert Distinct(keys[1..]) && keys[0] !in keys[1..] && keys == [keys[0]] + keys[1..];
      LotsReplaced(keys[1..], entries, key, pos);
    }
  }

  /** A fill changes the count by what it changes its own key. */
  lemma PlacedLots(positions: Register, key: Key, pos: Position)
    requires positions.Valid()
    ensures OpenLots(Placed(positions, key, pos))
            == OpenLots(positions) - KeyLotsAt(positions.entries, key) + Lots(pos.symbol, pos.quantity)
  {
    if pos.quantity == 0 {
      LotsWithout(positions.order, positions.entries, key);
      ZeroLots(pos.symbol);
    } else if key in positions.entries {
      LotsReplaced(positions.order, positions.entries, key, pos);
    } else {
      LotsReplaced(positions.order, positions.entries, key, pos);
      LotsOverConcat(positions.order, [key], positions.entries[key := pos]);
      assert [key][1..] == [];
    }
  }

  // ---- Whole lots ----

  predicate InLots(symbol: string, quantity: int) { quantity % Validation.LotSizeOf(symbol) == 0 }

  /** Whole lots are counted in full. */
  lemma LotsCountUnits(symbol: string, quantity: int)
    requires InLots(symbol, quantity)
    ensures Lots(symbol, quantity) * Validation.LotSizeOf(symbol) == Abs(quantity)
  {
    var s := Validation.LotSizeOf(symbol);
    var p := Multiple(quantity, s);
    QuotientOfAbs(quantity, s);
    if p < 0 { assert (-p) * s == -(p * s); }
  }

  /** In whole lots, adding to a position adds at most its lots, and taking from one takes exactly its lots. */
  lemma LotsAdd(symbol: string, a: int, b: int)
    requires InLots(symbol, a) && InLots(symbol, b)
    ensures InLots(symbol, a + b)
    ensures Lots(symbol, a + b) <= Lots(symbol, a) + Lots(symbol, b)
    ensures ((a >= 0 && b <= 0 && a + b >= 0) || (a <= 0 && b >= 0 && a + b <= 0)) ==>
      Lots(symbol, a + b) == Lots(symbol, a) - Lots(symbol, b)
  {
    var lot := Validation.LotSizeOf(symbol);
    QuotientsAdd(a, b, lot);
    QuotientOfAbs(a, lot);
    QuotientOfAbs(b, lot);
    QuotientOfAbs(a + b, lot);
  }

  // ---- The checks of the gate ----

  function KeyOf(o: Fill): Key { (o.strategy, o.token) }

  function OrderLots(o: Fill): nat { Lots(o.symbol, o.quantity) }

  /** A position on the other side from the order. */
  predicate Faces(quantity: int, o: Fill) {
    (o.side == BUY && quantity < 0) || (o.side == SELL && quantity > 0)
  }

  /** The order takes from a position no more than there is. */
  predicate Takes(quantity: int, o: Fill) { Faces(quantity, o) && o.quantity <= Abs(quantity) }

  ghost predicate Reduces(positions: Register, o: Fill) { Takes(Held(positions, KeyOf(o)).quantity, o) }

  /** The first listed position of the instrument that faces the order decides. */
  predicate ReducesFirst(list: seq<Position>, o: Fill) {
    if list == [] then false
    else if list[0].token == o.token && Faces(list[0].quantity, o) then o.quantity <= Abs(list[0].quantity)
    else ReducesFirst(list[1..], o)
  }

  method IsRiskReducing(list: seq<Position>, o: Fill) returns (reducing: bool)
    ensures reducing <==> ReducesFirst(list, o)
  {
    var i := 0;
    while i < |list|
      invariant 0 <= i <= |list| && (ReducesFirst(list, o) <==> ReducesFirst(list[i..], o))
    {
      var pos := list[i];
      assert list[i..][1..] == list[i + 1..];
      if pos.token == o.token {
        if o.side == BUY && pos.quantity < 0 {
          return o.quantity <= Abs(pos.quantity);
        }
        if o.side == SELL && pos.quantity > 0 {
          return o.quantity <= pos.quantity;
        }
      }
      i := i + 1;
    }
    reducing := false;
  }

  lemma {:induction false} OneCandidate(list: seq<Position>, o: Fill, quantity: int)
    requires forall p :: p in list && p.token == o.token ==> p.quantity == quantity
    requires Faces(quantity, o) ==> exists p :: p in list && p.token == o.token
    ensures ReducesFirst(list, o) <==> Takes(quantity, o)
  {
    if list != [] && !(list[0].token == o.token && Faces(list[0].quantity, o)) {
      assert list == [list[0]] + list[1..];
      OneCandidate(list[1..], o, quantity);
    }
  }

  /** Membership in what a reader of one strategy is shown. */
  lemma {:induction false} ListedIff(keys: seq<Key>, entries: map<Key, Position>, strategy: string)
    requires strategy != "" && forall k :: k in keys ==> k in entries
    ensures forall p :: p in OpenOnes(Listing(keys, entries, strategy)) <==>
      exists k :: k in keys && k.0 == strategy && entries[k] == p && p.quantity != 0
  {
    if keys != [] {
      ListedIff(keys[1..], entries, strategy);
      assert keys == [keys[0]] + keys[1..];
      var p := entries[keys[0]];
      var rest := Listing(keys[1..], entries, strategy);
      if keys[0].0 == strategy {
        assert Listing(keys, entries, strategy) == [p] + rest && ([p] + rest)[1..] == rest;
      } else {
        assert Listing(keys, entries, strategy) == [] + rest == rest;
      }
    }
  }

  /** While no key is both open and archived, the search looks at the order's own position. */
  lemma ReducingIsOwnKey(tracker: PositionTracker, o: Fill)
    requires tracker.Valid() && tracker.Disjoint() && o.strategy != ""
    ensures ReducesFirst(tracker.GetOpenPositions(o.strategy), o) <==> Reduces(tracker.positions, o)
  {
    var positions, closed := tracker.positions, tracker.closed;
    var all := Visible(positions, closed);
    VisibleIsValid(positions, closed);
    ListedIff(all.order, all.entries, o.strategy);
    var list, q := tracker.GetOpenPositions(o.strategy), Held(positions, KeyOf(o)).quantity;
    forall p | p in list && p.token == o.token ensures p.quantity == q {
      var k :| k in all.order && k.0 == o.strategy && all.entries[k] == p && p.quantity != 0;
      assert ConsistentAt(positions, closed, tracker.history, k);
      NetQuantityOfKey(positions, closed, tracker.history, k);
    }
    if Faces(q, o) {
      var k := KeyOf(o);
      assert ConsistentAt(positions, closed, tracker.history, k);
      assert k in all.order && all.entries[k] == positions.entries[k];
      assert all.entries[k] in list;
    }
    OneCandidate(list, o, q);
  }

  // ---- Runs ----

  /** A book whose positions are whole lots of the instruments they are filed under. */
  ghost predicate InWholeLots(positions: Register, symbolOf: int -> string) {
    positions.Valid() && forall k :: WholeLotsAt(positions, symbolOf, k)
  }

  ghost predicate WholeLotsAt(positions: Register, symbolOf: int -> string, k: Key) {
    k in positions.entries ==>
      positions.entries[k].symbol == symbolOf(k.1) && InLots(symbolOf(k.1), positions.entries[k].quantity)
  }

  /** What pre-flight validation leaves through: a positive number of whole lots. */
  ghost predicate OrderOk(o: Fill, symbolOf: int -> string) {
    o.quantity > 0 && o.symbol == symbolOf(o.token) && InLots(o.symbol, o.quantity)
  }

  /** The order filled in full. */
  ghost predicate Applied(before: Register, o: Fill, after: Register) {
    exists pos: Position :: FilledTo(before, o, pos) && after == Placed(before, KeyOf(o), pos)
  }

  ghost predicate FilledTo(before: Register, o: Fill, pos: Position) {
    pos.symbol == o.symbol && pos.quantity == Held(before, KeyOf(o)).quantity + Signed(o.side, o.quantity)
  }

  lemma FillKeepsWholeLots(before: Register, o: Fill, pos: Position, symbolOf: int -> string)
    requires InWholeLots(before, symbolOf) && o.symbol == symbolOf(o.token)
    requires pos.symbol == o.symbol && InLots(o.symbol, pos.quantity)
    ensures InWholeLots(Placed(before, KeyOf(o), pos), symbolOf)
  {
    before.PutKeepsOrder(KeyOf(o), pos);
    before.RemoveKeepsOrder(KeyOf(o));
    forall k ensures WholeLotsAt(Placed(before, KeyOf(o), pos), symbolOf, k) { assert WholeLotsAt(before, symbolOf, k); }
  }

  lemma FillChangesLots(before: Register, o: Fill, after: Register, symbolOf: int -> string)
    requires InWholeLots(before, symbolOf) && OrderOk(o, symbolOf) && Applied(before, o, after)
    ensures InWholeLots(after, symbolOf)
    ensures OpenLots(after) <= OpenLots(before) + OrderLots(o)
    ensures Reduces(before, o) ==> OpenLots(after) == OpenLots(before) - OrderLots(o)
  {
    var pos :| FilledTo(before, o, pos) && after == Placed(before, KeyOf(o), pos);
    var q := Held(before, KeyOf(o)).quantity;
    PlacedLots(before, KeyOf(o), pos);
    HeldLots(before, KeyOf(o), symbolOf);
    SignedLots(o);
    LotsAdd(o.symbol, q, Signed(o.side, o.quantity));
    FillKeepsWholeLots(before, o, pos, symbolOf);
  }

  lemma HeldLots(positions: Register, k: Key, symbolOf: int -> string)
    requires InWholeLots(positions, symbolOf)
    ensures InLots(symbolOf(k.1), Held(positions, k).quantity)
    ensures KeyLotsAt(positions.entries, k) == Lots(symbolOf(k.1), Held(positions, k).quantity)
  {
    ZeroLots(symbolOf(k.1));
    assert WholeLotsAt(positions, symbolOf, k);
    if k !in positions.entries { assert InLots(symbolOf(k.1), 0); }
  }

  lemma SignedLots(o: Fill)
    requires InLots(o.symbol, o.quantity)
    ensures InLots(o.symbol, Signed(o.side, o.quantity)) && Lots(o.symbol, Signed(o.side, o.quantity)) == OrderLots(o)
    ensures InLots(o.symbol, 0)
  {
    var p := Multiple(o.quantity, Validation.LotSizeOf(o.symbol));
    var r := Multiple(-o.quantity, Validation.LotSizeOf(o.symbol));
    assert (-p) * Validation.LotSizeOf(o.symbol) == -o.quantity;
    OneMultiple(Validation.LotSizeOf(o.symbol), -p, r, -o.quantity);
  }

  /** The gate's verdict on lots: a reducing order passes, any other only if its lots still fit. */
  ghost predicate Admits(limits: Limits, positions: Register, o: Fill) {
    Reduces(positions, o) || OpenLots(positions) + OrderLots(o) <= limits.maxTotalLots
  }

  /** A run in which each order is filled before the next one is checked. */
  ghost predicate ImmediateRun(books: seq<Register>, orders: seq<Fill>, symbolOf: int -> string) {
    && |books| == |orders| + 1 && InWholeLots(books[0], symbolOf)
    && forall i :: 0 <= i < |orders| ==> FilledNext(books, orders, symbolOf, i)
  }

  ghost predicate FilledNext(books: seq<Register>, orders: seq<Fill>, symbolOf: int -> string, i: nat)
    requires i < |orders| && |books| == |orders| + 1
  {
    OrderOk(orders[i], symbolOf) && Applied(books[i], orders[i], books[i + 1])
  }

  /** Open lots never exceed the limit, or what was open at the start if that was more. */
  lemma {:induction false} ImmediateFillsStayWithin(books: seq<Register>, orders: seq<Fill>, symbolOf: int -> string,
                                                     limits: Limits, i: nat)
    requires ImmediateRun(books, orders, symbolOf) && i <= |orders|
    requires forall j :: 0 <= j < |orders| ==> Admits(limits, books[j], orders[j])
    ensures InWholeLots(books[i], symbolOf)
    ensures OpenLots(books[i]) <= Max(OpenLots(books[0]), limits.maxTotalLots)
  {
    if i > 0 {
      ImmediateFillsStayWithin(books, orders, symbolOf, limits, i - 1);
      assert Admits(limits, books[i - 1], orders[i - 1]);
      assert FilledNext(books, orders, symbolOf, i - 1);
      FillChangesLots(books[i - 1], orders[i - 1], books[i], symbolOf);
    }
  }

  /** With the breaker active only reducing orders pass, and then open lots never increase. */
  lemma {:induction false} ReducingFillsOnlyShrink(books: seq<Register>, orders: seq<Fill>, symbolOf: int -> string, i: nat, j: nat)
    requires ImmediateRun(books, orders, symbolOf) && i <= j <= |orders|
    requires forall k :: 0 <= k < |orders| ==> Reduces(books[k], orders[k])
    ensures InWholeLots(books[j], symbolOf)
    ensures OpenLots(books[j]) <= OpenLots(books[i])
    decreases j
  {
    if j > 0 {
      ReducingFillsOnlyShrink(books, orders, symbolOf, if i < j then i else 0, j - 1);
      OneStepShrinks(books, orders, symbolOf, j - 1);
    }
  }

  lemma OneStepShrinks(books: seq<Register>, orders: seq<Fill>, symbolOf: int -> string, k: nat)
    requires ImmediateRun(books, orders, symbolOf) && k < |orders| && InWholeLots(books[k], symbolOf)
    requires Reduces(books[k], orders[k])
    ensures InWholeLots(books[k + 1], symbolOf) && OpenLots(books[k + 1]) <= OpenLots(books[k])
  {
    assert FilledNext(books, orders, symbolOf, k);
    FillChangesLots(books[k], orders[k], books[k + 1], symbolOf);
  }
}
