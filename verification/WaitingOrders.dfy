/** Orders that wait, and fills that are published before the book takes them in: what open lots may come to when new
    orders, fills, deliveries and cancels follow one another in any order. */
module WaitingOrders {
  import opened Collections
  import opened Ledger
  import opened Positions
  import opened Exposure
  import Validation

  /** The book, the orders that wait at the broker, and the fills that are published but that the book has not taken in. */
  datatype Desk = Desk(positions: Register, pending: seq<Fill>, queued: seq<Fill>)

  /** An order passes on its lots, or passes because it reduces; a waiting one ends with a fill of part or all of it, which
      is published, or with none; and the book takes in the oldest published fill. */
  datatype Move = Place(order: Fill) | Exit(order: Fill) | Complete(i: nat, fill: Fill) | Deliver | Drop(i: nat)

  /** Everything that may still change the book. */
  function Claims(d: Desk): seq<Fill> { d.pending + d.queued }

  function PendingLots(pending: seq<Fill>): nat {
    if pending == [] then 0 else OrderLots(pending[0]) + PendingLots(pending[1..])
  }

  function Removed(pending: seq<Fill>, i: nat): seq<Fill>
    requires i < |pending|
  {
    pending[..i] + pending[i + 1..]
  }

  lemma {:induction false} OneMorePending(pending: seq<Fill>, o: Fill)
    ensures PendingLots(pending + [o]) == PendingLots(pending) + OrderLots(o)
  {
    if pending == [] {
      assert pending + [o] == [o] && [o][1..] == [];
    } else {
      assert (pending + [o])[1..] == pending[1..] + [o];
      OneMorePending(pending[1..], o);
    }
  }

  lemma {:induction false} RemovedLots(pending: seq<Fill>, i: nat)
    requires i < |pending|
    ensures PendingLots(Removed(pending, i)) == PendingLots(pending) - OrderLots(pending[i])
  {
    if i == 0 {
      assert Removed(pending, 0) == pending[1..];
    } else {
      assert Removed(pending, i)[1..] == Removed(pending[1..], i - 1);
      RemovedLots(pending[1..], i - 1);
    }
  }

  ghost predicate PartOk(o: Fill, units: int) { 0 < units <= o.quantity && InLots(o.symbol, units) }

  /** The fill is of part or all of the order, at whatever price. */
  ghost predicate PartOf(f: Fill, o: Fill) { PartOk(o, f.quantity) && f == o.(quantity := f.quantity, price := f.price) }

  /** One move of the desk. The gate counts what is in the book and how many orders wait, and nothing else. */
  ghost predicate Moves(d: Desk, m: Move, after: Desk, limits: Limits, symbolOf: int -> string) {
    match m
    case Place(o) =>
      && OrderOk(o, symbolOf) && |d.pending| < limits.maxOpenOrders
      && OpenLots(d.positions) + OrderLots(o) <= limits.maxTotalLots
      && after == Desk(d.positions, d.pending + [o], d.queued)
    case Exit(o) =>
      && OrderOk(o, symbolOf) && |d.pending| < limits.maxOpenOrders
      && Reduces(d.positions, o)
      && after == Desk(d.positions, d.pending + [o], d.queued)
    case Complete(i, f) =>
      && i < |d.pending| && PartOf(f, d.pending[i])
      && after == Desk(d.positions, Removed(d.pending, i), d.queued + [f])
    case Deliver =>
      && d.queued != [] && Applied(d.positions, d.queued[0], after.positions)
      && after.pending == d.pending && after.queued == d.queued[1..]
    case Drop(i) => i < |d.pending| && after == Desk(d.positions, Removed(d.pending, i), d.queued)
  }

  /** What a move makes of the claims. */
  lemma ClaimsAfter(d: Desk, m: Move, after: Desk, limits: Limits, symbolOf: int -> string)
    requires Moves(d, m, after, limits, symbolOf)
    ensures m.Place? || m.Exit? ==> Removed(Claims(after), |d.pending|) == Claims(d) && Claims(after)[|d.pending|] == m.order
    ensures m.Complete? ==> Claims(after) == Removed(Claims(d), m.i) + [m.fill] && Claims(d)[m.i] == d.pending[m.i]
    ensures m.Deliver? ==> Claims(after) == Removed(Claims(d), |d.pending|) && Claims(d)[|d.pending|] == d.queued[0]
    ensures m.Drop? ==> Claims(after) == Removed(Claims(d), m.i) && Claims(d)[m.i] == d.pending[m.i]
  {
    match m
    case Place(o) => OneMoreClaim(d.pending, o, d.queued);
    case Exit(o) => OneMoreClaim(d.pending, o, d.queued);
    case Complete(i, f) =>
      OneClaimLess(d.pending, i, d.queued);
      assert Removed(d.pending, i) + (d.queued + [f]) == (Removed(d.pending, i) + d.queued) + [f];
    case Deliver => assert Removed(d.pending + d.queued, |d.pending|) == d.pending + d.queued[1..];
    case Drop(i) => OneClaimLess(d.pending, i, d.queued);
  }

  lemma OneMoreClaim(pending: seq<Fill>, o: Fill, queued: seq<Fill>)
    ensures var claims := pending + [o] + queued; claims[|pending|] == o && Removed(claims, |pending|) == pending + queued
  {
  }

  lemma OneClaimLess(pending: seq<Fill>, i: nat, queued: seq<Fill>)
    requires i < |pending|
    ensures Removed(pending + queued, i) == Removed(pending, i) + queued
  {
  }

  ghost predicate Tidy(d: Desk, symbolOf: int -> string) {
    InWholeLots(d.positions, symbolOf) && AllOk(d.pending, symbolOf) && AllOk(d.queued, symbolOf)
  }

  ghost predicate AllOk(orders: seq<Fill>, symbolOf: int -> string) {
    forall i :: 0 <= i < |orders| ==> PendingOk(orders, symbolOf, i)
  }

  ghost predicate PendingOk(orders: seq<Fill>, symbolOf: int -> string, i: nat)
    requires i < |orders|
  {
    OrderOk(orders[i], symbolOf)
  }

  lemma ClaimsOk(d: Desk, symbolOf: int -> string)
    requires Tidy(d, symbolOf)
    ensures AllOk(Claims(d), symbolOf) && AllPositive(Claims(d))
  {
    var claims := Claims(d);
    forall i | 0 <= i < |claims| ensures PendingOk(claims, symbolOf, i) {
      if i < |d.pending| {
        assert PendingOk(d.pending, symbolOf, i);
      } else {
        assert PendingOk(d.queued, symbolOf, i - |d.pending|);
      }
    }
    forall i | 0 <= i < |claims| ensures claims[i].quantity > 0 { assert PendingOk(claims, symbolOf, i); }
  }

  ghost predicate AllPositive(orders: seq<Fill>) { forall i :: 0 <= i < |orders| ==> orders[i].quantity > 0 }

  ghost predicate Run(desks: seq<Desk>, moves: seq<Move>, limits: Limits, symbolOf: int -> string) {
    && |desks| == |moves| + 1
    && forall i :: 0 <= i < |moves| ==> StepOk(desks, moves, i, limits, symbolOf)
  }

  ghost predicate StepOk(desks: seq<Desk>, moves: seq<Move>, i: nat, limits: Limits, symbolOf: int -> string)
    requires i < |moves| && |desks| == |moves| + 1
  {
    Moves(desks[i], moves[i], desks[i + 1], limits, symbolOf)
  }

  ghost predicate Keeps(desks: seq<Desk>, holds: Desk -> bool, i: nat)
    requires i + 1 < |desks|
  {
    holds(desks[i]) ==> holds(desks[i + 1])
  }

  /** What holds at first and is kept by every move holds all along a run. */
  lemma {:induction false} AllAlong(desks: seq<Desk>, holds: Desk -> bool, i: nat)
    requires i < |desks| && holds(desks[0]) && forall j :: 0 <= j < |desks| - 1 ==> Keeps(desks, holds, j)
    ensures holds(desks[i])
  {
    if i > 0 {
      AllAlong(desks, holds, i - 1);
      assert Keeps(desks, holds, i - 1);
    }
  }

  lemma QuotientMonotone(a: int, b: int, s: int)
    requires 0 <= a <= b && s > 0
    ensures a / s <= b / s
  {
    var p := Multiple(a, s);
    var q := Multiple(b, s);
    if p > q { MulMonotone(q + 1, p, s); }
  }

  lemma SmallerLots(symbol: string, a: int, b: int)
    requires Abs(a) <= Abs(b)
    ensures Lots(symbol, a) <= Lots(symbol, b)
  {
    QuotientMonotone(Abs(a), Abs(b), Validation.LotSizeOf(symbol));
  }

  /** A fill has at most the lots of the order it fills. */
  lemma PartLots(f: Fill, o: Fill, symbolOf: int -> string)
    requires OrderOk(o, symbolOf) && PartOf(f, o)
    ensures OrderOk(f, symbolOf) && OrderLots(f) <= OrderLots(o) && KeyOf(f) == KeyOf(o) && f.side == o.side
  {
    SmallerLots(o.symbol, f.quantity, o.quantity);
  }

  lemma OneMoreOk(orders: seq<Fill>, o: Fill, symbolOf: int -> string)
    requires AllOk(orders, symbolOf) && OrderOk(o, symbolOf)
    ensures AllOk(orders + [o], symbolOf)
  {
    var more := orders + [o];
    forall i | 0 <= i < |more| ensures PendingOk(more, symbolOf, i) {
      if i < |orders| { assert PendingOk(orders, symbolOf, i); }
    }
  }

  lemma OneLessOk(orders: seq<Fill>, k: nat, symbolOf: int -> string)
    requires AllOk(orders, symbolOf) && k < |orders|
    ensures AllOk(Removed(orders, k), symbolOf)
  {
    var rest := Removed(orders, k);
    forall i | 0 <= i < |rest| ensures PendingOk(rest, symbolOf, i) {
      assert PendingOk(orders, symbolOf, if i < k then i else i + 1);
    }
  }

  lemma TidyStays(d: Desk, m: Move, after: Desk, limits: Limits, symbolOf: int -> string)
    requires Tidy(d, symbolOf) && Moves(d, m, after, limits, symbolOf)
    ensures Tidy(after, symbolOf)
  {
    match m
    case Place(o) => OneMoreOk(d.pending, o, symbolOf);
    case Exit(o) => OneMoreOk(d.pending, o, symbolOf);
    case Complete(i, f) =>
      assert PendingOk(d.pending, symbolOf, i);
      PartLots(f, d.pending[i], symbolOf);
      OneLessOk(d.pending, i, symbolOf);
      OneMoreOk(d.queued, f, symbolOf);
    case Deliver =>
      assert PendingOk(d.queued, symbolOf, 0) && Removed(d.queued, 0) == d.queued[1..];
      FillChangesLots(d.positions, d.queued[0], after.positions, symbolOf);
      OneLessOk(d.queued, 0, symbolOf);
    case Drop(i) => OneLessOk(d.pending, i, symbolOf);
  }

  // ---- Without exits ----

  function Exposed(d: Desk): nat { OpenLots(d.positions) + PendingLots(Claims(d)) }

  /** The gate sees every fill: all that were published are in the book. */
  predicate Seen(d: Desk) { d.queued == [] }

  ghost predicate Sized(pending: seq<Fill>, most: int) { forall i :: 0 <= i < |pending| ==> OrderLots(pending[i]) <= most }

  lemma {:induction false} PendingIsBounded(pending: seq<Fill>, most: int)
    requires Sized(pending, most)
    ensures PendingLots(pending) <= |pending| * most
  {
    if pending != [] {
      var rest := pending[1..];
      PendingIsBounded(rest, most);
      AddOne(|rest|, most);
    }
  }

  lemma AddOne(n: int, s: int)
    ensures (n + 1) * s == n * s + s
  {
  }

  lemma NonNegativeMonotone(a: int, b: int, s: int)
    requires a <= b && s >= 0
    ensures a * s <= b * s
  {
  }

  ghost predicate WithinSized(d: Desk, limits: Limits, symbolOf: int -> string, most: int) {
    Tidy(d, symbolOf) && Sized(Claims(d), limits.maxTotalLots) && Exposed(d) <= most
  }

  lemma OneMove(d: Desk, m: Move, after: Desk, limits: Limits, symbolOf: int -> string, most: int)
    requires WithinSized(d, limits, symbolOf, most) && Moves(d, m, after, limits, symbolOf)
    requires !m.Exit? && (m.Place? ==> Seen(d)) && limits.maxOpenOrders * limits.maxTotalLots <= most
    ensures WithinSized(after, limits, symbolOf, most)
  {
    TidyStays(d, m, after, limits, symbolOf);
    ClaimsAfter(d, m, after, limits, symbolOf);
    match m
    case Place(o) =>
      assert Claims(d) == d.pending && Claims(after) == d.pending + [o];
      OnePlaced(d, o, limits);
      SizedGrows(d.pending, o, limits.maxTotalLots);
    case Complete(i, f) =>
      assert PendingOk(d.pending, symbolOf, i);
      PartLots(f, d.pending[i], symbolOf);
      RemovedLots(Claims(d), i);
      SizedShrinks(Claims(d), i, limits.maxTotalLots);
      SizedGrows(Removed(Claims(d), i), f, limits.maxTotalLots);
      OneMorePending(Removed(Claims(d), i), f);
    case Deliver =>
      assert PendingOk(d.queued, symbolOf, 0);
      FillChangesLots(d.positions, d.queued[0], after.positions, symbolOf);
      SizedShrinks(Claims(d), |d.pending|, limits.maxTotalLots);
      RemovedLots(Claims(d), |d.pending|);
    case Drop(i) =>
      SizedShrinks(Claims(d), i, limits.maxTotalLots);
      RemovedLots(Claims(d), i);
  }

  lemma SizedGrows(pending: seq<Fill>, o: Fill, most: int)
    requires Sized(pending, most) && OrderLots(o) <= most
    ensures Sized(pending + [o], most)
  {
  }

  lemma SizedShrinks(pending: seq<Fill>, i: nat, most: int)
    requires Sized(pending, most) && i < |pending|
    ensures Sized(Removed(pending, i), most)
  {
  }

  lemma OnePlaced(d: Desk, o: Fill, limits: Limits)
    requires Sized(d.pending, limits.maxTotalLots) && |d.pending| < limits.maxOpenOrders && Seen(d)
    requires OpenLots(d.positions) + OrderLots(o) <= limits.maxTotalLots
    ensures Exposed(Desk(d.positions, d.pending + [o], d.queued)) <= limits.maxOpenOrders * limits.maxTotalLots
  {
    PendingIsBounded(d.pending, limits.maxTotalLots);
    NonNegativeMonotone(|d.pending| + 1, limits.maxOpenOrders, limits.maxTotalLots);
    OneMorePending(d.pending, o);
    AddOne(|d.pending|, limits.maxTotalLots);
    assert Claims(Desk(d.positions, d.pending + [o], d.queued)) == d.pending + [o];
  }

  /** Whatever the order of fills, deliveries and cancels, and of however much, filled, published and waiting lots together
      stay within the lot limit times the limit on open orders, as long as no order passes only because it reduces and
      none while a published fill is missing from the book. */
  lemma AnyOrderStaysWithin(desks: seq<Desk>, moves: seq<Move>, limits: Limits, symbolOf: int -> string, i: nat)
    requires Run(desks, moves, limits, symbolOf) && i <= |moves|
    requires forall j :: 0 <= j < |moves| ==> !moves[j].Exit? && (moves[j].Place? ==> Seen(desks[j]))
    requires Tidy(desks[0], symbolOf) && Sized(Claims(desks[0]), limits.maxTotalLots)
    ensures Tidy(desks[i], symbolOf) && Sized(Claims(desks[i]), limits.maxTotalLots)
    ensures Exposed(desks[i]) <= Max(Exposed(desks[0]), limits.maxOpenOrders * limits.maxTotalLots)
  {
    var most := Max(Exposed(desks[0]), limits.maxOpenOrders * limits.maxTotalLots);
    var holds := d => WithinSized(d, limits, symbolOf, most);
    forall j | 0 <= j < |moves| ensures Keeps(desks, holds, j) {
      assert StepOk(desks, moves, j, limits, symbolOf);
      if holds(desks[j]) { OneMove(desks[j], moves[j], desks[j + 1], limits, symbolOf, most); }
    }
    AllAlong(desks, holds, i);
  }

  // ---- With exits that are covered ----

  /** The units of all waiting orders of one key and side. */
  function Waiting(pending: seq<Fill>, k: Key, side: Side): int {
    if pending == [] then 0
    else (if KeyOf(pending[0]) == k && pending[0].side == side then pending[0].quantity else 0) + Waiting(pending[1..], k, side)
  }

  /** The units of a position that orders of this side take from. */
  function Facing(quantity: int, side: Side): nat { Max(0, if side == SELL then quantity else -quantity) }

  /** Everything claimed on this side of a key would at most close what is open on the other. */
  ghost predicate Covered(d: Desk, k: Key, side: Side) {
    Waiting(Claims(d), k, side) <= Facing(Held(d.positions, k).quantity, side)
  }

  /** What a caller checks before sending an exit: with everything already claimed, it closes no more than is open. */
  ghost predicate Safe(d: Desk, o: Fill) {
    Waiting(Claims(d), KeyOf(o), o.side) + o.quantity <= Facing(Held(d.positions, KeyOf(o)).quantity, o.side)
  }

  lemma {:induction false} WaitingGrows(pending: seq<Fill>, o: Fill, k: Key, side: Side)
    ensures Waiting(pending + [o], k, side)
            == Waiting(pending, k, side) + if KeyOf(o) == k && o.side == side then o.quantity else 0
  {
    if pending == [] {
      assert pending + [o] == [o] && [o][1..] == [];
    } else {
      assert (pending + [o])[1..] == pending[1..] + [o];
      WaitingGrows(pending[1..], o, k, side);
    }
  }

  lemma {:induction false} WaitingShrinks(pending: seq<Fill>, i: nat, k: Key, side: Side)
    requires i < |pending|
    ensures Waiting(Removed(pending, i), k, side)
            == Waiting(pending, k, side) - if KeyOf(pending[i]) == k && pending[i].side == side then pending[i].quantity else 0
  {
    if i == 0 {
      assert Removed(pending, 0) == pending[1..];
    } else {
      assert Removed(pending, i)[1..] == Removed(pending[1..], i - 1);
      WaitingShrinks(pending[1..], i - 1, k, side);
    }
  }

  /** Orders of positive size: each is part of what waits on its side. */
  lemma {:induction false} OneOfWaiting(pending: seq<Fill>, i: nat, k: Key, side: Side)
    requires i < |pending| && AllPositive(pending)
    ensures Waiting(pending, k, side) >= 0
    ensures KeyOf(pending[i]) == k && pending[i].side == side ==> Waiting(pending, k, side) >= pending[i].quantity
  {
    if |pending| > 1 { OneOfWaiting(pending[1..], if i > 0 then i - 1 else 0, k, side); }
  }

  lemma NothingNegative(pending: seq<Fill>, k: Key, side: Side)
    requires AllPositive(pending)
    ensures Waiting(pending, k, side) >= 0
  {
    if pending != [] { OneOfWaiting(pending, 0, k, side); }
  }

  lemma HeldAfter(before: Register, key: Key, pos: Position, k: Key)
    ensures Held(Placed(before, key, pos), k).quantity == if k == key then pos.quantity else Held(before, k).quantity
  {
  }

  lemma HeldOnceFilled(before: Register, o: Fill, after: Register, k: Key)
    requires Applied(before, o, after)
    ensures Held(after, k).quantity == Held(before, k).quantity + if k == KeyOf(o) then Signed(o.side, o.quantity) else 0
  {
    var pos :| FilledTo(before, o, pos) && after == Placed(before, KeyOf(o), pos);
    HeldAfter(before, KeyOf(o), pos, k);
  }

  /** Fills, deliveries, cancels and safe exits never uncover a side. */
  lemma CoveredStays(d: Desk, m: Move, after: Desk, limits: Limits, symbolOf: int -> string, k: Key, side: Side)
    requires Tidy(d, symbolOf) && Moves(d, m, after, limits, symbolOf) && Covered(d, k, side)
    requires !m.Place? && (m.Exit? ==> Safe(d, m.order))
    ensures Covered(after, k, side)
  {
    ClaimsOk(d, symbolOf);
    ClaimsAfter(d, m, after, limits, symbolOf);
    match m
    case Exit(o) =>
      WaitingShrinks(Claims(after), |d.pending|, k, side);
    case Complete(i, f) =>
      WaitingShrinks(Claims(d), i, k, side);
      WaitingGrows(Removed(Claims(d), i), f, k, side);
    case Deliver =>
      WaitingShrinks(Claims(d), |d.pending|, k, side);
      OneOfWaiting(Claims(d), |d.pending|, k, side);
      HeldOnceFilled(d.positions, d.queued[0], after.positions, k);
    case Drop(i) =>
      WaitingShrinks(Claims(d), i, k, side);
      OneOfWaiting(Claims(d), i, k, side);
  }

  /** The lots of those of these orders whose side is not covered. */
  ghost function LooseLots(d: Desk, orders: seq<Fill>): nat {
    if orders == [] then 0
    else (if Covered(d, KeyOf(orders[0]), orders[0].side) then 0 else OrderLots(orders[0])) + LooseLots(d, orders[1..])
  }

  lemma {:induction false} LooseGrows(d: Desk, orders: seq<Fill>, o: Fill)
    ensures LooseLots(d, orders + [o]) == LooseLots(d, orders) + if Covered(d, KeyOf(o), o.side) then 0 else OrderLots(o)
  {
    if orders == [] {
      assert orders + [o] == [o] && [o][1..] == [];
    } else {
      assert (orders + [o])[1..] == orders[1..] + [o];
      LooseGrows(d, orders[1..], o);
    }
  }

  lemma {:induction false} LooseShrinks(d: Desk, orders: seq<Fill>, i: nat)
    requires i < |orders|
    ensures LooseLots(d, Removed(orders, i))
            == LooseLots(d, orders) - if Covered(d, KeyOf(orders[i]), orders[i].side) then 0 else OrderLots(orders[i])
  {
    if i == 0 {
      assert Removed(orders, 0) == orders[1..];
    } else {
      assert Removed(orders, i)[1..] == Removed(orders[1..], i - 1);
      LooseShrinks(d, orders[1..], i - 1);
    }
  }

  lemma {:induction false} FewerLoose(d: Desk, after: Desk, orders: seq<Fill>)
    requires forall k, side :: Covered(d, k, side) ==> Covered(after, k, side)
    ensures LooseLots(after, orders) <= LooseLots(d, orders)
  {
    if orders != [] { FewerLoose(d, after, orders[1..]); }
  }

  lemma {:induction false} LooseIsPending(d: Desk, orders: seq<Fill>)
    ensures LooseLots(d, orders) <= PendingLots(orders)
  {
    if orders != [] { LooseIsPending(d, orders[1..]); }
  }

  /** What is open and what could still be added to it. */
  ghost function AtRisk(d: Desk): nat { OpenLots(d.positions) + LooseLots(d, Claims(d)) }

  /** Each claim is within the lot limit, or closes what is open. */
  ghost predicate Bounded(d: Desk, limits: Limits) {
    forall i :: 0 <= i < |Claims(d)| ==> BoundedAt(d, limits, i)
  }

  ghost predicate BoundedAt(d: Desk, limits: Limits, i: nat)
    requires i < |Claims(d)|
  {
    OrderLots(Claims(d)[i]) <= limits.maxTotalLots || Covered(d, KeyOf(Claims(d)[i]), Claims(d)[i].side)
  }

  lemma {:induction false} LotsOfKey(keys: seq<Key>, entries: map<Key, Position>, k: Key)
    requires k in keys
    ensures KeyLotsAt(entries, k) <= LotsOver(keys, entries)
  {
    if keys[0] != k { LotsOfKey(keys[1..], entries, k); }
  }

  lemma CoveredLots(d: Desk, i: nat, symbolOf: int -> string)
    requires Tidy(d, symbolOf) && i < |Claims(d)| && Covered(d, KeyOf(Claims(d)[i]), Claims(d)[i].side)
    ensures OrderLots(Claims(d)[i]) <= OpenLots(d.positions)
  {
    var o := Claims(d)[i];
    var q := Held(d.positions, KeyOf(o)).quantity;
    ClaimsOk(d, symbolOf);
    assert PendingOk(Claims(d), symbolOf, i);
    OneOfWaiting(Claims(d), i, KeyOf(o), o.side);
    SmallerLots(o.symbol, o.quantity, q);
    HeldLots(d.positions, KeyOf(o), symbolOf);
    if KeyOf(o) in d.positions.entries { LotsOfKey(d.positions.order, d.positions.entries, KeyOf(o)); }
  }

  lemma AllSized(d: Desk, limits: Limits, symbolOf: int -> string)
    requires Tidy(d, symbolOf) && Bounded(d, limits) && OpenLots(d.positions) <= limits.maxTotalLots
    ensures Sized(Claims(d), limits.maxTotalLots)
  {
    forall i | 0 <= i < |Claims(d)| ensures OrderLots(Claims(d)[i]) <= limits.maxTotalLots {
      assert BoundedAt(d, limits, i);
      if Covered(d, KeyOf(Claims(d)[i]), Claims(d)[i].side) { CoveredLots(d, i, symbolOf); }
    }
  }

  lemma PlacingIsBounded(d: Desk, o: Fill, limits: Limits, symbolOf: int -> string)
    requires Tidy(d, symbolOf) && Bounded(d, limits) && |d.pending| < limits.maxOpenOrders && Seen(d)
    requires OpenLots(d.positions) + OrderLots(o) <= limits.maxTotalLots
    ensures var after := Desk(d.positions, d.pending + [o], d.queued);
            Bounded(after, limits) && AtRisk(after) <= limits.maxOpenOrders * limits.maxTotalLots
  {
    var after := Desk(d.positions, d.pending + [o], d.queued);
    AllSized(d, limits, symbolOf);
    assert Claims(d) == d.pending && Claims(after) == d.pending + [o];
    OnePlaced(d, o, limits);
    LooseIsPending(after, Claims(after));
    SizedGrows(d.pending, o, limits.maxTotalLots);
    forall i | 0 <= i < |Claims(after)| ensures BoundedAt(after, limits, i) {
      assert OrderLots((d.pending + [o])[i]) <= limits.maxTotalLots;
    }
  }

  ghost predicate KeepsCover(d: Desk, after: Desk) { forall k, side :: Covered(d, k, side) ==> Covered(after, k, side) }

  lemma CompletingAddsNoRisk(d: Desk, i: nat, f: Fill, after: Desk, limits: Limits, symbolOf: int -> string)
    requires Tidy(d, symbolOf) && Moves(d, Complete(i, f), after, limits, symbolOf) && KeepsCover(d, after)
    ensures AtRisk(after) <= AtRisk(d)
  {
    var rest, o := Removed(Claims(d), i), d.pending[i];
    ClaimsAfter(d, Complete(i, f), after, limits, symbolOf);
    assert PendingOk(d.pending, symbolOf, i);
    PartLots(f, o, symbolOf);
    FewerLoose(d, after, rest);
    LooseShrinks(d, Claims(d), i);
    LooseGrows(after, rest, f);
    assert Covered(d, KeyOf(o), o.side) ==> Covered(after, KeyOf(f), f.side);
  }

  lemma DeliveringAddsNoRisk(d: Desk, after: Desk, limits: Limits, symbolOf: int -> string)
    requires Tidy(d, symbolOf) && Moves(d, Deliver, after, limits, symbolOf) && KeepsCover(d, after)
    ensures AtRisk(after) <= AtRisk(d)
  {
    var o := d.queued[0];
    ClaimsOk(d, symbolOf);
    ClaimsAfter(d, Deliver, after, limits, symbolOf);
    assert PendingOk(d.queued, symbolOf, 0);
    FillChangesLots(d.positions, o, after.positions, symbolOf);
    FewerLoose(d, after, Claims(after));
    LooseShrinks(d, Claims(d), |d.pending|);
    if Covered(d, KeyOf(o), o.side) {
      OneOfWaiting(Claims(d), |d.pending|, KeyOf(o), o.side);
      assert Reduces(d.positions, o);
    }
  }

  /** A claim of this key and side, and of no fewer lots. */
  ghost predicate ClaimsAsMuch(d: Desk, o: Fill, j: nat)
    requires j < |Claims(d)|
  {
    var p := Claims(d)[j];
    KeyOf(p) == KeyOf(o) && p.side == o.side && OrderLots(o) <= OrderLots(p)
  }

  ghost predicate ClaimedBefore(d: Desk, o: Fill) { exists j: nat :: j < |Claims(d)| && ClaimsAsMuch(d, o, j) }

  /** Claims may leave a bounded desk or shrink, or join it on a side that is covered then. */
  lemma BoundedStays(d: Desk, after: Desk, limits: Limits)
    requires Bounded(d, limits) && KeepsCover(d, after)
    requires forall i :: 0 <= i < |Claims(after)| ==>
      ClaimedBefore(d, Claims(after)[i]) || Covered(after, KeyOf(Claims(after)[i]), Claims(after)[i].side)
    ensures Bounded(after, limits)
  {
    forall i | 0 <= i < |Claims(after)| ensures BoundedAt(after, limits, i) {
      var o := Claims(after)[i];
      if ClaimedBefore(d, o) {
        var j: nat :| j < |Claims(d)| && ClaimsAsMuch(d, o, j);
        assert BoundedAt(d, limits, j);
      }
    }
  }

  /** What is left once one of the claims is gone was claimed before. */
  lemma LeftFrom(d: Desk, k: nat, i: nat)
    requires k < |Claims(d)| && i < |Claims(d)| - 1
    ensures ClaimedBefore(d, Removed(Claims(d), k)[i])
  {
    assert ClaimsAsMuch(d, Removed(Claims(d), k)[i], if i < k then i else i + 1);
  }

  /** A fill of an order that waited is claimed where the order was. */
  lemma FillComesFrom(d: Desk, k: nat, f: Fill, symbolOf: int -> string)
    requires Tidy(d, symbolOf) && k < |d.pending| && PartOf(f, d.pending[k])
    ensures ClaimedBefore(d, f)
  {
    assert PendingOk(d.pending, symbolOf, k);
    PartLots(f, d.pending[k], symbolOf);
    assert ClaimsAsMuch(d, f, k);
  }

  /** Where each claim after a move comes from. */
  lemma ClaimsComeFrom(d: Desk, m: Move, after: Desk, limits: Limits, symbolOf: int -> string, i: nat)
    requires Tidy(d, symbolOf) && Moves(d, m, after, limits, symbolOf) && !m.Place? && i < |Claims(after)|
    requires m.Exit? ==> Covered(after, KeyOf(m.order), m.order.side)
    ensures ClaimedBefore(d, Claims(after)[i]) || Covered(after, KeyOf(Claims(after)[i]), Claims(after)[i].side)
  {
    ClaimsAfter(d, m, after, limits, symbolOf);
    match m
    case Exit(o) =>
      if i != |d.pending| { assert ClaimsAsMuch(d, Claims(after)[i], if i < |d.pending| then i else i - 1); }
    case Complete(k, f) =>
      if i < |Claims(d)| - 1 { LeftFrom(d, k, i); } else { FillComesFrom(d, k, f, symbolOf); }
    case Deliver => LeftFrom(d, |d.pending|, i);
    case Drop(k) => LeftFrom(d, k, i);
  }

  lemma ExitingAddsNoRisk(d: Desk, o: Fill, after: Desk, limits: Limits, symbolOf: int -> string)
    requires Safe(d, o) && Moves(d, Exit(o), after, limits, symbolOf) && KeepsCover(d, after)
    ensures Covered(after, KeyOf(o), o.side) && AtRisk(after) <= AtRisk(d)
  {
    ClaimsAfter(d, Exit(o), after, limits, symbolOf);
    WaitingShrinks(Claims(after), |d.pending|, KeyOf(o), o.side);
    FewerLoose(d, after, Claims(d));
    LooseShrinks(after, Claims(after), |d.pending|);
  }

  lemma DroppingAddsNoRisk(d: Desk, i: nat, after: Desk, limits: Limits, symbolOf: int -> string)
    requires Moves(d, Drop(i), after, limits, symbolOf) && KeepsCover(d, after)
    ensures AtRisk(after) <= AtRisk(d)
  {
    ClaimsAfter(d, Drop(i), after, limits, symbolOf);
    FewerLoose(d, after, Claims(after));
    LooseShrinks(d, Claims(d), i);
  }

  /** Only a new order that passes on its lots can add risk. */
  lemma OtherMovesAddNoRisk(d: Desk, m: Move, after: Desk, limits: Limits, symbolOf: int -> string)
    requires Tidy(d, symbolOf) && Moves(d, m, after, limits, symbolOf) && !m.Place? && (m.Exit? ==> Safe(d, m.order))
    ensures KeepsCover(d, after) && AtRisk(after) <= AtRisk(d)
    ensures m.Exit? ==> Covered(after, KeyOf(m.order), m.order.side)
  {
    forall k, side | Covered(d, k, side) ensures Covered(after, k, side) {
      CoveredStays(d, m, after, limits, symbolOf, k, side);
    }
    match m
    case Exit(o) => ExitingAddsNoRisk(d, o, after, limits, symbolOf);
    case Complete(i, f) => CompletingAddsNoRisk(d, i, f, after, limits, symbolOf);
    case Deliver => DeliveringAddsNoRisk(d, after, limits, symbolOf);
    case Drop(i) => DroppingAddsNoRisk(d, i, after, limits, symbolOf);
  }

  /** A caller's guard on what it sends: an order that passes on its lots only while the gate sees every fill, and an exit
      only while it is safe. */
  ghost predicate GuardedMove(d: Desk, m: Move) { (m.Place? ==> Seen(d)) && (m.Exit? ==> Safe(d, m.order)) }

  lemma OneGuardedMove(d: Desk, m: Move, after: Desk, limits: Limits, symbolOf: int -> string)
    requires Tidy(d, symbolOf) && Bounded(d, limits) && Moves(d, m, after, limits, symbolOf) && GuardedMove(d, m)
    ensures Bounded(after, limits)
    ensures AtRisk(after) <= Max(AtRisk(d), limits.maxOpenOrders * limits.maxTotalLots)
  {
    if m.Place? {
      PlacingIsBounded(d, m.order, limits, symbolOf);
    } else {
      OtherMovesAddNoRisk(d, m, after, limits, symbolOf);
      forall i | 0 <= i < |Claims(after)|
        ensures ClaimedBefore(d, Claims(after)[i]) || Covered(after, KeyOf(Claims(after)[i]), Claims(after)[i].side)
      {
        ClaimsComeFrom(d, m, after, limits, symbolOf, i);
      }
      BoundedStays(d, after, limits);
    }
  }

  ghost predicate WithinBounded(d: Desk, limits: Limits, symbolOf: int -> string, most: int) {
    Tidy(d, symbolOf) && Bounded(d, limits) && AtRisk(d) <= most
  }

  /** The same with exits: when every order is guarded as it is sent, what is open and what could be added to it stay
      within the product of the limits, whatever waits, fills in part, is delivered late, or is cancelled. */
  lemma SafeExitsStayWithin(desks: seq<Desk>, moves: seq<Move>, limits: Limits, symbolOf: int -> string, i: nat)
    requires Run(desks, moves, limits, symbolOf) && i <= |moves|
    requires forall j :: 0 <= j < |moves| ==> GuardedMove(desks[j], moves[j])
    requires Tidy(desks[0], symbolOf) && Bounded(desks[0], limits)
    ensures Tidy(desks[i], symbolOf) && Bounded(desks[i], limits)
    ensures OpenLots(desks[i].positions) <= AtRisk(desks[i])
    ensures AtRisk(desks[i]) <= Max(AtRisk(desks[0]), limits.maxOpenOrders * limits.maxTotalLots)
  {
    var most := Max(AtRisk(desks[0]), limits.maxOpenOrders * limits.maxTotalLots);
    var holds := d => WithinBounded(d, limits, symbolOf, most);
    forall j | 0 <= j < |moves| ensures Keeps(desks, holds, j) {
      assert StepOk(desks, moves, j, limits, symbolOf) && GuardedMove(desks[j], moves[j]);
      if holds(desks[j]) {
        TidyStays(desks[j], moves[j], desks[j + 1], limits, symbolOf);
        OneGuardedMove(desks[j], moves[j], desks[j + 1], limits, symbolOf);
      }
    }
    AllAlong(desks, holds, i);
  }

  /** With the breaker active only exits pass; when each is safe and nothing else is claimed, open lots never rise. */
  lemma SafeExitsOnlyShrink(desks: seq<Desk>, moves: seq<Move>, limits: Limits, symbolOf: int -> string, i: nat)
    requires Run(desks, moves, limits, symbolOf) && i <= |moves| && Tidy(desks[0], symbolOf)
    requires forall j :: 0 <= j < |moves| ==> !moves[j].Place? && (moves[j].Exit? ==> Safe(desks[j], moves[j].order))
    ensures Tidy(desks[i], symbolOf) && OpenLots(desks[i].positions) <= AtRisk(desks[i]) <= AtRisk(desks[0])
    ensures Claims(desks[0]) == [] ==> OpenLots(desks[i].positions) <= OpenLots(desks[0].positions)
  {
    var holds := d => Tidy(d, symbolOf) && AtRisk(d) <= AtRisk(desks[0]);
    forall j | 0 <= j < |moves| ensures Keeps(desks, holds, j) {
      assert StepOk(desks, moves, j, limits, symbolOf);
      if holds(desks[j]) {
        TidyStays(desks[j], moves[j], desks[j + 1], limits, symbolOf);
        OtherMovesAddNoRisk(desks[j], moves[j], desks[j + 1], limits, symbolOf);
      }
    }
    AllAlong(desks, holds, i);
  }

  // ---- How many units may wait on one key ----

  /** Orders of one key and side filling one after the other. */
  ghost predicate ExitRun(books: seq<Register>, exits: seq<Fill>, symbolOf: int -> string, k: Key, side: Side) {
    && ImmediateRun(books, exits, symbolOf)
    && forall i :: 0 <= i < |exits| ==> KeyOf(exits[i]) == k && exits[i].side == side
  }

  /** What is held of the key after so many of the exits, and what is open besides. */
  ghost predicate FilledUpTo(start: Register, now: Register, symbol: string, k: Key, side: Side, units: int) {
    && Held(now, k).quantity == Held(start, k).quantity + Signed(side, units)
    && OpenLots(now) - Lots(symbol, Held(now, k).quantity) == OpenLots(start) - Lots(symbol, Held(start, k).quantity)
  }

  lemma {:induction false} HeldAlong(books: seq<Register>, exits: seq<Fill>, symbolOf: int -> string, k: Key, side: Side, i: nat)
    requires ExitRun(books, exits, symbolOf, k, side) && i <= |exits|
    ensures InWholeLots(books[i], symbolOf)
    ensures FilledUpTo(books[0], books[i], symbolOf(k.1), k, side, Waiting(exits[..i], k, side))
  {
    if i > 0 {
      HeldAlong(books, exits, symbolOf, k, side, i - 1);
      var o := exits[i - 1];
      assert FilledNext(books, exits, symbolOf, i - 1);
      assert exits[..i] == exits[..i - 1] + [o];
      WaitingGrows(exits[..i - 1], o, k, side);
      OneMoreFilled(books[0], books[i - 1], o, books[i], symbolOf, Waiting(exits[..i - 1], k, side));
    }
  }

  lemma OneMoreFilled(start: Register, before: Register, o: Fill, after: Register, symbolOf: int -> string, units: int)
    requires InWholeLots(before, symbolOf) && OrderOk(o, symbolOf) && Applied(before, o, after)
    requires FilledUpTo(start, before, symbolOf(o.token), KeyOf(o), o.side, units)
    ensures InWholeLots(after, symbolOf)
    ensures FilledUpTo(start, after, symbolOf(o.token), KeyOf(o), o.side, units + o.quantity)
  {
    FillChangesLots(before, o, after, symbolOf);
    HeldOnceFilled(before, o, after, KeyOf(o));
    OtherLotsStay(before, o, after, symbolOf);
  }

  lemma OtherLotsStay(before: Register, o: Fill, after: Register, symbolOf: int -> string)
    requires InWholeLots(before, symbolOf) && OrderOk(o, symbolOf) && Applied(before, o, after)
    ensures var symbol := symbolOf(o.token);
            OpenLots(after) - Lots(symbol, Held(after, KeyOf(o)).quantity)
            == OpenLots(before) - Lots(symbol, Held(before, KeyOf(o)).quantity)
  {
    var pos :| FilledTo(before, o, pos) && after == Placed(before, KeyOf(o), pos);
    PlacedLots(before, KeyOf(o), pos);
    HeldLots(before, KeyOf(o), symbolOf);
    HeldAfter(before, KeyOf(o), pos, KeyOf(o));
  }

  lemma {:induction false} WaitingMonotone(exits: seq<Fill>, k: Key, side: Side, i: nat)
    requires i <= |exits| && AllPositive(exits)
    ensures 0 <= Waiting(exits[..i], k, side) <= Waiting(exits, k, side)
    decreases |exits| - i
  {
    if i == |exits| {
      assert exits[..i] == exits;
      NothingNegative(exits, k, side);
    } else {
      WaitingMonotone(exits, k, side, i + 1);
      assert exits[..i + 1] == exits[..i] + [exits[i]];
      WaitingGrows(exits[..i], exits[i], k, side);
      NothingNegative(exits[..i], k, side);
    }
  }

  /** The position never goes past flat. */
  ghost predicate NeverFlips(books: seq<Register>, k: Key) {
    forall i :: 0 <= i < |books| ==> SameSide(Held(books[0], k).quantity, Held(books[i], k).quantity)
  }

  predicate SameSide(q: int, r: int) { (q > 0 ==> r >= 0) && (q < 0 ==> r <= 0) }

  ghost predicate NeverGrows(books: seq<Register>) { forall i :: 0 <= i < |books| ==> OpenLots(books[i]) <= OpenLots(books[0]) }

  /** Exits facing a position of q units, filling in whatever sequence: they never flip it exactly when together they are
      at most q units, and never raise the open lots exactly when they are at most twice that. */
  lemma WaitingExitsAreSafe(books: seq<Register>, exits: seq<Fill>, symbolOf: int -> string, k: Key, side: Side)
    requires ExitRun(books, exits, symbolOf, k, side) && Facing(Held(books[0], k).quantity, side) > 0
    ensures var q, total := Facing(Held(books[0], k).quantity, side), Waiting(exits, k, side);
            (NeverFlips(books, k) <==> total <= q) && (NeverGrows(books) <==> total <= 2 * q)
  {
    var q, total, n := Held(books[0], k).quantity, Waiting(exits, k, side), |exits|;
    HeldAlong(books, exits, symbolOf, k, side, n);
    assert exits[..n] == exits;
    forall j | 0 <= j < n ensures exits[j].quantity > 0 { assert FilledNext(books, exits, symbolOf, j); }
    var last := Held(books[n], k).quantity;
    assert last == q + Signed(side, total);
    if Abs(last) > Abs(q) { MoreLots(books, k, symbolOf, n, q, last); }
    forall i | 0 <= i < |books| && Abs(last) <= Abs(q) ensures OpenLots(books[i]) <= OpenLots(books[0]) {
      HeldAlong(books, exits, symbolOf, k, side, i);
      WaitingMonotone(exits, k, side, i);
      SmallerLots(symbolOf(k.1), Held(books[i], k).quantity, q);
    }
    forall i | 0 <= i < |books| && Abs(total) <= Abs(q) ensures SameSide(q, Held(books[i], k).quantity) {
      HeldAlong(books, exits, symbolOf, k, side, i);
      WaitingMonotone(exits, k, side, i);
    }
    WaitingMonotone(exits, k, side, 0);
    assert SameSide(q, last) <==> total <= Abs(q);
  }

  lemma MoreLots(books: seq<Register>, k: Key, symbolOf: int -> string, n: nat, q: int, last: int)
    requires n < |books| && InWholeLots(books[0], symbolOf) && InWholeLots(books[n], symbolOf)
    requires q == Held(books[0], k).quantity && last == Held(books[n], k).quantity && Abs(last) > Abs(q)
    requires OpenLots(books[n]) - Lots(symbolOf(k.1), last) == OpenLots(books[0]) - Lots(symbolOf(k.1), q)
    ensures OpenLots(books[n]) > OpenLots(books[0])
  {
    HeldLots(books[0], k, symbolOf);
    HeldLots(books[n], k, symbolOf);
    LargerLots(symbolOf(k.1), q, last);
  }

  lemma LargerLots(symbol: string, q: int, r: int)
    requires InLots(symbol, q) && InLots(symbol, r) && Abs(r) > Abs(q)
    ensures Lots(symbol, r) > Lots(symbol, q)
  {
    var lot := Validation.LotSizeOf(symbol);
    QuotientOfAbs(q, lot);
    QuotientOfAbs(r, lot);
    var p := Multiple(q, lot);
    var s := Multiple(r, lot);
    assert Abs(s) * lot == Abs(r) && Abs(p) * lot == Abs(q);
    if Abs(s) <= Abs(p) { MulMonotone(Abs(s), Abs(p), lot); }
  }

  // ---- One order at a time, or more ----

  /** Nothing at all is claimed when an order is sent. */
  ghost predicate SentAlone(d: Desk, m: Move) { m.Place? || m.Exit? ==> Claims(d) == [] }

  /** One claim, still as the gate saw it. */
  ghost predicate OneClaim(d: Desk, limits: Limits) {
    |Claims(d)| <= 1 && (Claims(d) != [] ==> Admits(limits, d.positions, Claims(d)[0]))
  }

  lemma AdmitsPart(limits: Limits, positions: Register, o: Fill, f: Fill, symbolOf: int -> string)
    requires OrderOk(o, symbolOf) && PartOf(f, o) && Admits(limits, positions, o)
    ensures Admits(limits, positions, f)
  {
    PartLots(f, o, symbolOf);
  }

  lemma OneDelivered(d: Desk, after: Desk, limits: Limits, symbolOf: int -> string)
    requires Tidy(d, symbolOf) && OneClaim(d, limits) && Moves(d, Deliver, after, limits, symbolOf)
    ensures Claims(after) == [] && OpenLots(after.positions) <= Max(OpenLots(d.positions), limits.maxTotalLots)
  {
    assert d.pending == [] && Claims(d)[0] == d.queued[0];
    assert PendingOk(d.queued, symbolOf, 0);
    FillChangesLots(d.positions, d.queued[0], after.positions, symbolOf);
  }

  lemma OneClaimStays(d: Desk, m: Move, after: Desk, limits: Limits, symbolOf: int -> string)
    requires Tidy(d, symbolOf) && OneClaim(d, limits) && Moves(d, m, after, limits, symbolOf) && SentAlone(d, m)
    ensures OneClaim(after, limits)
    ensures OpenLots(after.positions) <= Max(OpenLots(d.positions), limits.maxTotalLots)
  {
    match m
    case Place(o) => assert Claims(after) == [o];
    case Exit(o) => assert Claims(after) == [o];
    case Complete(i, f) =>
      assert PendingOk(d.pending, symbolOf, i) && Claims(d)[i] == d.pending[i];
      AdmitsPart(limits, d.positions, d.pending[i], f, symbolOf);
      assert Claims(after) == [f];
    case Deliver => OneDelivered(d, after, limits, symbolOf);
    case Drop(_) => assert Claims(after) == [];
  }

  /** Exits need no care when each order is over and in the book before the next is sent, which the limit on open orders
      sees to by itself if it is one and published fills are in the book as orders are sent. */
  lemma OneAtATimeStaysWithin(desks: seq<Desk>, moves: seq<Move>, limits: Limits, symbolOf: int -> string, i: nat)
    requires Run(desks, moves, limits, symbolOf) && i <= |moves|
    requires forall j :: 0 <= j < |moves| ==>
      SentAlone(desks[j], moves[j]) || (limits.maxOpenOrders <= 1 && (moves[j].Place? || moves[j].Exit? ==> Seen(desks[j])))
    requires Tidy(desks[0], symbolOf) && Claims(desks[0]) == []
    ensures Tidy(desks[i], symbolOf) && OneClaim(desks[i], limits)
    ensures OpenLots(desks[i].positions) <= Max(OpenLots(desks[0].positions), limits.maxTotalLots)
  {
    var most := Max(OpenLots(desks[0].positions), limits.maxTotalLots);
    var holds := d => Tidy(d, symbolOf) && OneClaim(d, limits) && OpenLots(d.positions) <= most;
    forall j | 0 <= j < |moves| ensures Keeps(desks, holds, j) {
      assert StepOk(desks, moves, j, limits, symbolOf);
      if holds(desks[j]) {
        TidyStays(desks[j], moves[j], desks[j + 1], limits, symbolOf);
        OneClaimStays(desks[j], moves[j], desks[j + 1], limits, symbolOf);
      }
    }
    AllAlong(desks, holds, i);
  }

  /** An order for n units of an instrument that trades in units. */
  function Unit(side: Side, n: int): Fill { Fill("s", 1, "X", side, n, 1.0) }

  ghost function Copies(n: nat, o: Fill): seq<Fill> { seq(n, _ => o) }

  lemma {:induction false} CopiesLots(n: nat, o: Fill)
    ensures PendingLots(Copies(n, o)) == n * OrderLots(o)
  {
    if n > 0 {
      assert Copies(n, o)[1..] == Copies(n - 1, o);
      CopiesLots(n - 1, o);
      AddOne(n - 1, OrderLots(o));
    }
  }

  /** The bound on runs without exits is reached: from a flat book, as many orders of the full lot limit as may wait at
      once all pass, with no fill published at all. */
  lemma BoundIsReached(limits: Limits) returns (desks: seq<Desk>, moves: seq<Move>)
    requires limits.maxTotalLots >= 1 && limits.maxOpenOrders >= 0
    ensures Run(desks, moves, limits, InUnits()) && Exposed(desks[0]) == 0
    ensures forall j :: 0 <= j < |moves| ==> !moves[j].Exit? && Seen(desks[j])
    ensures Exposed(desks[|moves|]) == limits.maxOpenOrders * limits.maxTotalLots
  {
    var o, flat: Register := Unit(BUY, limits.maxTotalLots), OrderedDict([], map[]);
    desks := seq(limits.maxOpenOrders + 1, i requires i >= 0 => Desk(flat, Copies(i, o), []));
    moves := seq(limits.maxOpenOrders, _ => Place(o));
    forall i | 0 <= i < |moves| ensures StepOk(desks, moves, i, limits, InUnits()) {
      assert Copies(i + 1, o) == Copies(i, o) + [o];
    }
    assert Claims(desks[|moves|]) == Copies(limits.maxOpenOrders, o);
    CopiesLots(limits.maxOpenOrders, o);
  }

  function Holding(n: int): Register {
    if n == 0 then OrderedDict([], map[]) else OrderedDict([("s", 1)], map[("s", 1) := Position(1, "X", "s", n, 1.0, 0.0, 0.0)])
  }

  lemma TradesInUnits(n: int)
    ensures Lots("X", n) == Abs(n) && InLots("X", n)
  {
    assert !("NIFTY" <= "X");
    var lot := Validation.LotSizeOf("X");
    assert lot == 1;
    var m := Abs(n);
    assert m / 1 == m;
  }

  lemma HoldingLots(n: int)
    ensures OpenLots(Holding(n)) == Abs(n)
  {
    TradesInUnits(n);
    var k: Key, entries := ("s", 1), Holding(n).entries;
    if n != 0 {
      var keys: seq<Key> := [k];
      assert Holding(n).order == keys;
      assert KeyLotsAt(entries, k) == Lots("X", n);
      assert keys[1..] == [];
      assert LotsOver(keys, entries) == KeyLotsAt(entries, k) + LotsOver([], entries);
    } else {
      assert LotsOver([], entries) == 0;
    }
  }

  lemma UnitFills(n: int, side: Side, units: int)
    ensures Applied(Holding(n), Unit(side, units), Holding(n + Signed(side, units)))
    ensures Held(Holding(n), ("s", 1)).quantity == n
  {
    var m := n + Signed(side, units);
    var pos := Position(1, "X", "s", m, 1.0, 0.0, 0.0);
    assert FilledTo(Holding(n), Unit(side, units), pos);
    if m == 0 {
      assert Holding(n).entries - {("s", 1)} == map[];
      if n != 0 { assert Without([("s", 1)], ("s", 1)) == [] + []; }
    }
    assert Holding(m) == Placed(Holding(n), ("s", 1), pos);
  }

  /** All instruments trade in units. */
  function InUnits(): int -> string { _ => "X" }

  /** What a run sends: only while the gate sees every fill, or whenever it likes; exits too, or none. */
  datatype Manner = Manner(seen: bool, exits: bool)

  predicate Mannered(d: Desk, m: Move, how: Manner) {
    (how.seen && (m.Place? || m.Exit?) ==> Seen(d)) && (!how.exits ==> !m.Exit?)
  }

  ghost predicate AllMannered(desks: seq<Desk>, moves: seq<Move>, how: Manner) {
    |desks| == |moves| + 1 && forall i :: 0 <= i < |moves| ==> Mannered(desks[i], moves[i], how)
  }

  /** Some run of that manner leads from one desk to the other. */
  ghost predicate Reaches(d: Desk, e: Desk, limits: Limits, how: Manner) {
    exists desks, moves :: Leads(desks, moves, d, e, limits, how)
  }

  ghost predicate Leads(desks: seq<Desk>, moves: seq<Move>, d: Desk, e: Desk, limits: Limits, how: Manner) {
    Run(desks, moves, limits, InUnits()) && AllMannered(desks, moves, how) && desks[0] == d && desks[|moves|] == e
  }

  lemma Extend(d: Desk, e: Desk, m: Move, f: Desk, limits: Limits, how: Manner)
    requires Reaches(d, e, limits, how) && Moves(e, m, f, limits, InUnits()) && Mannered(e, m, how)
    ensures Reaches(d, f, limits, how)
  {
    var desks, moves :| Leads(desks, moves, d, e, limits, how);
    var more, moves' := desks + [f], moves + [m];
    forall i | 0 <= i < |moves'| ensures StepOk(more, moves', i, limits, InUnits()) && Mannered(more[i], moves'[i], how) {
      if i < |moves| { assert StepOk(desks, moves, i, limits, InUnits()) && Mannered(desks[i], moves[i], how); }
    }
    assert Leads(more, moves', d, f, limits, how);
  }

  lemma NoMoves(d: Desk, limits: Limits, how: Manner)
    ensures Reaches(d, d, limits, how)
  {
    assert Leads([d], [], d, d, limits, how);
  }

  /** A desk that holds n units, with so many orders waiting and every fill in the book. */
  function Stands(n: int, pending: seq<Fill>): Desk { Desk(Holding(n), pending, []) }

  const PROMPT := Manner(true, true)

  lemma Exits(d: Desk, n: int, pending: seq<Fill>, o: Fill, limits: Limits)
    requires Reaches(d, Stands(n, pending), limits, PROMPT) && |pending| < limits.maxOpenOrders
    requires n != 0 && o == ExitOf(n)
    ensures Reaches(d, Stands(n, pending + [o]), limits, PROMPT)
  {
    TradesInUnits(o.quantity);
    UnitFills(n, o.side, o.quantity);
    Extend(d, Stands(n, pending), Exit(o), Stands(n, pending + [o]), limits, PROMPT);
  }

  lemma Places(d: Desk, n: int, pending: seq<Fill>, o: Fill, limits: Limits)
    requires Reaches(d, Stands(n, pending), limits, PROMPT) && |pending| < limits.maxOpenOrders
    requires o == Unit(o.side, o.quantity) && o.quantity > 0 && Abs(n) + o.quantity <= limits.maxTotalLots
    ensures Reaches(d, Stands(n, pending + [o]), limits, PROMPT)
  {
    TradesInUnits(o.quantity);
    HoldingLots(n);
    Extend(d, Stands(n, pending), Place(o), Stands(n, pending + [o]), limits, PROMPT);
  }

  /** The first of the waiting orders fills, and the book takes that in at once. */
  lemma Fills(d: Desk, n: int, o: Fill, rest: seq<Fill>, m: int, limits: Limits)
    requires Reaches(d, Stands(n, [o] + rest), limits, PROMPT) && o == Unit(o.side, o.quantity) && o.quantity > 0
    requires m == n + Signed(o.side, o.quantity)
    ensures Reaches(d, Stands(m, rest), limits, PROMPT)
  {
    var published := Desk(Holding(n), rest, [o]);
    TradesInUnits(o.quantity);
    assert Removed([o] + rest, 0) == rest && [] + [o] == [o] && [o][1..] == [];
    Extend(d, Stands(n, [o] + rest), Complete(0, o), published, limits, PROMPT);
    UnitFills(n, o.side, o.quantity);
    Extend(d, published, Deliver, Stands(m, rest), limits, PROMPT);
  }

  /** An order for everything that is open. */
  function ExitOf(q: int): Fill { Unit(if q < 0 then BUY else SELL, Abs(q)) }

  /** One unit more on the other side. */
  function Across(q: int): int { if q > 0 then -q - 1 else -q + 1 }

  /** One swing: two exits of everything open; once the first has closed it, the lots allow one unit more to be sent
      after the second, and that one opens everything again, and the unit more, on the other side. */
  lemma Swing(d: Desk, q: int, limits: Limits)
    requires q != 0 && limits.maxTotalLots >= 1 && limits.maxOpenOrders >= 2 && Reaches(d, Stands(q, []), limits, PROMPT)
    ensures Reaches(d, Stands(Across(q), []), limits, PROMPT)
  {
    var o := ExitOf(q);
    var one := Unit(o.side, 1);
    Exits(d, q, [], o, limits);
    assert [] + [o] == [o] && [o] + [] == [o];
    Exits(d, q, [o], o, limits);
    Fills(d, q, o, [o], 0, limits);
    Places(d, 0, [o], one, limits);
    Fills(d, 0, o, [one], -q, limits);
    assert [one] + [] == [one];
    Fills(d, -q, one, [], Across(q), limits);
  }

  lemma {:induction false} SwingTo(n: nat, limits: Limits) returns (q: int)
    requires n > 0 && limits.maxTotalLots >= 1 && limits.maxOpenOrders >= 2
    ensures Abs(q) == n && Reaches(Stands(0, []), Stands(q, []), limits, PROMPT)
  {
    var flat := Stands(0, []);
    if n == 1 {
      var one := Unit(BUY, 1);
      NoMoves(flat, limits, PROMPT);
      Places(flat, 0, [], one, limits);
      assert [] + [one] == [one] + [];
      Fills(flat, 0, one, [], 1, limits);
      q := 1;
    } else {
      var p := SwingTo(n - 1, limits);
      Swing(flat, p, limits);
      q := Across(p);
    }
  }

  /** As soon as two orders may wait at once there is no bound, even when nothing is sent while a published fill is missing
      from the book: from a flat book every number of open lots is exceeded. */
  lemma ExitsAreUnbounded(limits: Limits, bound: nat) returns (desks: seq<Desk>, moves: seq<Move>)
    requires limits.maxTotalLots >= 1 && limits.maxOpenOrders >= 2
    ensures Run(desks, moves, limits, InUnits())
    ensures forall j :: 0 <= j < |moves| && (moves[j].Place? || moves[j].Exit?) ==> Seen(desks[j])
    ensures Tidy(desks[0], InUnits()) && desks[0] == Stands(0, [])
    ensures OpenLots(desks[0].positions) == 0 && OpenLots(desks[|moves|].positions) > bound
  {
    var q := SwingTo(bound + 1, limits);
    HoldingLots(0);
    HoldingLots(q);
    desks, moves :| Leads(desks, moves, Stands(0, []), Stands(q, []), limits, PROMPT);
    forall j | 0 <= j < |moves| && (moves[j].Place? || moves[j].Exit?) ensures Seen(desks[j]) {
      assert Mannered(desks[j], moves[j], PROMPT);
    }
  }

  // ---- What the gate does not see ----

  const BLIND := Manner(false, false)

  /** So many lots sent one after the other, each filled before the next is sent, and none of them in the book yet. */
  lemma {:induction false} AllPublished(n: nat, limits: Limits)
    requires limits.maxTotalLots >= 1 && limits.maxOpenOrders >= 1
    ensures Reaches(Stands(0, []), Desk(Holding(0), [], Copies(n, Unit(BUY, 1))), limits, BLIND)
  {
    var flat, one := Stands(0, []), Unit(BUY, 1);
    if n == 0 {
      NoMoves(flat, limits, BLIND);
      assert Copies(0, one) == [];
    } else {
      var before, more := Copies(n - 1, one), Copies(n, one);
      AllPublished(n - 1, limits);
      assert before + [one] == more && [] + [one] == [one] && Removed([one], 0) == [];
      TradesInUnits(1);
      HoldingLots(0);
      Extend(flat, Desk(Holding(0), [], before), Place(one), Desk(Holding(0), [one], before), limits, BLIND);
      Extend(flat, Desk(Holding(0), [one], before), Complete(0, one), Desk(Holding(0), [], more), limits, BLIND);
    }
  }

  lemma {:induction false} AllDelivered(n: nat, k: nat, limits: Limits)
    requires limits.maxTotalLots >= 1 && limits.maxOpenOrders >= 1 && k <= n
    ensures Reaches(Stands(0, []), Desk(Holding(k), [], Copies(n - k, Unit(BUY, 1))), limits, BLIND)
  {
    var one := Unit(BUY, 1);
    if k == 0 {
      AllPublished(n, limits);
    } else {
      AllDelivered(n, k - 1, limits);
      var left, rest := Copies(n - k + 1, one), Copies(n - k, one);
      assert left[0] == one && left[1..] == rest;
      UnitFills(k - 1, BUY, 1);
      Extend(Stands(0, []), Desk(Holding(k - 1), [], left), Deliver, Desk(Holding(k), [], rest), limits, BLIND);
    }
  }

  /** As soon as a single order may be sent while a published fill is missing from the book there is no bound either, with
      no exit at all: every order passes on its own lots, because the ones before it neither wait nor are in the book. */
  lemma GateIsBlind(limits: Limits, bound: nat) returns (desks: seq<Desk>, moves: seq<Move>)
    requires limits.maxTotalLots >= 1 && limits.maxOpenOrders >= 1
    ensures Run(desks, moves, limits, InUnits()) && Tidy(desks[0], InUnits()) && desks[0] == Stands(0, [])
    ensures forall j :: 0 <= j < |moves| ==> !moves[j].Exit?
    ensures OpenLots(desks[0].positions) == 0 && OpenLots(desks[|moves|].positions) > bound
  {
    var n := bound + 1;
    AllDelivered(n, n, limits);
    HoldingLots(0);
    HoldingLots(n);
    assert Copies(n - n, Unit(BUY, 1)) == [];
    desks, moves :| Leads(desks, moves, Stands(0, []), Desk(Holding(n), [], []), limits, BLIND);
  }

  /** Three waiting exits of everything open each count as reducing, and leave twice as much open the other way. */
  lemma ThreeExitsDouble(d: Desk, q: int, twice: int, limits: Limits)
    requires q > 0 && twice == -(q + q) && limits.maxOpenOrders >= 3 && Reaches(d, Stands(q, []), limits, PROMPT)
    ensures Reaches(d, Stands(twice, []), limits, PROMPT) && OpenLots(Holding(twice)) == 2 * OpenLots(Holding(q))
  {
    var o := ExitOf(q);
    Exits(d, q, [], o, limits);
    assert [] + [o] == [o] && [o] + [] == [o];
    Exits(d, q, [o], o, limits);
    Exits(d, q, [o] + [o], o, limits);
    assert [o] + [o] + [o] == [o] + ([o] + [o]);
    Fills(d, q, o, [o] + [o], 0, limits);
    Fills(d, 0, o, [o], -q, limits);
    Fills(d, -q, o, [], twice, limits);
    HoldingLots(q);
    HoldingLots(twice);
  }
}
