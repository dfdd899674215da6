/** The gate, the order manager, the queue of events and the books together: what a desk that sends every order through
    the gate keeps to, and when the gate sees what has been filled. */
module TradingRun {
  import opened Collections
  import opened Ledger
  import opened Positions
  import opened Validation
  import opened CircuitBreaking
  import opened Risk
  import opened Portfolio
  import X = Exposure
  import W = WaitingOrders
  import O = Oms

  // ---- The desk that Exposure speaks of, read off the order manager and the book ----

  /** The order tracked under the i-th broker id asks for the i-th fill. */
  ghost predicate WaitsAs(s: O.Store, waiting: seq<int>, pending: seq<Fill>, i: nat)
    requires i < |waiting| == |pending|
  {
    && waiting[i] in s.pending.entries && s.pending.entries[waiting[i]] in s.orders
    && pending[i] == AsFill(s.orders[s.pending.entries[waiting[i]]].request)
  }

  ghost predicate Tracked(s: O.Store, b: int) { b in s.pending.entries }

  /** The tracked orders, each once, by broker id and as the fills they ask for. */
  ghost predicate Waits(s: O.Store, waiting: seq<int>, pending: seq<Fill>) {
    && Distinct(waiting) && |pending| == |waiting|
    && (forall i :: 0 <= i < |waiting| ==> WaitsAs(s, waiting, pending, i))
    && (forall b :: Tracked(s, b) ==> b in waiting)
  }

  /** A tracked order asks for the same as long as it is tracked. */
  lemma StillWaitsAs(s: O.Store, t: O.Store, waiting: seq<int>, pending: seq<Fill>, i: nat)
    requires O.OrdersOk(s) && O.OrdersOk(t) && O.Later(s, t) && t.orders.Keys == s.orders.Keys
    requires i < |waiting| == |pending| && WaitsAs(s, waiting, pending, i) && Tracked(t, waiting[i])
    ensures WaitsAs(t, waiting, pending, i)
  {
    var b := waiting[i];
    assert O.TrackOk(s, b) && O.TrackOk(t, b);
    var id := t.pending.entries[b];
    O.OrderLater(s, t, id);
    assert O.OrderOk(s, id);
  }

  /** A new order joins at the end. */
  lemma OneMoreWaits(s: O.Store, r: Request, waiting: seq<int>, pending: seq<Fill>, t: O.Store, more: seq<int>, asks: seq<Fill>)
    requires O.StoreOk(s) && Waits(s, waiting, pending)
    requires t == O.Taken(s, r) && more == waiting + [s.issued] && asks == pending + [AsFill(r)]
    ensures Waits(t, more, asks)
  {
    O.NewId(s);
    forall i | 0 <= i < |waiting| ensures waiting[i] != s.issued { assert WaitsAs(s, waiting, pending, i); }
    forall i | 0 <= i < |more| ensures WaitsAs(t, more, asks, i) {
      if i < |waiting| { assert WaitsAs(s, waiting, pending, i) && O.TrackOk(s, waiting[i]); }
    }
    forall b | Tracked(t, b) ensures b in more {
      if b != s.issued { assert Tracked(s, b); }
    }
  }

  /** An order that the broker does not take leaves what waits as it is. */
  lemma NoMoreWaits(s: O.Store, r: Request, world: O.Placing, waiting: seq<int>, pending: seq<Fill>, t: O.Store)
    requires O.StoreOk(s) && !O.Goes(world) && Waits(s, waiting, pending) && t == O.After(s, r, world)
    ensures Waits(t, waiting, pending)
  {
    O.NewId(s);
    forall i | 0 <= i < |waiting| ensures WaitsAs(t, waiting, pending, i) {
      assert WaitsAs(s, waiting, pending, i) && O.TrackOk(s, waiting[i]);
    }
    forall b | Tracked(t, b) ensures b in waiting { assert Tracked(s, b); }
  }

  lemma WaitsAfterwards(s: O.Store, r: Request, world: O.Placing, waiting: seq<int>, pending: seq<Fill>,
                        t: O.Store, more: seq<int>, asks: seq<Fill>)
    requires O.StoreOk(s) && Waits(s, waiting, pending) && t == O.After(s, r, world)
    requires more == if O.Goes(world) then waiting + [s.issued] else waiting
    requires asks == if O.Goes(world) then pending + [AsFill(r)] else pending
    ensures Waits(t, more, asks)
  {
    if O.Goes(world) {
      OneMoreWaits(s, r, waiting, pending, t, more, asks);
    } else {
      NoMoreWaits(s, r, world, waiting, pending, t);
    }
  }

  // ---- What a poll ends ----

  function Dropped(waiting: seq<int>, i: nat): seq<int>
    requires i < |waiting|
  {
    waiting[..i] + waiting[i + 1..]
  }

  /** A broker id waits until its turn comes, and after that unless the reports have ended its order. */
  ghost predicate WaitsStill(s: O.Store, reports: O.Reports, waiting: seq<int>, n: nat, j: nat)
    requires s.pending.Valid() && j < |s.pending.order|
  {
    s.pending.order[j] in waiting <==> !(j < n && O.SaidEnd(s, reports, s.pending.order[j]))
  }

  /** After the first n of the orders that were tracked in s: those still waiting, and what they ask for. */
  ghost predicate WaitsAfter(s: O.Store, reports: O.Reports, waiting: seq<int>, pending: seq<Fill>, n: nat) {
    && s.pending.Valid() && Distinct(waiting) && |pending| == |waiting|
    && (forall i :: 0 <= i < |waiting| ==> WaitsAs(s, waiting, pending, i))
    && (forall j :: 0 <= j < |s.pending.order| ==> WaitsStill(s, reports, waiting, n, j))
  }

  lemma PollStarts(s: O.Store, reports: O.Reports, waiting: seq<int>, pending: seq<Fill>)
    requires O.OrdersOk(s) && Waits(s, waiting, pending)
    ensures WaitsAfter(s, reports, waiting, pending, 0)
  {
    forall j | 0 <= j < |s.pending.order| ensures WaitsStill(s, reports, waiting, 0, j) {
      assert Tracked(s, s.pending.order[j]);
    }
  }

  /** An order whose turn it is, and which the reports leave alone. */
  lemma PollPasses(s: O.Store, reports: O.Reports, waiting: seq<int>, pending: seq<Fill>, n: nat)
    requires WaitsAfter(s, reports, waiting, pending, n) && n < |s.pending.order| && !O.SaidEnd(s, reports, s.pending.order[n])
    ensures WaitsAfter(s, reports, waiting, pending, n + 1)
  {
    var m := n + 1;
    forall j | 0 <= j < |s.pending.order| ensures WaitsStill(s, reports, waiting, m, j) {
      assert WaitsStill(s, reports, waiting, n, j);
    }
  }

  /** One that they end, which stands at some place among those waiting. */
  lemma PollTakes(s: O.Store, reports: O.Reports, waiting: seq<int>, pending: seq<Fill>, n: nat, i: nat)
    requires WaitsAfter(s, reports, waiting, pending, n) && n < |s.pending.order| && O.SaidEnd(s, reports, s.pending.order[n])
    requires i < |waiting| && waiting[i] == s.pending.order[n]
    ensures WaitsAfter(s, reports, Dropped(waiting, i), W.Removed(pending, i), n + 1)
  {
    var rest, asks, m := Dropped(waiting, i), W.Removed(pending, i), n + 1;
    DroppedKeeps(waiting, i);
    forall k | 0 <= k < |rest| ensures WaitsAs(s, rest, asks, k) {
      assert WaitsAs(s, waiting, pending, if k < i then k else k + 1);
    }
    forall j | 0 <= j < |s.pending.order| ensures WaitsStill(s, reports, rest, m, j) {
      assert WaitsStill(s, reports, waiting, n, j);
      assert j != n ==> s.pending.order[j] != s.pending.order[n];
    }
  }

  lemma DroppedKeeps(waiting: seq<int>, i: nat)
    requires Distinct(waiting) && i < |waiting|
    ensures Distinct(Dropped(waiting, i)) && forall b :: b in Dropped(waiting, i) <==> b in waiting && b != waiting[i]
  {
    var rest := Dropped(waiting, i);
    forall b ensures b in rest <==> b in waiting && b != waiting[i] {
      if b in waiting && b != waiting[i] {
        var j :| 0 <= j < |waiting| && waiting[j] == b;
        assert rest[if j < i then j else j - 1] == b;
      }
    }
  }

  lemma NothingNewIsTracked(s: O.Store, t: O.Store, b: int)
    requires O.OrdersOk(s) && O.OrdersOk(t) && O.PolledFrom(s, t) && Tracked(t, b)
    ensures Tracked(s, b)
  {
    assert O.TrackOk(t, b);
    var id := t.pending.entries[b];
    assert O.OrderOk(t, id) && O.OrderOk(s, id);
    O.OrderLater(s, t, id);
  }

  /** Once all have had their turn, what waits is what the order manager goes on tracking. */
  lemma PollIsOver(s: O.Store, t: O.Store, reports: O.Reports, waiting: seq<int>, pending: seq<Fill>)
    requires O.OrdersOk(s) && O.OrdersOk(t) && O.PolledFrom(s, t) && WaitsAfter(s, reports, waiting, pending, |s.pending.order|)
    requires O.PolledAsTold(s, t, reports)
    ensures Waits(t, waiting, pending)
  {
    forall b | Tracked(t, b) ensures b in waiting {
      NothingNewIsTracked(s, t, b);
      assert b in s.pending.order;
      var j :| 0 <= j < |s.pending.order| && s.pending.order[j] == b;
      assert WaitsStill(s, reports, waiting, |s.pending.order|, j) && O.EndedAsTold(s, t, reports, b);
    }
    forall i | 0 <= i < |waiting| ensures WaitsAs(t, waiting, pending, i) {
      assert WaitsAs(s, waiting, pending, i);
      assert waiting[i] in s.pending.order;
      var j :| 0 <= j < |s.pending.order| && s.pending.order[j] == waiting[i];
      assert WaitsStill(s, reports, waiting, |s.pending.order|, j) && O.EndedAsTold(s, t, reports, waiting[i]);
      StillWaitsAs(s, t, waiting, pending, i);
    }
  }

  /** A report of a fill is of whole lots, and of no more than was asked for. */
  ghost predicate Plausible(s: O.Store, reports: O.Reports, b: int) {
    b in s.pending.entries && b in reports && O.GoodFill(reports[b]) && s.pending.entries[b] in s.orders ==>
      W.PartOk(AsFill(s.orders[s.pending.entries[b]].request), reports[b].quantity.value)
  }

  ghost predicate AllPlausible(s: O.Store, reports: O.Reports) { forall b :: Plausible(s, reports, b) }

  /** The event that ends the order whose turn it is: a fill of part or all of what it asks for, or no fill. */
  lemma EndOf(s: O.Store, reports: O.Reports, waiting: seq<int>, pending: seq<Fill>, n: nat, i: nat)
    requires O.OrdersOk(s) && AllPlausible(s, reports) && WaitsAfter(s, reports, waiting, pending, n) && n < |s.pending.order|
    requires i < |waiting| && waiting[i] == s.pending.order[n]
    ensures var b := s.pending.order[n];
            && s.pending.entries[b] in s.orders && s.orders[s.pending.entries[b]].broker == Some(b)
            && var end := O.Said(reports, b, s.pending.entries[b], s.orders[s.pending.entries[b]]);
               && (O.SaidEnd(s, reports, b) <==> end.Some?)
               && (end.Some? && end.value.1.FilledEvent? ==> FillsPart(end.value.1, pending[i]))
  {
    var b := s.pending.order[n];
    assert b in s.pending.entries;
    assert O.TrackOk(s, b) && WaitsAs(s, waiting, pending, i) && Plausible(s, reports, b);
  }

  // ---- Events ----

  lemma FillsOfOne(e: O.Event)
    ensures FillsOf([e]) == if e.FilledEvent? then [FillOf(e)] else []
  {
    assert [e][..0] == [];
  }

  lemma {:induction false} FillsOfConcat(a: seq<O.Event>, b: seq<O.Event>)
    ensures FillsOf(a + b) == FillsOf(a) + FillsOf(b)
  {
    if b == [] {
      assert a + b == a;
    } else {
      var rest, last := b[..|b| - 1], b[|b| - 1];
      FillsOfConcat(a, rest);
      assert (a + b)[..|a + b| - 1] == a + rest;
      var tail := if last.FilledEvent? then [FillOf(last)] else [];
      assert FillsOf(a) + (FillsOf(rest) + tail) == (FillsOf(a) + FillsOf(rest)) + tail;
    }
  }

  lemma {:induction false} NoFills(events: seq<O.Event>)
    requires forall i :: 0 <= i < |events| ==> !events[i].FilledEvent?
    ensures FillsOf(events) == []
  {
    if events != [] { NoFills(events[..|events| - 1]); }
  }

  /** These are the fills that the events tell of, wherever the events are cut in two. */
  ghost predicate Tells(events: seq<O.Event>, fills: seq<Fill>) {
    forall n :: 0 <= n <= |events| ==> TellsCut(events, fills, n)
  }

  ghost predicate TellsCut(events: seq<O.Event>, fills: seq<Fill>, n: nat)
    requires n <= |events|
  {
    fills == FillsOf(events[..n]) + FillsOf(events[n..])
  }

  lemma UncutTells(events: seq<O.Event>, fills: seq<Fill>)
    ensures TellsCut(events, fills, 0) <==> fills == FillsOf(events)
  {
    assert events[..0] == [] && events[0..] == events && [] + FillsOf(events) == FillsOf(events);
  }

  lemma TellsAll(events: seq<O.Event>, fills: seq<Fill>)
    ensures Tells(events, fills) <==> fills == FillsOf(events)
  {
    UncutTells(events, fills);
    forall n | 0 <= n <= |events| && fills == FillsOf(events) ensures TellsCut(events, fills, n) {
      CutAnywhere(events, fills, n);
    }
  }

  lemma CutAnywhere(events: seq<O.Event>, fills: seq<Fill>, n: nat)
    requires n <= |events| && fills == FillsOf(events)
    ensures TellsCut(events, fills, n)
  {
    assert events == events[..n] + events[n..];
    FillsOfConcat(events[..n], events[n..]);
  }

  lemma TellsMore(events: seq<O.Event>, fills: seq<Fill>, news: seq<O.Event>, told: seq<Fill>, more: seq<O.Event>, all: seq<Fill>)
    requires Tells(events, fills) && told == FillsOf(news) && more == events + news && all == fills + told
    ensures Tells(more, all)
  {
    TellsAll(events, fills);
    TellsAll(more, all);
    FillsOfConcat(events, news);
  }

  /** What sending an order publishes is no fill. */
  lemma SendingPublishesNoFill(s: O.Store, r: Request, world: O.Placing, t: O.Store)
    requires t == O.After(s, r, world)
    ensures s.events <= t.events && FillsOf(t.events[|s.events|..]) == []
  {
    NoFills(t.events[|s.events|..]);
  }

  /** What the n-th turn of a poll publishes. */
  ghost function TurnEvents(s: O.Store, reports: O.Reports, n: nat): seq<O.Event>
    requires O.StoreOk(s) && n < |s.pending.order|
  {
    var b := s.pending.order[n];
    assert b in s.pending.entries;
    assert O.TrackOk(s, b);
    var end := O.Said(reports, b, s.pending.entries[b], s.orders[s.pending.entries[b]]);
    if end.Some? then [end.value.1] else []
  }

  lemma FillsOfTurn(s: O.Store, reports: O.Reports, n: nat)
    requires O.StoreOk(s) && n < |s.pending.order|
    ensures FillsOf(O.Published(s, reports, n + 1)) == FillsOf(O.Published(s, reports, n)) + FillsOf(TurnEvents(s, reports, n))
  {
    var b := s.pending.order[n];
    assert b in s.pending.entries;
    assert O.TrackOk(s, b);
    FillsOfConcat(O.Published(s, reports, n), TurnEvents(s, reports, n));
  }

  /** The event tells of a real fill of part or all of what was asked for. */
  ghost predicate FillsPart(e: O.Event, o: Fill) {
    e.FilledEvent? && W.PartOf(FillOf(e), o)
  }

  // ---- Counting open orders ----

  lemma {:induction false} Members<T>(a: seq<T>)
    requires Distinct(a)
    ensures |set x | x in a| == |a|
  {
    if a != [] {
      var rest, last := a[..|a| - 1], a[|a| - 1];
      Members(rest);
      assert a == rest + [last] && last !in rest;
      assert (set x | x in a) == (set x | x in rest) + {last};
    }
  }

  lemma SameLength<T>(a: seq<T>, b: seq<T>)
    requires Distinct(a) && Distinct(b) && forall x :: x in a <==> x in b
    ensures |a| == |b|
  {
    Members(a);
    Members(b);
    assert (set x | x in a) == (set x | x in b);
  }

  lemma {:induction false} OpenOnce(s: O.Store, ids: seq<int>, strategy: string)
    requires Distinct(ids) && forall i :: 0 <= i < |ids| ==> ids[i] in s.orders
    ensures Distinct(O.OpenAmong(s, ids, strategy))
  {
    if ids != [] {
      assert ids == [ids[0]] + ids[1..] && Distinct(ids[1..]) && ids[0] !in ids[1..];
      OpenOnce(s, ids[1..], strategy);
      O.OpenAmongIff(s, ids[1..], strategy);
    }
  }

  /** The open orders the gate counts are the tracked ones. */
  lemma OpenOrdersAreWaiting(oms: O.OrderManager, waiting: seq<int>, pending: seq<Fill>)
    requires oms.Valid() && Waits(oms.store, waiting, pending)
    ensures |oms.GetOpenOrders("")| == |waiting|
  {
    var s := oms.store;
    O.OpenAreTracked(s, s.placed, "");
    OpenOnce(s, s.placed, "");
    forall i | 0 <= i < |waiting| ensures waiting[i] in s.pending.entries { assert WaitsAs(s, waiting, pending, i); }
    var ids := seq(|waiting|, i requires 0 <= i < |waiting| => s.pending.entries[waiting[i]]);
    forall i, j | 0 <= i < j < |ids| ensures ids[i] != ids[j] {
      assert O.TrackOk(s, waiting[i]) && O.TrackOk(s, waiting[j]);
    }
    forall id ensures id in ids <==> id in oms.GetOpenOrders("") {
      if id in oms.GetOpenOrders("") {
        assert O.OrderOk(s, id);
        var b := s.orders[id].broker.value;
        assert Tracked(s, b);
        var i :| 0 <= i < |waiting| && waiting[i] == b;
        assert ids[i] == id;
      }
      if id in ids {
        var i :| 0 <= i < |ids| && ids[i] == id;
        assert O.TrackOk(s, waiting[i]);
      }
    }
    SameLength(ids, oms.GetOpenOrders(""));
  }

  // ---- What the desk keeps to ----

  /** What is claimed of a desk: the first bound as long as it is `guarded`, the second as long as it is `alone`. */
  datatype Terms = Terms(limits: X.Limits, symbolOf: int -> string, guarded: bool, bound: int, alone: bool, most: int)

  /** Within the bound, and every claim small or covered. */
  ghost predicate Within(d: W.Desk, t: Terms) {
    W.Bounded(d, t.limits) && W.AtRisk(d) <= t.bound && t.limits.maxOpenOrders * t.limits.maxTotalLots <= t.bound
  }

  /** At most one claim, still as the gate saw it. */
  ghost predicate OneByOne(d: W.Desk, t: Terms) {
    W.OneClaim(d, t.limits) && X.OpenLots(d.positions) <= t.most && t.limits.maxTotalLots <= t.most
  }

  /** What a desk keeps: whole lots always, and what its terms claim. */
  ghost predicate Kept(d: W.Desk, t: Terms) {
    W.Tidy(d, t.symbolOf) && (t.guarded ==> Within(d, t)) && (t.alone ==> OneByOne(d, t))
  }

  /** What a caller can look at before it sends an order: the gate sees every position and every fill and the lots fit, or
      it sees every position and the order is an exit that, with everything claimed, closes no more than is open. */
  ghost predicate Guarded(d: W.Desk, o: Fill, limits: X.Limits) { (W.Seen(d) && Fits(d, o, limits)) || W.Safe(d, o) }

  ghost predicate Fits(d: W.Desk, o: Fill, limits: X.Limits) { X.OpenLots(d.positions) + X.OrderLots(o) <= limits.maxTotalLots }

  /** The terms once an order has been sent: a claim stands if its guard held. `clear` says that nothing was hidden. */
  ghost function TermsAfter(d: W.Desk, o: Fill, t: Terms, clear: bool): Terms {
    t.(guarded := t.guarded && clear && Guarded(d, o, t.limits), alone := t.alone && clear && W.Claims(d) == [])
  }

  /** An order the gate let through and the broker took. */
  lemma SendingKeeps(d: W.Desk, o: Fill, after: W.Desk, t: Terms, clear: bool)
    requires Kept(d, t) && X.OrderOk(o, t.symbolOf) && |d.pending| < t.limits.maxOpenOrders
    requires clear ==> X.Admits(t.limits, d.positions, o)
    requires after == W.Desk(d.positions, d.pending + [o], d.queued)
    ensures Kept(after, TermsAfter(d, o, t, clear))
  {
    W.OneMoreOk(d.pending, o, t.symbolOf);
    var t' := TermsAfter(d, o, t, clear);
    if t'.guarded {
      if W.Safe(d, o) { SafeReduces(d, o, t.symbolOf); }
      var m := if W.Seen(d) && Fits(d, o, t.limits) then W.Place(o) else W.Exit(o);
      W.OneGuardedMove(d, m, after, t.limits, t.symbolOf);
    }
    if t'.alone { assert W.Claims(after) == [o]; }
  }

  lemma SafeReduces(d: W.Desk, o: Fill, symbolOf: int -> string)
    requires W.Tidy(d, symbolOf) && o.quantity > 0 && W.Safe(d, o)
    ensures X.Reduces(d.positions, o)
  {
    W.ClaimsOk(d, symbolOf);
    W.NothingNegative(W.Claims(d), X.KeyOf(o), o.side);
  }

  /** An order met the world: it joins what waits if the broker took it. */
  lemma PlacingKeeps(d: W.Desk, o: Fill, goes: bool, after: W.Desk, t: Terms, clear: bool, t': Terms)
    requires Kept(d, t) && X.OrderOk(o, t.symbolOf)
    requires goes ==> |d.pending| < t.limits.maxOpenOrders && (clear ==> X.Admits(t.limits, d.positions, o))
    requires after == if goes then W.Desk(d.positions, d.pending + [o], d.queued) else d
    requires t' == if goes then TermsAfter(d, o, t, clear) else t
    ensures Kept(after, t')
  {
    if goes { SendingKeeps(d, o, after, t, clear); }
  }

  /** A waiting order comes to its end, filled in part or in full, or not at all; or a fill reaches the book. */
  lemma EndingKeeps(d: W.Desk, m: W.Move, after: W.Desk, t: Terms)
    requires Kept(d, t) && (m.Complete? || m.Deliver? || m.Drop?) && W.Moves(d, m, after, t.limits, t.symbolOf)
    ensures Kept(after, t)
  {
    W.TidyStays(d, m, after, t.limits, t.symbolOf);
    if t.guarded { W.OneGuardedMove(d, m, after, t.limits, t.symbolOf); }
    if t.alone { W.OneClaimStays(d, m, after, t.limits, t.symbolOf); }
  }

  /** The oldest undelivered fill settles its key in the book. */
  lemma DeliveringKeeps(d: W.Desk, o: Fill, pos: Position, after: W.Desk, t: Terms)
    requires Kept(d, t) && d.queued != [] && d.queued[0] == o
    requires Settles(Held(d.positions, X.KeyOf(o)), ToLot(o), pos.Holding()) && (pos.quantity != 0 ==> pos.symbol == o.symbol)
    requires after == W.Desk(Placed(d.positions, X.KeyOf(o), pos), d.pending, d.queued[1..])
    ensures Kept(after, t)
  {
    var same := pos.(symbol := o.symbol);
    assert X.FilledTo(d.positions, o, same);
    assert Placed(d.positions, X.KeyOf(o), pos) == Placed(d.positions, X.KeyOf(o), same);
    EndingKeeps(d, W.Deliver, after, t);
  }

  // ---- A poll, order by order ----

  /** The n-th turn of a poll: the order goes on waiting, or ends and what its end publishes is queued. */
  lemma OneTurn(s: O.Store, reports: O.Reports, waiting: seq<int>, d: W.Desk, n: nat, queued: seq<Fill>, t: Terms)
    returns (waiting': seq<int>, pending': seq<Fill>)
    requires O.StoreOk(s) && AllPlausible(s, reports) && n < |s.pending.order|
    requires WaitsAfter(s, reports, waiting, d.pending, n) && Kept(d, t)
    requires queued == d.queued + FillsOf(TurnEvents(s, reports, n))
    ensures WaitsAfter(s, reports, waiting', pending', n + 1) && Kept(W.Desk(d.positions, pending', queued), t)
  {
    var b := s.pending.order[n];
    assert WaitsStill(s, reports, waiting, n, n);
    var i :| 0 <= i < |waiting| && waiting[i] == b;
    EndOf(s, reports, waiting, d.pending, n, i);
    var end := O.Said(reports, b, s.pending.entries[b], s.orders[s.pending.entries[b]]);
    if end.None? {
      PollPasses(s, reports, waiting, d.pending, n);
      waiting', pending' := waiting, d.pending;
      assert queued == d.queued;
    } else {
      PollTakes(s, reports, waiting, d.pending, n, i);
      waiting', pending' := Dropped(waiting, i), W.Removed(d.pending, i);
      FillsOfOne(end.value.1);
      var after := W.Desk(d.positions, pending', queued);
      if end.value.1.FilledEvent? {
        EndingKeeps(d, W.Complete(i, FillOf(end.value.1)), after, t);
      } else {
        assert queued == d.queued;
        EndingKeeps(d, W.Drop(i), after, t);
      }
    }
  }

  lemma {:induction false} Turns(s: O.Store, reports: O.Reports, waiting: seq<int>, d: W.Desk, n: nat, queued: seq<Fill>, t: Terms)
    returns (waiting': seq<int>, pending': seq<Fill>)
    requires O.StoreOk(s) && AllPlausible(s, reports) && n <= |s.pending.order| && Waits(s, waiting, d.pending) && Kept(d, t)
    requires queued == d.queued + FillsOf(O.Published(s, reports, n))
    ensures WaitsAfter(s, reports, waiting', pending', n) && Kept(W.Desk(d.positions, pending', queued), t)
  {
    if n == 0 {
      PollStarts(s, reports, waiting, d.pending);
      waiting', pending' := waiting, d.pending;
      assert queued == d.queued;
    } else {
      var before := d.queued + FillsOf(O.Published(s, reports, n - 1));
      waiting', pending' := Turns(s, reports, waiting, d, n - 1, before, t);
      QueueGrows(s, reports, n - 1, d.queued);
      waiting', pending' := OneTurn(s, reports, waiting', W.Desk(d.positions, pending', before), n - 1, queued, t);
    }
  }

  lemma QueueGrows(s: O.Store, reports: O.Reports, n: nat, queued: seq<Fill>)
    requires O.StoreOk(s) && n < |s.pending.order|
    ensures queued + FillsOf(O.Published(s, reports, n + 1))
            == (queued + FillsOf(O.Published(s, reports, n))) + FillsOf(TurnEvents(s, reports, n))
  {
    FillsOfTurn(s, reports, n);
  }

  /** A whole poll: what waits afterwards, and that what it published may be queued. */
  lemma PollKeeps(s: O.Store, u: O.Store, reports: O.Reports, waiting: seq<int>, d: W.Desk, told: seq<Fill>, t: Terms)
    returns (waiting': seq<int>, pending': seq<Fill>)
    requires O.StoreOk(s) && O.StoreOk(u) && O.PolledAsTold(s, u, reports) && AllPlausible(s, reports)
    requires Waits(s, waiting, d.pending) && Kept(d, t) && told == d.queued + FillsOf(O.PublishedBy(s, reports))
    ensures Waits(u, waiting', pending') && Kept(W.Desk(d.positions, pending', told), t)
  {
    waiting', pending' := Turns(s, reports, waiting, d, |s.pending.order|, told, t);
    PollIsOver(s, u, reports, waiting', pending');
  }

  /** What the gate's verdict means to the order manager: two kinds of refusal escape, the third is handled. */
  function ChecksOf(gate: Gate): O.Checks {
    match gate
    case Passed => O.Pass
    case KillSwitchActive => O.Raise(O.KillSwitchOn)
    case BreakerActive => O.Raise(O.BreakerOn)
    case LimitBreached => O.Reject
  }

  /** What is published is either delivered or still queued, in the order in which it was published. */
  ghost predicate Queued(events: seq<O.Event>, first: seq<O.Event>, delivered: seq<O.Event>, undelivered: seq<O.Event>) {
    events == first + delivered + undelivered
  }

  lemma MoreQueued(events: seq<O.Event>, first: seq<O.Event>, delivered: seq<O.Event>, undelivered: seq<O.Event>,
                   news: seq<O.Event>, events': seq<O.Event>, queue: seq<O.Event>)
    requires Queued(events, first, delivered, undelivered) && events' == events + news && queue == undelivered + news
    ensures Queued(events', first, delivered, queue)
  {
    assert (first + delivered + undelivered) + news == first + delivered + (undelivered + news);
  }

  class TradingDesk {
    const risk: RiskManager
    const oms: O.OrderManager
    const portfolio: PortfolioManager
    ghost const bound: int
    ghost const most: int
    ghost const first: seq<O.Event>   // what the order manager had published before
    ghost const past: seq<Fill>       // what the book had taken in before

    var undelivered: seq<O.Event>     // published since and not yet taken in by the book, oldest first
    ghost var queued: seq<Fill>       // the fills these tell of
    ghost var delivered: seq<O.Event>
    ghost var taken: seq<Fill>        // the fills those told of
    ghost var waiting: seq<int>       // the broker ids of the orders that wait
    ghost var pending: seq<Fill>      // what they ask for
    ghost var guarded: bool           // every order met its guard as it was sent
    ghost var alone: bool             // nothing was hidden, waiting or undelivered as each order was sent

    ghost predicate Valid()
      reads this, risk, risk.breaker, risk.tracker, oms, portfolio, portfolio.tracker, portfolio.pnl, portfolio.pnl.tracker
    {
      && risk.breaker.Valid() && oms.Valid() && Waits(oms.store, waiting, pending)
      && Queued(oms.store.events, first, delivered, undelivered) && Tells(undelivered, queued)
      && InOrder() && Kept(Now(), TermsNow())
    }

    ghost function Now(): W.Desk
      reads this, risk, risk.tracker
    {
      W.Desk(risk.tracker.positions, pending, queued)
    }

    ghost function TermsNow(): Terms
      reads this, risk, risk.tracker
    {
      Terms(risk.limits, risk.tracker.symbolOf, guarded, bound, alone, most)
    }

    /** A desk that starts with nothing waiting, whatever it holds. */
    constructor (risk: RiskManager, oms: O.OrderManager, portfolio: PortfolioManager)
      requires risk.Valid() && oms.Valid() && portfolio.Valid() && portfolio.tracker == risk.tracker
      requires oms.store.pending.entries == map[] && X.InWholeLots(risk.tracker.positions, risk.tracker.symbolOf)
      ensures Valid() && guarded && alone && this.risk == risk && this.oms == oms && this.portfolio == portfolio
      ensures undelivered == [] && delivered == [] && pending == [] && past == risk.tracker.history
      ensures bound == Max(X.OpenLots(risk.tracker.positions), risk.limits.maxOpenOrders * risk.limits.maxTotalLots)
      ensures most == Max(X.OpenLots(risk.tracker.positions), risk.limits.maxTotalLots)
    {
      this.risk, this.oms, this.portfolio := risk, oms, portfolio;
      bound := Max(X.OpenLots(risk.tracker.positions), risk.limits.maxOpenOrders * risk.limits.maxTotalLots);
      most := Max(X.OpenLots(risk.tracker.positions), risk.limits.maxTotalLots);
      first, past := oms.store.events, risk.tracker.history;
      undelivered, queued, delivered, taken, waiting, pending, guarded, alone := [], [], [], [], [], [], true, true;
      TellsAll([], []);
    }

    /** Open lots over the whole life of the desk, whatever was sent, filled in part or in full, delivered late, cancelled
        or refused; the first bound also holds of what is open together with what the claims could add to it. */
    lemma StaysWithin()
      requires Valid()
      ensures guarded ==> X.OpenLots(risk.tracker.positions) <= W.AtRisk(Now()) <= bound
      ensures alone ==> X.OpenLots(risk.tracker.positions) <= most
    {
    }

    /** The book is behind what was published by exactly what is undelivered. */
    lemma BookIsBehind(key: Key)
      requires Valid()
      ensures risk.tracker.GetNetQuantity(key.0, key.1) + FilledQuantity(undelivered, key)
              == NetQuantity(KeyLots(past, key)) + FilledQuantity(delivered + undelivered, key)
    {
      TellsAll(delivered, taken);
      KeyLotsConcat(past, taken, key);
      FilledQuantityIsTraded(delivered, key);
      FilledQuantityConcat(delivered, undelivered, key);
    }

    /** The gate sees every fill that was published exactly when what is undelivered nets to nothing, key by key; in
        particular when nothing that tells of a fill is undelivered. */
    lemma GateSeesEveryFill()
      requires Valid()
      ensures (forall key: Key :: IsCurrent(key)) <==> (forall key: Key :: NothingDue(key))
      ensures W.Seen(Now()) ==> forall key: Key :: NothingDue(key)
    {
      forall key: Key ensures IsCurrent(key) <==> NothingDue(key) { BookIsBehind(key); }
      TellsAll(undelivered, queued);
      forall key: Key | W.Seen(Now()) ensures NothingDue(key) { FilledQuantityIsTraded(undelivered, key); }
    }

    /** The book's net quantity of the key is that of everything published. */
    ghost predicate IsCurrent(key: Key)
      requires Valid()
      reads this, risk, risk.breaker, risk.tracker, oms, portfolio, portfolio.tracker, portfolio.pnl, portfolio.pnl.tracker
    {
      risk.tracker.GetNetQuantity(key.0, key.1)
      == NetQuantity(KeyLots(past, key)) + FilledQuantity(delivered + undelivered, key)
    }

    /** What is undelivered of the key nets to nothing. */
    ghost predicate NothingDue(key: Key)
      reads this
    {
      FilledQuantity(undelivered, key) == 0
    }

    /** What the gate lets through is admitted, and there is room for it, as long as nothing is hidden from the gate. */
    lemma PassedHasRoom(r: Request, p: Picture)
      requires Valid() && r.strategy != "" && r.quantity > 0 && p.openOrders == |oms.GetOpenOrders("")|
      requires WithinLimits(risk.limits, r, X.LotsHeld(risk.tracker.GetOpenPositions("")), p, risk.Reducing(r))
      ensures |pending| < risk.limits.maxOpenOrders
      ensures risk.tracker.Disjoint() ==> X.Admits(risk.limits, risk.tracker.positions, AsFill(r))
    {
      OpenOrdersAreWaiting(oms, waiting, pending);
      if risk.tracker.Disjoint() { risk.PassedIsAdmitted(r, p); }
    }

    /** With a flat book and nothing waiting the lot and order limits let any order of up to the lot limit through, whatever
        is published and undelivered. */
    lemma UnseenFillsDoNotCount(r: Request, p: Picture)
      requires Valid() && risk.tracker.positions.entries == map[] && pending == [] && risk.limits.maxOpenOrders >= 1
      requires X.OrderLots(AsFill(r)) <= risk.limits.maxTotalLots && r.quantity > 0
      requires p.openOrders == |oms.GetOpenOrders("")| && !p.greeksBreached
      requires p.dayPnl >= -risk.limits.maxDayLoss && p.strategyPnl >= -risk.limits.maxStrategyLoss
      ensures WithinLimits(risk.limits, r, X.LotsHeld(risk.tracker.GetOpenPositions("")), p, risk.Reducing(r))
    {
      OpenOrdersAreWaiting(oms, waiting, pending);
      X.VisibleLots(risk.tracker);
      X.NoLots(risk.tracker.positions.order, risk.tracker.positions.entries);
    }

    /** The gate, with the open orders as the order manager counts them. */
    method PassGate(r: Request, dayPnl: real, strategyPnl: real, greeksBreached: bool, now: real, later: real) returns (gate: Gate)
      requires Valid() && r.strategy != "" && r.quantity > 0 && risk.breaker.clock <= now <= later
      modifies risk.breaker`state, risk.breaker`triggeredAt, risk.breaker`snapshots, risk.breaker`history, risk.breaker`clock
      ensures Valid() && Now() == old(Now()) && TermsNow() == old(TermsNow())
      ensures gate == Passed ==>
        && |pending| < risk.limits.maxOpenOrders
        && (old(risk.tracker.Disjoint()) ==> X.Admits(risk.limits, risk.tracker.positions, AsFill(r)))
    {
      var p := Picture(dayPnl, strategyPnl, |oms.GetOpenOrders("")|, greeksBreached);
      gate := risk.ValidateOrder(r, p, now, later);
      if gate == Passed { PassedHasRoom(r, p); }
    }

    /** The books are in order, and everything delivered is in them. */
    ghost predicate InOrder()
      reads this, risk, risk.tracker, portfolio, portfolio.tracker, portfolio.pnl, portfolio.pnl.tracker
    {
      portfolio.Valid() && portfolio.tracker == risk.tracker && risk.tracker.history == past + taken && Tells(delivered, taken)
    }

    /** What the order manager now has and has published is taken down. */
    method TakeDown(queue: seq<O.Event>, ghost told: seq<Fill>, ghost more: seq<int>, ghost asks: seq<Fill>, ghost t: Terms)
      requires risk.breaker.Valid() && oms.Valid() && InOrder()
      requires Waits(oms.store, more, asks) && Queued(oms.store.events, first, delivered, queue) && Tells(queue, told)
      requires Kept(W.Desk(risk.tracker.positions, asks, told), t) && t == TermsNow().(guarded := t.guarded, alone := t.alone)
      modifies this`undelivered, this`queued, this`waiting, this`pending, this`guarded, this`alone
      ensures Valid() && undelivered == queue && queued == told && waiting == more && pending == asks && TermsNow() == t
    {
      undelivered, queued, waiting, pending, guarded, alone := queue, told, more, asks, t.guarded, t.alone;
      assert Now() == W.Desk(risk.tracker.positions, asks, told) && TermsNow() == t;
    }

    /** To the broker with an order that has passed, or has not; what is published is queued. */
    method Place(r: Request, world: O.Placing, ghost asks: seq<Fill>, ghost t: Terms) returns (outcome: O.Outcome)
      requires Valid() && asks == if O.Goes(world) then pending + [AsFill(r)] else pending
      requires Kept(W.Desk(risk.tracker.positions, asks, queued), t) && t == TermsNow().(guarded := t.guarded, alone := t.alone)
      modifies this`undelivered, this`queued, this`waiting, this`pending, this`guarded, this`alone, oms
      ensures Valid() && queued == old(queued) && oms.store == O.After(old(oms.store), r, world)
      ensures pending == asks && TermsNow() == t
    {
      ghost var before := oms.store;
      var from := |oms.store.events|;
      outcome := oms.PlaceOrder(r, world);
      var queue := undelivered + oms.store.events[from..];
      SendingQueues(before, r, world, oms.store, first, delivered, undelivered, queue, queued);
      ghost var more := if O.Goes(world) then waiting + [before.issued] else waiting;
      WaitsAfterwards(before, r, world, waiting, pending, oms.store, more, asks);
      TakeDown(queue, queued, more, asks, t);
    }

    /** An order is sent through the gate to the broker. The guards are what a caller could look at before. */
    method Send(r: Request, dayPnl: real, strategyPnl: real, greeksBreached: bool, now: real, later: real, answer: O.Answer)
      returns (gate: Gate, outcome: O.Outcome)
      requires Valid() && r.strategy != "" && X.OrderOk(AsFill(r), risk.tracker.symbolOf)
      requires risk.breaker.clock <= now <= later
      modifies this`undelivered, this`queued, this`waiting, this`pending, this`guarded, this`alone, oms
      modifies risk.breaker`state, risk.breaker`triggeredAt, risk.breaker`snapshots, risk.breaker`history, risk.breaker`clock
      ensures Valid() && queued == old(queued)
      ensures gate != Passed || !answer.Accepts? ==> pending == old(pending) && guarded == old(guarded) && alone == old(alone)
      ensures gate == Passed && answer.Accepts? ==>
        && pending == old(pending) + [AsFill(r)]
        && (guarded <==> old(guarded && risk.tracker.Disjoint() && Guarded(Now(), AsFill(r), risk.limits)))
        && (alone <==> old(alone && risk.tracker.Disjoint() && W.Claims(Now()) == []))
    {
      ghost var d, t0, clear := Now(), TermsNow(), risk.tracker.Disjoint();
      gate := PassGate(r, dayPnl, strategyPnl, greeksBreached, now, later);
      var world := O.Placing(ChecksOf(gate), answer);
      ghost var goes := O.Goes(world);
      ghost var asks := if goes then d.pending + [AsFill(r)] else d.pending;
      ghost var t := if goes then TermsAfter(d, AsFill(r), t0, clear) else t0;
      PlacingKeeps(d, AsFill(r), goes, W.Desk(d.positions, asks, d.queued), t0, clear, t);
      outcome := Place(r, world, asks, t);
    }

    /** A poll. The orders it ends wait no longer, and what it publishes is queued; the book is not told. */
    method Poll(reports: O.Reports)
      requires Valid() && AllPlausible(oms.store, reports)
      modifies this`undelivered, this`queued, this`waiting, this`pending, this`guarded, this`alone, oms
      ensures Valid() && TermsNow() == old(TermsNow()) && O.PolledFrom(old(oms.store), oms.store)
      ensures queued == old(queued) + FillsOf(O.PublishedBy(old(oms.store), reports))
      ensures undelivered == old(undelivered) + O.PublishedBy(old(oms.store), reports)
    {
      ghost var before := oms.store;
      var from := |oms.store.events|;
      oms.CheckOrders(Some(reports));
      var queue := undelivered + oms.store.events[from..];
      ghost var told := queued + FillsOf(O.PublishedBy(before, reports));
      PollQueues(before, oms.store, reports, first, delivered, undelivered, queue, queued, told);
      ghost var more, asks := PollKeeps(before, oms.store, reports, waiting, Now(), told, TermsNow());
      TakeDown(queue, told, more, asks, TermsNow());
    }

    /** The book takes in the oldest event that it has not, if there is one; all but fills leave it as it is. */
    method Deliver()
      requires Valid()
      modifies this`undelivered, this`queued, this`delivered, this`taken, portfolio.tracker, portfolio.pnl`charges
      ensures Valid()
      ensures old(undelivered) == [] ==> undelivered == [] && risk.tracker.history == old(risk.tracker.history)
      ensures old(undelivered) != [] ==>
        && undelivered == old(undelivered)[1..] && delivered == old(delivered) + [old(undelivered)[0]]
        && risk.tracker.history == old(risk.tracker.history) + FillsOf([old(undelivered)[0]])
    {
      if undelivered == [] {
        return;
      }
      var e := undelivered[0];
      HeadTells(oms.store, first, delivered, taken, undelivered, queued);
      if e.FilledEvent? {
        TakeInFill(e);
      }
      undelivered, delivered := undelivered[1..], delivered + [e];
    }

    /** A fill reaches the book. */
    method TakeInFill(e: O.Event)
      requires portfolio.Valid() && portfolio.tracker == risk.tracker && risk.tracker.history == past + taken
      requires Kept(Now(), TermsNow())
      requires queued != [] && e.FilledEvent? && e.price > 0.0 && e.quantity > 0 && FillOf(e) == queued[0]
      modifies this`queued, this`taken, portfolio.tracker, portfolio.pnl`charges
      ensures portfolio.Valid() && Kept(Now(), TermsNow()) && risk.tracker.history == past + taken
      ensures queued == old(queued)[1..] && taken == old(taken) + [FillOf(e)]
      ensures risk.tracker.history == old(risk.tracker.history) + [FillOf(e)]
    {
      ghost var before, t, o := Now(), TermsNow(), FillOf(e);
      assert W.PendingOk(before.queued, t.symbolOf, 0);
      var pos := portfolio.OnOrderFilled(e);
      queued, taken := queued[1..], taken + [o];
      NamedAlike(risk.tracker, before.positions, o, pos);
      DeliveringKeeps(before, o, pos, Now(), t);
    }

    /** The book catches up with everything published. */
    method DeliverAll()
      requires Valid()
      modifies this`undelivered, this`queued, this`delivered, this`taken, portfolio.tracker, portfolio.pnl`charges
      ensures Valid() && undelivered == [] && W.Seen(Now())
    {
      while undelivered != []
        invariant Valid()
        decreases |undelivered|
      {
        Deliver();
      }
      TellsAll([], queued);
    }

    /** A cancel, granted or not: a tracked order waits no longer, any other change is to no order that waits. */
    method Cancel(id: int, granted: bool) returns (cancelled: bool)
      requires Valid()
      modifies this`undelivered, this`queued, this`waiting, this`pending, this`guarded, this`alone, oms
      ensures Valid() && queued == old(queued) && TermsNow() == old(TermsNow())
      ensures cancelled <==> granted && id in old(oms.store).orders && old(oms.store).orders[id].broker.Some?
      ensures !cancelled ==> oms.store == old(oms.store) && undelivered == old(undelivered)
      ensures forall i :: 0 <= i < |old(waiting)| && cancelled && old(oms.store).orders[id].broker == Some(old(waiting)[i]) ==>
        waiting == Dropped(old(waiting), i) && pending == W.Removed(old(pending), i)
      ensures !cancelled || old(oms.store).orders[id].broker.value !in old(waiting) ==>
        waiting == old(waiting) && pending == old(pending)
    {
      ghost var s := oms.store;
      var from := |oms.store.events|;
      cancelled := oms.CancelOrder(id, granted);
      if cancelled {
        var queue := undelivered + oms.store.events[from..];
        CancelQueues(s, oms.store, id, first, delivered, undelivered, queue, queued);
        ghost var more, asks := CancelKeeps(s, oms.store, id, waiting, Now(), TermsNow());
        TakeDown(queue, queued, more, asks, TermsNow());
      }
    }

    /** The start of a day: the archive is emptied, and with it everything that was hidden. */
    method NewDay()
      requires Valid()
      modifies portfolio.pnl`charges, portfolio.tracker`closed, portfolio.tracker`day
      ensures Valid() && risk.tracker.Disjoint()
    {
      portfolio.pnl.ResetDaily();
    }
  }

  lemma SendingQueues(s: O.Store, r: Request, world: O.Placing, t: O.Store, first: seq<O.Event>, delivered: seq<O.Event>,
                      undelivered: seq<O.Event>, queue: seq<O.Event>, queued: seq<Fill>)
    requires Queued(s.events, first, delivered, undelivered) && t == O.After(s, r, world) && |s.events| <= |t.events|
    requires queue == undelivered + t.events[|s.events|..] && Tells(undelivered, queued)
    ensures Queued(t.events, first, delivered, queue) && Tells(queue, queued)
  {
    SendingPublishesNoFill(s, r, world, t);
    MoreQueued(s.events, first, delivered, undelivered, t.events[|s.events|..], t.events, queue);
    TellsMore(undelivered, queued, t.events[|s.events|..], [], queue, queued);
  }

  lemma CancelQueues(s: O.Store, t: O.Store, id: int, first: seq<O.Event>, delivered: seq<O.Event>,
                     undelivered: seq<O.Event>, queue: seq<O.Event>, queued: seq<Fill>)
    requires Queued(s.events, first, delivered, undelivered) && t.events == s.events + [O.CancelledEvent(id, O.MANAGER)]
    requires queue == undelivered + t.events[|s.events|..] && Tells(undelivered, queued)
    ensures Queued(t.events, first, delivered, queue) && Tells(queue, queued)
  {
    var news := [O.CancelledEvent(id, O.MANAGER)];
    NoFills(news);
    MoreQueued(s.events, first, delivered, undelivered, news, t.events, queue);
    TellsMore(undelivered, queued, news, [], queue, queued);
  }

  lemma PollQueues(s: O.Store, t: O.Store, reports: O.Reports, first: seq<O.Event>, delivered: seq<O.Event>,
                   undelivered: seq<O.Event>, queue: seq<O.Event>, queued: seq<Fill>, told: seq<Fill>)
    requires O.StoreOk(s) && Queued(s.events, first, delivered, undelivered) && t.events == s.events + O.PublishedBy(s, reports)
    requires queue == undelivered + t.events[|s.events|..] && Tells(undelivered, queued)
    requires told == queued + FillsOf(O.PublishedBy(s, reports))
    ensures Queued(t.events, first, delivered, queue) && Tells(queue, told) && queue == undelivered + O.PublishedBy(s, reports)
  {
    var news := O.PublishedBy(s, reports);
    assert t.events[|s.events|..] == news;
    MoreQueued(s.events, first, delivered, undelivered, news, t.events, queue);
    TellsMore(undelivered, queued, news, FillsOf(news), queue, told);
  }

  /** What waits after a granted cancel. */
  lemma CancelKeeps(s: O.Store, u: O.Store, id: int, waiting: seq<int>, d: W.Desk, t: Terms)
    returns (waiting': seq<int>, pending': seq<Fill>)
    requires O.OrdersOk(s) && O.OrdersOk(u) && id in s.orders && s.orders[id].broker.Some?
    requires u == O.Finished(s, id, s.orders[id].(status := O.CANCELLED), O.CancelledEvent(id, O.MANAGER))
    requires Waits(s, waiting, d.pending) && Kept(d, t)
    ensures Waits(u, waiting', pending') && Kept(W.Desk(d.positions, pending', d.queued), t)
    ensures forall i :: 0 <= i < |waiting| && s.orders[id].broker == Some(waiting[i]) ==>
      waiting' == Dropped(waiting, i) && pending' == W.Removed(d.pending, i)
    ensures s.orders[id].broker.value !in waiting ==> waiting' == waiting && pending' == d.pending
  {
    var b := s.orders[id].broker.value;
    if b in s.pending.entries {
      var i := PlaceOf(s, waiting, d.pending, b);
      CancelledWaits(s, u, id, waiting, d.pending, i);
      waiting', pending' := Dropped(waiting, i), W.Removed(d.pending, i);
      EndingKeeps(d, W.Drop(i), W.Desk(d.positions, pending', d.queued), t);
    } else {
      LateCancelWaits(s, u, id, waiting, d.pending);
      waiting', pending' := waiting, d.pending;
      forall i | 0 <= i < |waiting| ensures waiting[i] != b { assert WaitsAs(s, waiting, d.pending, i); }
    }
  }

  /** The oldest undelivered event: what is left of the queue without it, and that the book can take it in. */
  lemma HeadTells(s: O.Store, first: seq<O.Event>, delivered: seq<O.Event>, taken: seq<Fill>,
                  undelivered: seq<O.Event>, queued: seq<Fill>)
    requires O.StoreOk(s) && Queued(s.events, first, delivered, undelivered) && undelivered != []
    requires Tells(delivered, taken) && Tells(undelivered, queued)
    ensures var e := undelivered[0];
            && Queued(s.events, first, delivered + [e], undelivered[1..])
            && FillsOf([e]) == (if e.FilledEvent? then [FillOf(e)] else [])
            && (!e.FilledEvent? ==> Tells(undelivered[1..], queued) && Tells(delivered + [e], taken))
            && (e.FilledEvent? ==>
                  && e.price > 0.0 && e.quantity > 0 && queued != [] && queued[0] == FillOf(e)
                  && Tells(undelivered[1..], queued[1..]) && Tells(delivered + [e], taken + [FillOf(e)]))
  {
    var e, rest, i := undelivered[0], undelivered[1..], |first| + |delivered|;
    assert s.events[i] == e;
    if e.FilledEvent? { assert O.FillOk(s, s.events[i]); }
    assert undelivered == [e] + rest && first + delivered + undelivered == first + (delivered + [e]) + rest;
    FillsOfOne(e);
    FillsOfConcat([e], rest);
    TellsAll(undelivered, queued);
    TellsAll(rest, if e.FilledEvent? then queued[1..] else queued);
    TellsMore(delivered, taken, [e], FillsOf([e]), delivered + [e], taken + FillsOf([e]));
    assert taken + [] == taken;
  }

  /** A position that is open goes by the symbol of its instrument. */
  lemma NamedAlike(tracker: PositionTracker, before: Register, o: Fill, pos: Position)
    requires tracker.Valid() && tracker.positions == Placed(before, X.KeyOf(o), pos) && o.symbol == tracker.symbolOf(o.token)
    ensures pos.quantity != 0 ==> pos.symbol == o.symbol
  {
    if pos.quantity != 0 { assert X.KeyOf(o) in tracker.positions.entries; }
  }

  lemma {:induction false} FilledQuantityConcat(a: seq<O.Event>, b: seq<O.Event>, key: Key)
    ensures FilledQuantity(a + b, key) == FilledQuantity(a, key) + FilledQuantity(b, key)
  {
    if b == [] {
      assert a + b == a;
    } else {
      assert (a + b)[..|a + b| - 1] == a + b[..|b| - 1];
      FilledQuantityConcat(a, b[..|b| - 1], key);
    }
  }

  lemma PlaceOf(s: O.Store, waiting: seq<int>, pending: seq<Fill>, b: int) returns (i: nat)
    requires Waits(s, waiting, pending) && b in s.pending.entries
    ensures i < |waiting| == |pending| && waiting[i] == b
  {
    assert Tracked(s, b);
    i :| 0 <= i < |waiting| && waiting[i] == b;
  }

  /** Cancelling a tracked order takes it off the list. */
  lemma CancelledWaits(s: O.Store, t: O.Store, id: int, waiting: seq<int>, pending: seq<Fill>, i: nat)
    requires O.OrdersOk(s) && O.OrdersOk(t) && id in s.orders && s.orders[id].broker.Some?
    requires t == O.Finished(s, id, s.orders[id].(status := O.CANCELLED), O.CancelledEvent(id, O.MANAGER))
    requires Waits(s, waiting, pending) && i < |waiting| && waiting[i] == s.orders[id].broker.value
    ensures Waits(t, Dropped(waiting, i), W.Removed(pending, i))
  {
    var rest, asks := Dropped(waiting, i), W.Removed(pending, i);
    DroppedKeeps(waiting, i);
    forall k | 0 <= k < |rest| ensures WaitsAs(t, rest, asks, k) {
      assert WaitsAs(s, waiting, pending, if k < i then k else k + 1);
      assert rest[k] in rest;
    }
    forall b | Tracked(t, b) ensures b in rest { assert Tracked(s, b); }
  }

  /** Cancelling an order that is over already changes nothing about what waits. */
  lemma LateCancelWaits(s: O.Store, t: O.Store, id: int, waiting: seq<int>, pending: seq<Fill>)
    requires id in s.orders && s.orders[id].broker.Some? && s.orders[id].broker.value !in s.pending.entries
    requires t == O.Finished(s, id, s.orders[id].(status := O.CANCELLED), O.CancelledEvent(id, O.MANAGER))
    requires Waits(s, waiting, pending)
    ensures Waits(t, waiting, pending)
  {
    forall i | 0 <= i < |waiting| ensures WaitsAs(t, waiting, pending, i) { assert WaitsAs(s, waiting, pending, i); }
    forall b | Tracked(t, b) ensures b in waiting { assert Tracked(s, b); }
  }
}
