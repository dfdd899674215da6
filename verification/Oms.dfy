/** The order lifecycle: placing, polling, cancelling, and groups of legs that stand or fall together. */
module Oms {
  import opened Collections
  import opened Ledger
  import opened Validation

  datatype Status = SUBMITTED | OPEN | FILLED | REJECTED | CANCELLED | FAILED | VALIDATING

  /** An order as the caller, the manager and the tracker all see it. Without a broker id it never got there. */
  datatype Order = Order(request: Request, status: Status, broker: Option<int>, fillPrice: real, fillQuantity: int)

  /** Who publishes: the manager on its own decisions, the tracker on what the broker reports. */
  datatype Source = MANAGER | TRACKER

  datatype Event = PlacedEvent(id: int) | RejectedEvent(id: int, source: Source) | CancelledEvent(id: int, source: Source)
                 | FilledEvent(id: int, broker: int, request: Request, price: real, quantity: int)
                 | BreachEvent(symbol: string)

  datatype Error = DuplicateOrder | KillSwitchOn | BreakerOn | BrokerFault

  /** What validation, margin and risk checks say together: pass, reject in a way the manager handles, or raise. */
  datatype Checks = Pass | Reject | Raise(error: Error)

  datatype Answer = Accepts | RateLimited | Refuses | Faults

  /** How the world meets one order. */
  datatype Placing = Placing(checks: Checks, answer: Answer)

  datatype Outcome = Returned(id: int) | Escaped(error: Error)

  /** The broker takes the order. */
  predicate Goes(w: Placing) { w.checks.Pass? && w.answer.Accepts? }

  /** What escapes from placing the order, if anything does. */
  function RaisedBy(w: Placing): Option<Error> {
    if w.checks.Raise? then Some(w.checks.error) else if w.checks.Pass? && w.answer.Faults? then Some(BrokerFault) else None
  }

  /** The order is rejected or fails in a way the manager handles. */
  predicate Fails(w: Placing) { !Goes(w) && RaisedBy(w).None? }

  /** What the broker reports of one order. */
  datatype BrokerData = BrokerData(status: string, price: Option<real>, quantity: Option<int>)

  type Pending = OrderedDict<int, int>

  /** The orders by their own id, those the broker took in the order it took them, those being tracked by
      broker id, and everything published. Ids are handed out in sequence, by the manager and by the broker. */
  datatype Store = Store(orders: map<int, Order>, placed: seq<int>, pending: Pending, events: seq<Event>,
                         made: nat, issued: nat)

  // ---- What holds between calls ----

  /** The broker knows an order exactly if it took it, and it is tracked, under its own broker id, exactly while
      it is submitted. */
  ghost predicate OrderOk(s: Store, id: int)
    requires id in s.orders
  {
    var o := s.orders[id];
    && 0 <= id < s.made
    && (o.broker.None? ==> o.status in {REJECTED, FAILED})
    && (o.broker.Some? ==>
          && 0 <= o.broker.value < s.issued && o.status in {SUBMITTED, FILLED, REJECTED, CANCELLED}
          && (o.status == SUBMITTED <==> o.broker.value in s.pending.entries)
          && (o.broker.value in s.pending.entries ==> s.pending.entries[o.broker.value] == id))
    && (id in s.placed <==> o.broker.Some?)
  }

  ghost predicate TrackOk(s: Store, b: int)
    requires b in s.pending.entries
  {
    s.pending.entries[b] in s.orders && s.orders[s.pending.entries[b]].broker == Some(b)
  }

  ghost predicate OrdersOk(s: Store) {
    && s.pending.Valid() && Distinct(s.placed)
    && (forall id {:trigger OrderOk(s, id)} :: id in s.orders ==> OrderOk(s, id))
    && (forall b {:trigger TrackOk(s, b)} :: b in s.pending.entries ==> TrackOk(s, b))
    && (forall i :: 0 <= i < |s.placed| ==> s.placed[i] in s.orders)
  }

  /** A fill event tells of an order that was filled at a real price for a real quantity, and is no longer tracked. */
  ghost predicate FillOk(s: Store, e: Event)
    requires e.FilledEvent?
  {
    && e.id in s.orders && e.price > 0.0 && e.quantity > 0
    && var o := s.orders[e.id];
       o.broker == Some(e.broker) && o.request == e.request && o.status in {FILLED, CANCELLED}
       && o.fillPrice == e.price && o.fillQuantity == e.quantity
  }

  /** Every fill event is in order, no broker id has two, and every order that reads FILLED has one. */
  ghost predicate FillsOk(s: Store) {
    && (forall i :: 0 <= i < |s.events| && s.events[i].FilledEvent? ==> FillOk(s, s.events[i]))
    && (forall i, j :: 0 <= i < j < |s.events| && s.events[i].FilledEvent? && s.events[j].FilledEvent? ==>
          s.events[i].broker != s.events[j].broker)
    && (forall id :: id in s.orders && s.orders[id].status == FILLED ==> Reported(s.events, id))
  }

  ghost predicate Reported(events: seq<Event>, id: int) {
    exists i :: 0 <= i < |events| && events[i].FilledEvent? && events[i].id == id
  }

  ghost predicate StoreOk(s: Store) { OrdersOk(s) && FillsOk(s) }

  // ---- What the manager cancels ----

  /** How many cancels the manager has published; those the tracker reports are the broker's doing. */
  ghost function Cancels(events: seq<Event>): nat {
    if events == [] then 0
    else
      var e := events[|events| - 1];
      Cancels(events[..|events| - 1]) + if e.CancelledEvent? && e.source == MANAGER then 1 else 0
  }

  lemma {:induction false} CancelsConcat(a: seq<Event>, b: seq<Event>)
    ensures Cancels(a + b) == Cancels(a) + Cancels(b)
  {
    if b == [] {
      assert a + b == a;
    } else {
      assert (a + b)[..|a + b| - 1] == a + b[..|b| - 1];
      CancelsConcat(a, b[..|b| - 1]);
    }
  }

  lemma CancelsOfFew(events: seq<Event>)
    requires |events| <= 2 && forall i :: 0 <= i < |events| ==> !events[i].CancelledEvent?
    ensures Cancels(events) == 0
  {
    if |events| == 2 { assert events[..1][..0] == []; }
  }

  /** An order's own events are no cancels. */
  lemma PlacingCancelsNothing(before: seq<Event>, more: seq<Event>)
    requires |more| <= 2 && forall i :: 0 <= i < |more| ==> !more[i].CancelledEvent?
    ensures Cancels(before + more) == Cancels(before)
  {
    CancelsConcat(before, more);
    CancelsOfFew(more);
  }

  lemma OneMoreCancel(before: seq<Event>, e: Event)
    ensures Cancels(before + [e]) == Cancels(before) + if e.CancelledEvent? && e.source == MANAGER then 1 else 0
  {
    assert (before + [e])[..|before|] == before;
  }

  // ---- How one store may follow another ----

  /** Orders that were not submitted stay as they were; submitted ones may have ended; nothing is forgotten. */
  ghost predicate Later(s: Store, t: Store) {
    && s.made <= t.made && s.events <= t.events
    && forall id :: id in s.orders ==> id in t.orders && SameButEnded(s.orders[id], t.orders[id])
  }

  ghost predicate SameButEnded(o: Order, p: Order) {
    && p.request == o.request && p.broker == o.broker
    && (o.status != SUBMITTED ==> p == o)
  }

  lemma OrderLater(s: Store, t: Store, id: int)
    requires Later(s, t) && id in s.orders
    ensures id in t.orders && SameButEnded(s.orders[id], t.orders[id])
  {
  }

  lemma LaterTwice(s: Store, t: Store, u: Store)
    requires Later(s, t) && Later(t, u)
    ensures Later(s, u)
  {
    forall id | id in s.orders ensures id in u.orders && SameButEnded(s.orders[id], u.orders[id]) {
      assert SameButEnded(s.orders[id], t.orders[id]) && SameButEnded(t.orders[id], u.orders[id]);
    }
  }

  /** The orders the broker took between the two. */
  ghost predicate AcceptedSince(s: Store, t: Store, id: int) {
    id in t.orders && id !in s.orders && t.orders[id].broker.Some?
  }

  // ---- Single steps on the store ----

  /** An order that is over before the broker has it. */
  function Ended(s: Store, r: Request, status: Status, events: seq<Event>): Store {
    s.(orders := s.orders[s.made := Order(r, status, None, 0.0, 0)], events := s.events + events, made := s.made + 1)
  }

  /** An order the broker took. */
  function Taken(s: Store, r: Request): Store {
    s.(orders := s.orders[s.made := Order(r, SUBMITTED, Some(s.issued), 0.0, 0)],
       placed := s.placed + [s.made], pending := s.pending.Put(s.issued, s.made),
       events := s.events + [PlacedEvent(s.made)], made := s.made + 1, issued := s.issued + 1)
  }

  /** A tracked or placed order reaching a final status. */
  function Finished(s: Store, id: int, o: Order, e: Event): Store
    requires o.broker.Some?
  {
    s.(orders := s.orders[id := o], pending := s.pending.Remove(o.broker.value), events := s.events + [e])
  }

  lemma EventsKeepFills(s: Store, more: seq<Event>)
    requires FillsOk(s) && forall i :: 0 <= i < |more| ==> !more[i].FilledEvent?
    ensures FillsOk(s.(events := s.events + more))
  {
    var t := s.(events := s.events + more);
    forall id | id in t.orders && t.orders[id].status == FILLED ensures Reported(t.events, id) {
      var i :| 0 <= i < |s.events| && s.events[i].FilledEvent? && s.events[i].id == id;
      assert t.events[i] == s.events[i];
    }
    forall i | 0 <= i < |t.events| && t.events[i].FilledEvent? ensures FillOk(t, t.events[i]) {
      assert i < |s.events| && FillOk(s, s.events[i]);
    }
  }

  /** Adding a new order that is not filled leaves the fills as they were. */
  lemma NewOrderKeepsFills(s: Store, t: Store, o: Order)
    requires StoreOk(s) && FillsOk(s.(events := t.events)) && t.orders == s.orders[s.made := o] && o.status != FILLED
    ensures FillsOk(t)
  {
    NewId(s);
    forall i | 0 <= i < |t.events| && t.events[i].FilledEvent? ensures FillOk(t, t.events[i]) {
      assert FillOk(s.(events := t.events), t.events[i]);
    }
  }

  lemma EndedOk(s: Store, r: Request, status: Status, events: seq<Event>)
    requires StoreOk(s) && status in {REJECTED, FAILED} && forall i :: 0 <= i < |events| ==> !events[i].FilledEvent?
    ensures StoreOk(Ended(s, r, status, events)) && s.made !in s.orders
  {
    var t := Ended(s, r, status, events);
    EventsKeepFills(s, events);
    NewOrderKeepsFills(s, t, t.orders[s.made]);
    NewId(s);
    forall id | id in t.orders ensures OrderOk(t, id) {
      if id != s.made { assert OrderOk(s, id); }
    }
    forall b | b in t.pending.entries ensures TrackOk(t, b) {
      assert TrackOk(s, b);
    }
  }

  lemma NewId(s: Store)
    requires OrdersOk(s)
    ensures s.made !in s.orders && s.made !in s.placed
    ensures s.issued !in s.pending.entries
    ensures forall id :: id in s.orders && s.orders[id].broker.Some? ==> s.orders[id].broker.value != s.issued
  {
    forall id | id in s.orders
      ensures id < s.made && (s.orders[id].broker.Some? ==> s.orders[id].broker.value < s.issued)
    {
      assert OrderOk(s, id);
    }
    forall b | b in s.pending.entries ensures b < s.issued {
      assert TrackOk(s, b);
    }
  }

  lemma TakenOk(s: Store, r: Request)
    requires StoreOk(s)
    ensures StoreOk(Taken(s, r)) && s.made !in s.orders
  {
    var t := Taken(s, r);
    EventsKeepFills(s, [PlacedEvent(s.made)]);
    NewOrderKeepsFills(s, t, t.orders[s.made]);
    NewId(s);
    s.pending.PutKeepsOrder(s.issued, s.made);
    forall id | id in t.orders ensures OrderOk(t, id) {
      if id != s.made { assert OrderOk(s, id); }
    }
    forall b | b in t.pending.entries ensures TrackOk(t, b) {
      if b != s.issued { assert TrackOk(s, b); }
    }
  }

  /** Finishing an order keeps everything else as it is. */
  lemma FinishedOrdersOk(s: Store, id: int, o: Order, e: Event)
    requires OrdersOk(s) && id in s.orders && s.orders[id].broker.Some?
    requires o.broker == s.orders[id].broker && o.status in {FILLED, REJECTED, CANCELLED}
    ensures OrdersOk(Finished(s, id, o, e))
  {
    var t := Finished(s, id, o, e);
    var b := o.broker.value;
    assert OrderOk(s, id);
    s.pending.RemoveKeepsOrder(b);
    forall k | k in t.orders ensures OrderOk(t, k) {
      assert OrderOk(s, k);
    }
    forall c | c in t.pending.entries ensures TrackOk(t, c) {
      assert TrackOk(s, c);
    }
  }

  /** A tracked order has not been reported filled, so it can be now. */
  lemma NotYetReported(s: Store, id: int)
    requires StoreOk(s) && id in s.orders && s.orders[id].broker.Some? && s.orders[id].status == SUBMITTED
    ensures forall i :: 0 <= i < |s.events| && s.events[i].FilledEvent? ==>
      s.events[i].id != id && s.events[i].broker != s.orders[id].broker.value
  {
    forall i | 0 <= i < |s.events| && s.events[i].FilledEvent?
      ensures s.events[i].id != id && s.events[i].broker != s.orders[id].broker.value
    {
      var e := s.events[i];
      assert FillOk(s, e);
      assert OrderOk(s, id) && OrderOk(s, e.id);
    }
  }

  lemma FilledFillsOk(s: Store, id: int, o: Order, e: Event)
    requires StoreOk(s) && id in s.orders && s.orders[id].broker.Some? && s.orders[id].status == SUBMITTED
    requires o == s.orders[id].(status := FILLED, fillPrice := o.fillPrice, fillQuantity := o.fillQuantity)
    requires e == FilledEvent(id, o.broker.value, o.request, o.fillPrice, o.fillQuantity) && e.price > 0.0 && e.quantity > 0
    ensures FillsOk(Finished(s, id, o, e))
  {
    var t := Finished(s, id, o, e);
    NotYetReported(s, id);
    forall i | 0 <= i < |t.events| && t.events[i].FilledEvent? ensures FillOk(t, t.events[i]) {
      if i < |s.events| { assert FillOk(s, s.events[i]); }
    }
    assert t.events[|s.events|] == e;
    forall k | k in t.orders && t.orders[k].status == FILLED ensures Reported(t.events, k) {
      if k != id {
        var i :| 0 <= i < |s.events| && s.events[i].FilledEvent? && s.events[i].id == k;
        assert t.events[i] == s.events[i];
      }
    }
  }

  lemma OverFillsOk(s: Store, id: int, o: Order, e: Event)
    requires StoreOk(s) && id in s.orders && s.orders[id].broker.Some? && !e.FilledEvent?
    requires o == s.orders[id].(status := o.status)
    requires o.status == CANCELLED || (o.status == REJECTED && s.orders[id].status == SUBMITTED)
    ensures FillsOk(Finished(s, id, o, e))
  {
    var t := Finished(s, id, o, e);
    EventsKeepFills(s, [e]);
    var mid := s.(events := s.events + [e]);
    if s.orders[id].status == SUBMITTED { NotYetReported(s, id); }
    forall i | 0 <= i < |t.events| && t.events[i].FilledEvent? ensures FillOk(t, t.events[i]) {
      assert FillOk(mid, mid.events[i]);
    }
  }

  /** The broker failed in a way nobody handles: the order is forgotten though it was announced. */
  function Forgotten(s: Store): Store { s.(events := s.events + [PlacedEvent(s.made)], made := s.made + 1) }

  lemma ForgottenOk(s: Store)
    requires StoreOk(s)
    ensures StoreOk(Forgotten(s))
  {
    var t := Forgotten(s);
    EventsKeepFills(s, [PlacedEvent(s.made)]);
    var mid := s.(events := t.events);
    forall i | 0 <= i < |t.events| && t.events[i].FilledEvent? ensures FillOk(t, t.events[i]) {
      assert FillOk(mid, mid.events[i]);
    }
    forall id | id in t.orders ensures OrderOk(t, id) {
      assert OrderOk(s, id);
    }
    forall b | b in t.pending.entries ensures TrackOk(t, b) {
      assert TrackOk(s, b);
    }
  }

  /** One new order, which the broker has exactly if everything went well. */
  ghost predicate PlacedAs(s: Store, t: Store, id: int, r: Request, world: Placing) {
    && id !in s.orders && t.orders.Keys == s.orders.Keys + {id} && t.orders[id].request == r
    && (t.orders[id].broker.Some? <==> Goes(world))
    && (t.orders[id].broker.None? <==> t.orders[id].status in {REJECTED, FAILED})
  }

  /** What becomes of an order, how the world met it, and what is published of it: taken, it is submitted and tracked;
      rejected by the checks, only that is published; refused by the broker, it was announced before; and nothing is left
      of one that the checks raise, and an announcement of one at which the broker breaks. */
  ghost predicate MetWorld(s: Store, t: Store, r: Request, world: Placing) {
    var id, b := s.made, s.issued;
    match world.checks
    case Raise(_) => t == s
    case Reject => t.events == s.events + [RejectedEvent(id, MANAGER)] && NotTaken(s, t, id, r, REJECTED)
    case Pass =>
      match world.answer
      case Accepts =>
        && t.events == s.events + [PlacedEvent(id)] && t.placed == s.placed + [id]
        && t.orders == s.orders[id := Order(r, SUBMITTED, Some(b), 0.0, 0)]
        && t.pending.entries == s.pending.entries[b := id]
      case Faults => t.events == s.events + [PlacedEvent(id)] && t.orders == s.orders && t.pending == s.pending && t.placed == s.placed
      case RateLimited => t.events == s.events + [PlacedEvent(id), RejectedEvent(id, MANAGER)] && NotTaken(s, t, id, r, FAILED)
      case Refuses => t.events == s.events + [PlacedEvent(id), RejectedEvent(id, MANAGER)] && NotTaken(s, t, id, r, REJECTED)
  }

  ghost predicate NotTaken(s: Store, t: Store, id: int, r: Request, status: Status) {
    t.orders == s.orders[id := Order(r, status, None, 0.0, 0)] && t.pending == s.pending && t.placed == s.placed
  }

  /** The store once one order has met the world: taken, ended before the broker had it, forgotten, or never made. */
  function After(s: Store, r: Request, world: Placing): Store {
    if Goes(world) then Taken(s, r)
    else if RaisedBy(world).Some? then if world.checks.Raise? then s else Forgotten(s)
    else if world.checks.Reject? then Ended(s, r, REJECTED, [RejectedEvent(s.made, MANAGER)])
    else Ended(s, r, if world.answer.RateLimited? then FAILED else REJECTED, [PlacedEvent(s.made), RejectedEvent(s.made, MANAGER)])
  }

  lemma AfterIsOk(s: Store, r: Request, world: Placing)
    requires StoreOk(s)
    ensures StoreOk(After(s, r, world)) && Cancels(After(s, r, world).events) == Cancels(s.events)
  {
    if Goes(world) {
      TakenOk(s, r);
      PlacingCancelsNothing(s.events, [PlacedEvent(s.made)]);
    } else if Fails(world) {
      var status := if world.checks.Pass? && world.answer.RateLimited? then FAILED else REJECTED;
      var reject := RejectedEvent(s.made, MANAGER);
      var events := if world.checks.Reject? then [reject] else [PlacedEvent(s.made), reject];
      EndedOk(s, r, status, events);
      PlacingCancelsNothing(s.events, events);
    } else if !world.checks.Raise? {
      ForgottenOk(s);
      PlacingCancelsNothing(s.events, [PlacedEvent(s.made)]);
    }
  }

  lemma AfterFollows(s: Store, r: Request, world: Placing)
    requires StoreOk(s)
    ensures Later(s, After(s, r, world)) && s.made !in s.orders
    ensures RaisedBy(world).None? ==> PlacedAs(s, After(s, r, world), s.made, r, world)
  {
    NewId(s);
  }

  // ---- Polling ----

  function StatusOf(kite: string): Status {
    if kite == "COMPLETE" || kite == "TRADED" then FILLED
    else if kite == "REJECTED" then REJECTED
    else if kite == "CANCELLED" then CANCELLED
    else if kite == "VALIDATION PENDING" then VALIDATING
    else if kite in {"OPEN PENDING", "PUT ORDER REQ RECEIVED", "AMO REQ RECEIVED"} then SUBMITTED
    else OPEN
  }

  /** A report of a fill counts only with a price and a quantity. */
  predicate GoodFill(d: BrokerData) {
    d.price.Some? && d.price.value > 0.0 && d.quantity.Some? && d.quantity.value > 0
  }

  /** What a report does to a tracked order: nothing, or its end and the event that tells of it. */
  function Report(id: int, o: Order, d: BrokerData): Option<(Order, Event)>
    requires o.broker.Some?
  {
    match StatusOf(d.status)
    case FILLED =>
      if !GoodFill(d) then None
      else Some((o.(status := FILLED, fillPrice := d.price.value, fillQuantity := d.quantity.value),
                 FilledEvent(id, o.broker.value, o.request, d.price.value, d.quantity.value)))
    case REJECTED => Some((o.(status := REJECTED), RejectedEvent(id, TRACKER)))
    case CANCELLED => Some((o.(status := CANCELLED), CancelledEvent(id, TRACKER)))
    case _ => None
  }

  lemma ReportOk(s: Store, b: int, d: BrokerData)
    requires StoreOk(s) && b in s.pending.entries
    ensures var id := s.pending.entries[b];
            && id in s.orders && s.orders[id].broker == Some(b) && s.orders[id].status == SUBMITTED
            && var r := Report(id, s.orders[id], d);
               r.Some? ==> r.value.0.broker == Some(b) && StoreOk(Finished(s, id, r.value.0, r.value.1))
  {
    var id := s.pending.entries[b];
    assert TrackOk(s, b) && OrderOk(s, id);
    var r := Report(id, s.orders[id], d);
    if r.Some? {
      FinishedOrdersOk(s, id, r.value.0, r.value.1);
      if r.value.1.FilledEvent? {
        FilledFillsOk(s, id, r.value.0, r.value.1);
      } else {
        OverFillsOk(s, id, r.value.0, r.value.1);
      }
    }
  }

  /** How the store may differ after polls and cancels: submitted orders may have ended, nothing else has changed. */
  ghost predicate PolledFrom(s: Store, t: Store) {
    Later(s, t) && t.orders.Keys == s.orders.Keys && t.placed == s.placed && t.made == s.made && t.issued == s.issued
  }

  lemma PolledTwice(s: Store, t: Store, u: Store)
    requires PolledFrom(s, t) && PolledFrom(t, u)
    ensures PolledFrom(s, u)
  {
    LaterTwice(s, t, u);
  }

  /** What taking the finished orders off the tracking list leaves. */
  function Untracked(pending: Pending, completed: seq<int>): Pending {
    if completed == [] then pending
    else Untracked(pending, completed[..|completed| - 1]).Remove(completed[|completed| - 1])
  }

  lemma {:induction false} UntrackedLaws(pending: Pending, completed: seq<int>)
    requires pending.Valid()
    ensures Untracked(pending, completed).Valid()
    ensures forall b :: b in Untracked(pending, completed).entries <==> b in pending.entries && b !in completed
    ensures forall b :: b in Untracked(pending, completed).entries ==> Untracked(pending, completed).entries[b] == pending.entries[b]
  {
    if completed != [] {
      var rest, last := completed[..|completed| - 1], completed[|completed| - 1];
      UntrackedLaws(pending, rest);
      Untracked(pending, rest).RemoveKeepsOrder(last);
      assert completed == rest + [last];
    }
  }

  type Reports = map<int, BrokerData>

  /** What the reports say of one tracked order. */
  function Said(reports: Reports, b: int, id: int, o: Order): Option<(Order, Event)>
    requires o.broker.Some?
  {
    if b in reports then Report(id, o, reports[b]) else None
  }

  /** A tracked order has been brought to its end if the reports call for it, and is otherwise as it was. */
  ghost predicate Handled(s: Store, t: Store, reports: Reports, b: int, ended: bool)
    requires b in s.pending.entries
  {
    var id := s.pending.entries[b];
    && id in s.orders && id in t.orders && s.orders[id].broker == Some(b)
    && var r := Said(reports, b, id, s.orders[id]);
       && t.orders[id] == (if ended && r.Some? then r.value.0 else s.orders[id])
  }

  /** What a poll publishes for the first n tracked orders, in the order in which they are tracked. */
  ghost function Published(s: Store, reports: Reports, n: nat): seq<Event>
    requires s.pending.Valid() && n <= |s.pending.order|
    requires forall b :: b in s.pending.entries ==> TrackOk(s, b)
  {
    if n == 0 then []
    else
      var b := s.pending.order[n - 1];
      assert TrackOk(s, b);
      var id := s.pending.entries[b];
      var r := Said(reports, b, id, s.orders[id]);
      Published(s, reports, n - 1) + if r.Some? then [r.value.1] else []
  }

  lemma {:induction false} PublishedCancelsNothing(s: Store, reports: Reports, n: nat)
    requires s.pending.Valid() && n <= |s.pending.order|
    requires forall b :: b in s.pending.entries ==> TrackOk(s, b)
    ensures Cancels(Published(s, reports, n)) == 0
  {
    if n > 0 {
      PublishedCancelsNothing(s, reports, n - 1);
      NextPublished(s, reports, n - 1, Published(s, reports, n));
    }
  }

  lemma NextPublished(s: Store, reports: Reports, n: nat, events: seq<Event>)
    requires s.pending.Valid() && n < |s.pending.order| && forall b :: b in s.pending.entries ==> TrackOk(s, b)
    requires events == Published(s, reports, n + 1)
    ensures Cancels(events) == Cancels(Published(s, reports, n))
  {
    var past, b := Published(s, reports, n), s.pending.order[n];
    assert TrackOk(s, b);
    var r := Said(reports, b, s.pending.entries[b], s.orders[s.pending.entries[b]]);
    if r.Some? {
      OneMoreCancel(past, r.value.1);
      assert events == past + [r.value.1];
    } else {
      assert events == past + [] == past;
    }
  }

  lemma PollsCancelNothing(s: Store, reports: Reports)
    requires StoreOk(s)
    ensures Cancels(s.events + PublishedBy(s, reports)) == Cancels(s.events)
  {
    CancelsConcat(s.events, PublishedBy(s, reports));
    PublishedCancelsNothing(s, reports, |s.pending.order|);
  }

  ghost function PublishedBy(s: Store, reports: Reports): seq<Event>
    requires StoreOk(s)
  {
    Published(s, reports, |s.pending.order|)
  }

  /** The tracking loop before order i: the store as it will be once the finished orders are off the list. */
  ghost predicate Polling(s: Store, t: Store, reports: Reports, completed: seq<int>, i: nat) {
    && s.pending.Valid() && t.pending == s.pending && i <= |s.pending.order|
    && StoreOk(t.(pending := Untracked(s.pending, completed)))
    && PolledFrom(s, t)
    && HandledUpTo(s, t, reports, i)
    && ListsEnded(s, reports, completed, i)
  }

  ghost predicate HandledUpTo(s: Store, t: Store, reports: Reports, i: nat)
    requires s.pending.Valid()
  {
    forall j :: 0 <= j < |s.pending.order| ==> Handled(s, t, reports, s.pending.order[j], j < i)
  }

  /** The list of finished orders holds exactly those before i whose report ends them. */
  ghost predicate ListsEnded(s: Store, reports: Reports, completed: seq<int>, i: nat)
    requires s.pending.Valid() && i <= |s.pending.order|
  {
    && (forall b :: b in completed ==> b in s.pending.order[..i])
    && (forall j :: 0 <= j < i ==> (s.pending.order[j] in completed <==> SaidEnd(s, reports, s.pending.order[j])))
  }

  lemma ListOne(s: Store, reports: Reports, completed: seq<int>, i: nat)
    requires s.pending.Valid() && i < |s.pending.order| && ListsEnded(s, reports, completed, i)
    ensures var b := s.pending.order[i];
            ListsEnded(s, reports, if SaidEnd(s, reports, b) then completed + [b] else completed, i + 1)
            && b !in completed
  {
    var b := s.pending.order[i];
    assert b !in s.pending.order[..i];
    assert s.pending.order[..i + 1] == s.pending.order[..i] + [b];
  }

  ghost predicate SaidEnd(s: Store, reports: Reports, b: int)
    requires b in s.pending.entries
  {
    var id := s.pending.entries[b];
    id in s.orders && s.orders[id].broker.Some? && Said(reports, b, id, s.orders[id]).Some?
  }

  lemma StartPolling(s: Store, reports: Reports)
    requires StoreOk(s)
    ensures Polling(s, s, reports, [], 0)
  {
    forall j | 0 <= j < |s.pending.order| ensures Handled(s, s, reports, s.pending.order[j], false) {
      assert TrackOk(s, s.pending.order[j]);
    }
  }

  /** One tracked order's turn. */
  lemma PollOne(s: Store, t: Store, reports: Reports, completed: seq<int>, i: nat)
    requires Polling(s, t, reports, completed, i) && i < |s.pending.order|
    ensures var b := s.pending.order[i];
            var id := s.pending.entries[b];
            && b in t.pending.entries && t.pending.entries[b] == id && id in t.orders && t.orders[id].broker == Some(b)
            && var r := Said(reports, b, id, t.orders[id]);
               if r.Some?
               then Polling(s, Noted(t, id, r.value.0, r.value.1), reports, completed + [b], i + 1)
               else Polling(s, t, reports, completed, i + 1)
  {
    var b := s.pending.order[i];
    var id := s.pending.entries[b];
    assert Handled(s, t, reports, b, false);
    ListOne(s, reports, completed, i);
    var r := Said(reports, b, id, t.orders[id]);
    if r.Some? {
      EndOne(s, t, reports, completed, i, r.value.0, r.value.1);
    } else {
      NoneEnds(s, t, reports, i);
    }
  }

  lemma NoneEnds(s: Store, t: Store, reports: Reports, i: nat)
    requires s.pending.Valid() && i < |s.pending.order| && HandledUpTo(s, t, reports, i)
    requires !SaidEnd(s, reports, s.pending.order[i])
    ensures HandledUpTo(s, t, reports, i + 1)
  {
    forall j | 0 <= j < |s.pending.order| ensures Handled(s, t, reports, s.pending.order[j], j < i + 1) {
      assert Handled(s, t, reports, s.pending.order[j], j < i);
    }
  }

  /** An order and its end written down, its tracking not yet touched. */
  function Noted(t: Store, id: int, o: Order, e: Event): Store {
    t.(orders := t.orders[id := o], events := t.events + [e])
  }

  ghost predicate Ends(s: Store, t: Store, reports: Reports, b: int, o: Order, e: Event)
    requires b in s.pending.entries
  {
    var id := s.pending.entries[b];
    && id in t.orders && id in s.orders && t.orders[id] == s.orders[id] && t.orders[id].broker == Some(b)
    && Said(reports, b, id, t.orders[id]) == Some((o, e))
  }

  lemma EndOneIsOk(s: Store, t: Store, reports: Reports, completed: seq<int>, b: int, o: Order, e: Event)
    requires s.pending.Valid() && t.pending == s.pending && StoreOk(t.(pending := Untracked(s.pending, completed)))
    requires b in s.pending.entries && b !in completed && Ends(s, t, reports, b, o, e)
    ensures StoreOk(Noted(t, s.pending.entries[b], o, e).(pending := Untracked(s.pending, completed + [b])))
    ensures PolledFrom(t, Noted(t, s.pending.entries[b], o, e))
  {
    var id := s.pending.entries[b];
    var u := t.(pending := Untracked(s.pending, completed));
    UntrackedLaws(s.pending, completed);
    ReportOk(u, b, reports[b]);
    FinishedIsNoted(s.pending, t, completed, id, o, e);
    assert SameButEnded(t.orders[id], o);
  }

  lemma FinishedIsNoted(pending: Pending, t: Store, completed: seq<int>, id: int, o: Order, e: Event)
    requires o.broker.Some?
    ensures Finished(t.(pending := Untracked(pending, completed)), id, o, e)
            == Noted(t, id, o, e).(pending := Untracked(pending, completed + [o.broker.value]))
  {
    assert (completed + [o.broker.value])[..|completed|] == completed;
  }

  lemma EndOneIsHandled(s: Store, t: Store, reports: Reports, i: nat, o: Order, e: Event)
    requires s.pending.Valid() && i < |s.pending.order| && Ends(s, t, reports, s.pending.order[i], o, e)
    requires HandledUpTo(s, t, reports, i)
    ensures HandledUpTo(s, Noted(t, s.pending.entries[s.pending.order[i]], o, e), reports, i + 1)
  {
    var next := Noted(t, s.pending.entries[s.pending.order[i]], o, e);
    forall j | 0 <= j < |s.pending.order| ensures Handled(s, next, reports, s.pending.order[j], j < i + 1) {
      assert Handled(s, t, reports, s.pending.order[j], j < i);
    }
  }

  lemma EndOne(s: Store, t: Store, reports: Reports, completed: seq<int>, i: nat, o: Order, e: Event)
    requires Polling(s, t, reports, completed, i) && i < |s.pending.order| && Ends(s, t, reports, s.pending.order[i], o, e)
    ensures var b := s.pending.order[i];
            Polling(s, Noted(t, s.pending.entries[b], o, e), reports, completed + [b], i + 1)
  {
    var b := s.pending.order[i];
    ListOne(s, reports, completed, i);
    EndOneIsOk(s, t, reports, completed, b, o, e);
    EndOneIsHandled(s, t, reports, i, o, e);
    PolledTwice(s, t, Noted(t, s.pending.entries[b], o, e));
  }

  class OrderManager {
    var store: Store

    /** Between calls every tracked order is submitted and filed under its own broker id, every order the broker
        took is tracked exactly while it is submitted, and each broker id has at most one fill event. */
    ghost predicate Valid()
      reads this
    {
      StoreOk(store)
    }

    constructor ()
      ensures Valid() && store == Store(map[], [], OrderedDict([], map[]), [], 0, 0)
    {
      store := Store(map[], [], OrderedDict([], map[]), [], 0, 0);
    }

    /** One order through the checks and to the broker. A rejection the manager handles comes back as an order that
        never reached the broker; anything raised escapes, and what reached the broker before that is not kept. */
    method PlaceOrder(r: Request, world: Placing) returns (outcome: Outcome)
      requires Valid()
      modifies this
      ensures Valid()
      ensures outcome.Returned? <==> RaisedBy(world).None?
      ensures Cancels(store.events) == Cancels(old(store).events)
      ensures Later(old(store), store)
      ensures store == After(old(store), r, world) && MetWorld(old(store), store, r, world)
      ensures outcome.Returned? ==>
        outcome.id == old(store).made && outcome.id !in old(store).orders && PlacedAs(old(store), store, outcome.id, r, world)
      ensures outcome.Escaped? ==> RaisedBy(world) == Some(outcome.error) && store.orders == old(store).orders
    {
      var id := store.made;
      AfterIsOk(store, r, world);
      AfterFollows(store, r, world);
      if world.checks.Raise? {
        return Escaped(world.checks.error);
      }
      if world.checks.Reject? {
        store := Ended(store, r, REJECTED, [RejectedEvent(id, MANAGER)]);
        return Returned(id);
      }
      match world.answer
      case Accepts =>
        store := Taken(store, r);
        outcome := Returned(id);
      case Faults =>
        store := Forgotten(store);
        outcome := Escaped(BrokerFault);
      case _ =>
        var status := if world.answer.RateLimited? then FAILED else REJECTED;
        store := Ended(store, r, status, [PlacedEvent(id), RejectedEvent(id, MANAGER)]);
        outcome := Returned(id);
    }

    /** One poll over what the broker reports, or none if the reports could not be fetched: exactly the tracked
        orders whose report ends them are ended and let go of. */
    method CheckOrders(fetched: Option<Reports>)
      requires Valid()
      modifies this
      ensures Valid() && PolledFrom(old(store), store) && Cancels(store.events) == Cancels(old(store).events)
      ensures fetched.None? ==> store == old(store)
      ensures fetched.Some? ==> PolledAsTold(old(store), store, fetched.value)
      ensures fetched.Some? ==> forall b :: b in old(store).pending.entries ==> ReadsReport(old(store), store, fetched.value, b)
      ensures fetched.Some? ==> TellsFills(old(store), fetched.value, PublishedBy(old(store), fetched.value))
    {
      if fetched.None? {
        return;
      }
      ghost var before := store;
      PollsCancelNothing(store, fetched.value);
      store := PollAll(store, fetched.value);
      ReportsAreRead(before, store, fetched.value);
      FillsAreTold(before, fetched.value);
    }

    /** Any number of polls, whatever the broker reports. */
    method Polls()
      requires Valid()
      modifies this
      ensures Valid() && PolledFrom(old(store), store) && Cancels(store.events) == Cancels(old(store).events)
    {
      var n: nat := *;
      while n > 0
        invariant Valid() && PolledFrom(old(store), store) && Cancels(store.events) == Cancels(old(store).events)
      {
        var reports: Option<Reports> := *;
        ghost var before := store;
        CheckOrders(reports);
        PolledTwice(old(store), before, store);
        n := n - 1;
      }
    }

    /** Asks the broker to cancel; `granted` is its answer. An order the broker never took cannot be cancelled. */
    method CancelOrder(id: int, granted: bool) returns (cancelled: bool)
      requires Valid()
      modifies this
      ensures Valid()
      ensures cancelled <==> granted && id in old(store).orders && old(store).orders[id].broker.Some?
      ensures !cancelled ==> store == old(store)
      ensures cancelled ==> store == Finished(old(store), id, old(store).orders[id].(status := CANCELLED), CancelledEvent(id, MANAGER))
      ensures cancelled && old(store).orders[id].status == SUBMITTED ==> PolledFrom(old(store), store)
      ensures Cancels(store.events) == Cancels(old(store).events) + if cancelled then 1 else 0
    {
      if id !in store.orders || store.orders[id].broker.None? {
        return false;
      }
      if !granted {
        return false;
      }
      var o := store.orders[id].(status := CANCELLED);
      OneMoreCancel(store.events, CancelledEvent(id, MANAGER));
      FinishedOrdersOk(store, id, o, CancelledEvent(id, MANAGER));
      OverFillsOk(store, id, o, CancelledEvent(id, MANAGER));
      store := Finished(store, id, o, CancelledEvent(id, MANAGER));
      cancelled := true;
    }

    /** The open orders of one strategy, or of all. */
    function GetOpenOrders(strategy: string): (open: seq<int>)
      requires Valid()
      reads this
      ensures forall id :: id in open <==>
        && id in store.orders && (strategy == "" || store.orders[id].request.strategy == strategy)
        && store.orders[id].broker.Some? && store.orders[id].broker.value in store.pending.entries
    {
      OpenAreTracked(store, store.placed, strategy);
      OpenAmong(store, store.placed, strategy)
    }

    /** After whatever polls come first, an order that is still open is cancelled if the broker grants it. */
    method CancelIfOpen(id: int, granted: bool) returns (cancelled: bool)
      requires Valid() && id in store.orders
      modifies this
      ensures Valid() && TriedToCancel(old(store), store, id, granted, cancelled)
    {
      Polls();
      ghost var polled := store;
      cancelled := false;
      var o := store.orders[id];
      assert OrderOk(store, id);
      if o.broker.Some? && (o.status == SUBMITTED || o.status == OPEN) {
        cancelled := CancelOrder(id, granted);
        PolledTwice(old(store), polled, store);
      }
    }

    /** Goes through the orders the broker took, as they were listed at the start, while polls go on. */
    method CancelAll(strategy: string, granted: int -> bool) returns (cancelled: nat, ghost ended: seq<int>)
      requires Valid()
      modifies this
      ensures Valid() && PolledFrom(old(store), store)
      ensures CancelledUpTo(store, old(store).placed, strategy, granted)
      ensures cancelled == |ended| && AllCancelled(store, ended, strategy, granted)
      ensures Cancels(store.events) == Cancels(old(store).events) + cancelled
    {
      cancelled, ended := 0, [];
      var ids := store.placed;
      var i := 0;
      while i < |ids|
        invariant 0 <= i <= |ids| && Valid() && ids == store.placed
        invariant CancelledSoFar(old(store), store, ids, i, strategy, granted, cancelled, ended)
      {
        ghost var before, sofar, earlier := store, cancelled, ended;
        PlacedAreKnown(store);
        assert ids[i] in store.placed;
        var done := false;
        if OfStrategy(store.orders[ids[i]], strategy) {
          done := CancelIfOpen(ids[i], granted(ids[i]));
          if done { cancelled, ended := cancelled + 1, ended + [ids[i]]; }
        }
        NextCancelled(old(store), before, store, ids, i, strategy, granted, sofar, earlier, done, cancelled, ended);
        i := i + 1;
      }
      assert ids[..i] == ids;
    }

    /** One order, after whatever polls come first. */
    method PlaceOne(r: Request, world: Placing) returns (outcome: Outcome)
      requires Valid()
      modifies this
      ensures Valid() && PlacedAfterPolls(old(store), store, outcome, r, world)
    {
      Polls();
      ghost var polled := store;
      outcome := PlaceOrder(r, world);
      PollsThenOrder(old(store), polled, store, outcome, r, world);
    }

    /** Places legs one after the other, with polls in between, until one fails or something is raised. */
    method PlaceLegs(requests: seq<Request>, world: int -> Placing) returns (legs: seq<int>, failed: bool, error: Option<Error>)
      requires Valid()
      modifies this
      ensures Valid() && Later(old(store), store) && LegsOf(old(store), store, legs, requests)
      ensures BrokerTook(store, legs, if failed then |legs| - 1 else |legs|)
      ensures failed ==> legs != [] && store.orders[legs[|legs| - 1]].broker.None?
      ensures PlacedUpTo(world, |requests|, |legs|, failed, error)
      ensures Cancels(store.events) == Cancels(old(store).events)
    {
      legs, failed, error := [], false, None;
      while |legs| < |requests|
        invariant Valid() && LegsTaken(old(store), store, legs, requests, world)
        decreases |requests| - |legs|
      {
        ghost var before := store;
        var outcome := PlaceOne(requests[|legs|], world(|legs|));
        OneMorePlaced(old(store), before, store, legs, requests, world, outcome);
        if outcome.Escaped? {
          return legs, false, Some(outcome.error);
        }
        legs := legs + [outcome.id];
        var status := store.orders[outcome.id].status;
        if status == REJECTED || status == FAILED {
          return legs, true, None;
        }
      }
    }

    /** Cancels every leg that is still open; where the broker grants it the leg ends. */
    method CancelLegs(legs: seq<int>, granted: int -> bool)
      requires Valid() && forall k :: 0 <= k < |legs| ==> legs[k] in store.orders
      modifies this
      ensures Valid() && PolledFrom(old(store), store)
      ensures LegsOver(store, legs, granted, |legs|)
    {
      var k := 0;
      while k < |legs|
        invariant 0 <= k <= |legs| && Valid() && PolledFrom(old(store), store)
        invariant LegsOver(store, legs, granted, k)
      {
        ghost var before := store;
        var _ := CancelIfOpen(legs[k], granted(k));
        PolledTwice(old(store), before, store);
        OneMoreOver(before, store, legs, granted, k);
        k := k + 1;
      }
    }

    /** Up to three tries at the opposite order; the first that the broker takes is the only one it takes, and if it
        takes none the breach is published. */
    method ReverseLeg(leg: int, world: int -> Placing) returns (u: Unwinding)
      requires Valid() && leg in store.orders
      modifies this
      ensures Valid() && Later(old(store), store) && Unwound(store, leg, u)
      ensures OnlyAccepted(old(store), store, u)
      ensures u.Reversed? <==> Reversible(world)
      ensures u.Reversed? ==> u.id in store.orders && TakesBack(store.orders[u.id].request, store.orders[leg].request)
    {
      var r := ReversalOf(store.orders[leg].request);
      var attempt := 0;
      while attempt < 3
        invariant Valid() && AttemptedInVain(old(store), store, leg, r, world, attempt)
      {
        ghost var before := store;
        var outcome := PlaceOne(r, world(attempt));
        OneAttempt(old(store), before, store, leg, outcome, r, world, attempt);
        if outcome.Returned? {
          var status := store.orders[outcome.id].status;
          if status != REJECTED && status != FAILED {
            return Reversed(outcome.id);
          }
        }
        attempt := attempt + 1;
      }
      u := Breached(|store.events|);
      ghost var before := store;
      Publish(BreachEvent(r.symbol));
      NothingElse(old(store), before, store, leg, r, world);
    }

    method Publish(e: Event)
      requires Valid() && !e.FilledEvent?
      modifies this
      ensures Valid() && store == old(store).(events := old(store).events + [e])
    {
      EventsKeepFills(store, [e]);
      EventKeepsOrders(store, e);
      store := store.(events := store.events + [e]);
    }

    /** Reverses the legs that read FILLED now, one at a time. */
    method ReverseLegs(legs: seq<int>, world: (int, int) -> Placing) returns (ghost unwound: map<int, Unwinding>)
      requires Valid() && Distinct(legs) && forall k :: 0 <= k < |legs| ==> legs[k] in store.orders
      modifies this
      ensures Valid() && Later(old(store), store)
      ensures forall leg :: leg in unwound <==> leg in legs && leg in old(store).orders && old(store).orders[leg].status == FILLED
      ensures AllUnwound(old(store), store, unwound) && TakenBack(store, legs, unwound)
      ensures ReversedAsPossible(unwound, world)
    {
      var toReverse := FilledAmong(store, legs);
      FilledAmongIff(store, legs);
      unwound := map[];
      var i := 0;
      while i < |toReverse|
        invariant 0 <= i <= |toReverse| && Valid() && Later(old(store), store)
        invariant forall leg :: leg in unwound <==> leg in toReverse[..i]
        invariant AllUnwound(old(store), store, unwound)
        invariant ReversedAsPossible(unwound, world)
      {
        var leg := toReverse[i];
        ghost var before := store;
        OneMoreKey(unwound, toReverse, i);
        OrderLater(old(store), store, leg);
        var u := ReverseLeg(leg, attempt => world(leg, attempt));
        LaterTwice(old(store), before, store);
        OneMoreUnwound(old(store), before, store, unwound, leg, u);
        OneMoreAsPossible(unwound, world, leg, u);
        unwound := unwound[leg := u];
        i := i + 1;
      }
      assert toReverse[..i] == toReverse;
      AllTakenBack(store, legs, unwound);
    }

    /** Places a group of legs that stand or fall together. If a leg fails, every earlier leg whose cancel would be
        granted ends cancelled, rejected, or filled and then either undone by exactly one opposite order that the
        broker took or reported as a breach; the broker takes no other order on the group's behalf. If something is
        raised instead, it escapes and nothing at all is cancelled or reversed. The legs dealt with are exactly those
        that had filled when the cancels were through, in the store `standing`. Which of these happens, and which filled
        legs are undone, is decided by how the world meets the orders and by nothing else. */
    method PlaceMultiLeg(requests: seq<Request>, world: int -> Placing, granted: int -> bool, reversing: (int, int) -> Placing)
      returns (legs: seq<int>, failed: bool, error: Option<Error>, ghost unwound: map<int, Unwinding>, ghost standing: Store)
      requires Valid()
      modifies this
      ensures Valid() && Later(old(store), store)
      ensures |legs| <= |requests| && Distinct(legs)
      ensures forall k :: 0 <= k < |legs| ==> legs[k] in store.orders && store.orders[legs[k]].request == requests[k]
      ensures PlacedUpTo(world, |requests|, |legs|, failed, error)
      ensures failed ==> forall k :: 0 <= k < |legs| - 1 && granted(k) ==> Settled(store, legs[k], unwound)
      ensures Later(old(store), standing) && Later(standing, store)
      ensures failed ==> LegsOver(standing, legs, granted, |legs|) && UnwindsFilled(standing, legs, unwound)
      ensures forall leg :: leg in unwound ==>
        leg in store.orders && store.orders[leg].status == FILLED
      ensures ReversedAsPossible(unwound, reversing)
      ensures forall leg, id :: Undoes(unwound, leg, id) ==>
        id in store.orders && TakesBack(store.orders[id].request, store.orders[leg].request)
      ensures TakenBack(store, legs, unwound)
      ensures forall id :: AcceptedSince(old(store), store, id) ==> id in legs || (exists leg :: Undoes(unwound, leg, id))
      ensures forall leg, id :: Undoes(unwound, leg, id) ==> id !in legs && leg in legs
      ensures forall leg, other, id :: Undoes(unwound, leg, id) && Undoes(unwound, other, id) ==> leg == other
      ensures !failed ==> unwound == map[] && Cancels(store.events) == Cancels(old(store).events)
      ensures !failed ==> forall k :: 0 <= k < |legs| ==> store.orders[legs[k]].broker.Some?
    {
      legs, failed, error := PlaceLegs(requests, world);
      unwound, standing := map[], store;
      if !failed {
        AllTakenBack(store, legs, unwound);
        return;
      }
      ghost var placed := store;
      CancelLegs(legs, granted);
      ghost var cancelled := store;
      standing := store;
      unwound := ReverseLegs(legs, reversing);
      LaterTwice(placed, cancelled, store);
      LaterTwice(old(store), placed, store);
      GroupSettles(old(store), placed, cancelled, store, legs, requests, granted, unwound);
    }
  }

  // ---- Groups of legs ----

  /** The first n legs are all taken. */
  ghost predicate AllGo(world: int -> Placing, n: int) { forall k :: 0 <= k < n ==> Goes(world(k)) }

  /** Placing came to its end as the world has it: every leg before the last word was taken; the group failed exactly
      on a handled rejection, with that leg counted, and was broken off exactly by what was raised, without. */
  ghost predicate PlacedUpTo(world: int -> Placing, total: nat, placed: nat, failed: bool, error: Option<Error>) {
    && (failed ==> error.None? && 0 < placed <= total && AllGo(world, placed - 1) && Fails(world(placed - 1)))
    && (!failed ==> placed <= total && AllGo(world, placed))
    && (error.Some? ==> placed < total && RaisedBy(world(placed)) == error)
    && (!failed && error.None? ==> placed == total)
  }

  /** The world decides alone: no two endings are possible. */
  lemma OneEnding(world: int -> Placing, total: nat, n: nat, f: bool, e: Option<Error>, n': nat, f': bool, e': Option<Error>)
    requires PlacedUpTo(world, total, n, f, e) && PlacedUpTo(world, total, n', f', e')
    ensures n == n' && f == f' && e == e'
  {
    var last, last' := if f then n - 1 else n, if f' then n' - 1 else n';
    assert forall k :: 0 <= k < last ==> Goes(world(k));
    assert forall k :: 0 <= k < last' ==> Goes(world(k));
  }

  /** Two legs, the first taken and the broker broken at the second: however the group is placed, one leg stands, and the
      group does not count as failed, so nothing of it is cancelled or reversed. */
  lemma FirstLegStands(world: int -> Placing, placed: nat, failed: bool, error: Option<Error>)
    requires Goes(world(0)) && world(1) == Placing(Pass, Faults)
    requires PlacedUpTo(world, 2, placed, failed, error)
    ensures placed == 1 && !failed && error == Some(BrokerFault)
  {
    assert PlacedUpTo(world, 2, 1, false, Some(BrokerFault));
    OneEnding(world, 2, placed, failed, error, 1, false, Some(BrokerFault));
  }

  /** A leg and the order that takes it back, once that has filled in whole, have moved nothing exactly when the leg had
      filled in whole: the reversal is for the quantity ordered, not for the quantity filled. */
  lemma WholeFillsCancel(leg: Order, back: Order)
    requires TakesBack(back.request, leg.request) && back.fillQuantity == back.request.quantity
    ensures Signed(leg.request.side, leg.fillQuantity) + Signed(back.request.side, back.fillQuantity) == 0 <==>
            leg.fillQuantity == leg.request.quantity
  {
  }

  /** Some of the three tries at a reversal is taken. */
  ghost predicate Reversible(world: int -> Placing) { exists a :: 0 <= a < 3 && Goes(world(a)) }

  ghost predicate LegReversible(world: (int, int) -> Placing, leg: int) { exists a :: 0 <= a < 3 && Goes(world(leg, a)) }

  /** Of the legs dealt with, exactly those are undone whose reversal is taken at some try. */
  ghost predicate ReversedAsPossible(unwound: map<int, Unwinding>, world: (int, int) -> Placing) {
    forall leg :: leg in unwound ==> (unwound[leg].Reversed? <==> LegReversible(world, leg))
  }

  lemma OneMoreAsPossible(unwound: map<int, Unwinding>, world: (int, int) -> Placing, leg: int, u: Unwinding)
    requires ReversedAsPossible(unwound, world) && (u.Reversed? <==> Reversible(attempt => world(leg, attempt)))
    ensures ReversedAsPossible(unwound[leg := u], world)
  {
    var w := attempt => world(leg, attempt);
    assert forall a :: w(a) == world(leg, a);
    if LegReversible(world, leg) {
      var a :| 0 <= a < 3 && Goes(world(leg, a));
      assert Goes(w(a));
    }
    if Reversible(w) {
      var a :| 0 <= a < 3 && Goes(w(a));
      assert Goes(world(leg, a));
    }
  }

  datatype Unwinding = Reversed(id: int) | Breached(at: int)

  /** The legs placed since s, in the order of their requests, are all the orders made since. */
  ghost predicate LegsOf(s: Store, t: Store, legs: seq<int>, requests: seq<Request>) {
    && |legs| <= |requests| && Distinct(legs)
    && (forall k :: 0 <= k < |legs| ==> legs[k] in t.orders && legs[k] !in s.orders && t.orders[legs[k]].request == requests[k])
    && (forall id :: id in t.orders && id !in s.orders ==> id in legs)
  }

  ghost predicate BrokerTook(t: Store, legs: seq<int>, n: int) {
    n <= |legs| && forall k :: 0 <= k < n ==> legs[k] in t.orders && t.orders[legs[k]].broker.Some?
  }

  /** Polls may end orders; then the order is placed as the world has it. */
  ghost predicate PlacedAfterPolls(s: Store, t: Store, outcome: Outcome, r: Request, world: Placing) {
    && Later(s, t) && Cancels(t.events) == Cancels(s.events)
    && (outcome.Escaped? <==> RaisedBy(world).Some?)
    && match outcome
       case Escaped(error) => RaisedBy(world) == Some(error) && t.orders.Keys == s.orders.Keys
       case Returned(id) => PlacedAs(s, t, id, r, world)
  }

  lemma PollsThenOrder(s: Store, polled: Store, t: Store, outcome: Outcome, r: Request, world: Placing)
    requires PolledFrom(s, polled) && Later(polled, t) && Cancels(t.events) == Cancels(s.events)
    requires outcome.Escaped? <==> RaisedBy(world).Some?
    requires outcome.Escaped? ==> RaisedBy(world) == Some(outcome.error) && t.orders == polled.orders
    requires outcome.Returned? ==> PlacedAs(polled, t, outcome.id, r, world)
    ensures PlacedAfterPolls(s, t, outcome, r, world)
  {
    LaterTwice(s, polled, t);
  }

  /** Every leg so far was taken. */
  ghost predicate LegsTaken(s: Store, t: Store, legs: seq<int>, requests: seq<Request>, world: int -> Placing) {
    && Later(s, t) && Cancels(t.events) == Cancels(s.events)
    && LegsOf(s, t, legs, requests) && BrokerTook(t, legs, |legs|) && AllGo(world, |legs|)
  }

  lemma OneMorePlaced(s: Store, t: Store, u: Store, legs: seq<int>, requests: seq<Request>, world: int -> Placing, outcome: Outcome)
    requires LegsTaken(s, t, legs, requests, world) && |legs| < |requests|
    requires PlacedAfterPolls(t, u, outcome, requests[|legs|], world(|legs|))
    ensures Later(s, u) && Cancels(u.events) == Cancels(s.events)
    ensures outcome.Escaped? ==> LegsOf(s, u, legs, requests) && BrokerTook(u, legs, |legs|)
    ensures outcome.Returned? ==>
      && LegsOf(s, u, legs + [outcome.id], requests) && BrokerTook(u, legs + [outcome.id], |legs|)
      && outcome.id in u.orders && (u.orders[outcome.id].broker.Some? <==> Goes(world(|legs|)))
      && (u.orders[outcome.id].broker.None? <==> u.orders[outcome.id].status in {REJECTED, FAILED})
    ensures Goes(world(|legs|)) ==> outcome.Returned? && LegsTaken(s, u, legs + [outcome.id], requests, world)
  {
    LaterTwice(s, t, u);
    match outcome
    case Escaped(_) => LegsStay(s, t, u, legs, requests);
    case Returned(id) => LegsGrow(s, t, u, legs, requests, id, world(|legs|));
  }

  lemma LegsStay(s: Store, t: Store, u: Store, legs: seq<int>, requests: seq<Request>)
    requires LegsOf(s, t, legs, requests) && BrokerTook(t, legs, |legs|) && Later(t, u) && u.orders.Keys == t.orders.Keys
    ensures LegsOf(s, u, legs, requests) && BrokerTook(u, legs, |legs|)
  {
    forall k | 0 <= k < |legs| ensures u.orders[legs[k]].request == requests[k] && u.orders[legs[k]].broker.Some? {
      OrderLater(t, u, legs[k]);
    }
  }

  lemma LegsGrow(s: Store, t: Store, u: Store, legs: seq<int>, requests: seq<Request>, id: int, world: Placing)
    requires LegsOf(s, t, legs, requests) && BrokerTook(t, legs, |legs|) && |legs| < |requests|
    requires Later(s, t) && Later(t, u) && PlacedAs(t, u, id, requests[|legs|], world)
    ensures LegsOf(s, u, legs + [id], requests) && BrokerTook(u, legs + [id], |legs|)
    ensures u.orders[id].broker.Some? ==> BrokerTook(u, legs + [id], |legs| + 1)
  {
    var more := legs + [id];
    assert id !in s.orders;
    forall k | 0 <= k < |legs| ensures more[k] in u.orders && u.orders[more[k]].request == requests[k] && u.orders[more[k]].broker.Some? {
      OrderLater(t, u, legs[k]);
    }
    assert id !in legs;
  }

  /** Of the first n legs, those that may be cancelled are no longer open. */
  ghost predicate LegsOver(s: Store, legs: seq<int>, granted: int -> bool, n: int) {
    n <= |legs| && forall k :: 0 <= k < n ==> legs[k] in s.orders && (granted(k) ==> Over(s, legs[k]))
  }

  lemma OneMoreOver(s: Store, t: Store, legs: seq<int>, granted: int -> bool, n: nat)
    requires n < |legs| && LegsOver(s, legs, granted, n) && Later(s, t)
    requires legs[n] in t.orders && (granted(n) ==> Over(t, legs[n]))
    ensures LegsOver(t, legs, granted, n + 1)
  {
    forall k | 0 <= k < n ensures legs[k] in t.orders && (granted(k) ==> Over(t, legs[k])) {
      OrderLater(s, t, legs[k]);
    }
  }

  /** The leg has been undone by an order the broker took, or the failure to do so was published. */
  ghost predicate Unwound(s: Store, leg: int, u: Unwinding) {
    leg in s.orders
    && match u
       case Reversed(id) =>
         && id in s.orders && s.orders[id].broker.Some? && s.orders[id].request == ReversalOf(s.orders[leg].request)
         && TakesBack(s.orders[id].request, s.orders[leg].request)
       case Breached(at) => 0 <= at < |s.events| && s.events[at] == BreachEvent(s.orders[leg].request.symbol)
  }

  /** What these orders together ask for of one instrument on behalf of one strategy. */
  ghost function Ordered(s: Store, ids: seq<int>, strategy: string, token: int): int {
    if ids == [] then 0
    else
      var id := ids[|ids| - 1];
      Ordered(s, ids[..|ids| - 1], strategy, token)
      + if id in s.orders && s.orders[id].request.strategy == strategy && s.orders[id].request.token == token
        then Signed(s.orders[id].request.side, s.orders[id].request.quantity) else 0
  }

  /** Those of the legs that were reversed, each followed by the order that reversed it. */
  ghost function ReversedLegs(legs: seq<int>, unwound: map<int, Unwinding>): seq<int> {
    if legs == [] then []
    else
      var rest, leg := ReversedLegs(legs[..|legs| - 1], unwound), legs[|legs| - 1];
      if leg in unwound && unwound[leg].Reversed? then rest + [leg] + [unwound[leg].id] else rest
  }

  /** Every leg reversed is taken back, and altogether the legs and the orders that reversed them ask for nothing. */
  ghost predicate TakenBack(s: Store, legs: seq<int>, unwound: map<int, Unwinding>) {
    forall strategy, token :: Ordered(s, ReversedLegs(legs, unwound), strategy, token) == 0
  }

  lemma OrderedSnoc(s: Store, ids: seq<int>, id: int, strategy: string, token: int)
    ensures Ordered(s, ids + [id], strategy, token) == Ordered(s, ids, strategy, token) + Ordered(s, [id], strategy, token)
  {
    assert (ids + [id])[..|ids|] == ids && [id][..0] == [];
  }

  lemma {:induction false} ReversedSumToNothing(s: Store, legs: seq<int>, unwound: map<int, Unwinding>, strategy: string, token: int)
    requires forall leg :: leg in unwound ==> Unwound(s, leg, unwound[leg])
    ensures Ordered(s, ReversedLegs(legs, unwound), strategy, token) == 0
  {
    if legs != [] {
      var rest, leg := legs[..|legs| - 1], legs[|legs| - 1];
      ReversedSumToNothing(s, rest, unwound, strategy, token);
      if leg in unwound && unwound[leg].Reversed? {
        assert Unwound(s, leg, unwound[leg]);
        var before := ReversedLegs(rest, unwound);
        OrderedSnoc(s, before, leg, strategy, token);
        OrderedSnoc(s, before + [leg], unwound[leg].id, strategy, token);
        assert [leg][..0] == [] && [unwound[leg].id][..0] == [];
      }
    }
  }

  lemma AllTakenBack(s: Store, legs: seq<int>, unwound: map<int, Unwinding>)
    requires forall leg :: leg in unwound ==> Unwound(s, leg, unwound[leg])
    ensures TakenBack(s, legs, unwound)
  {
    forall strategy, token ensures Ordered(s, ReversedLegs(legs, unwound), strategy, token) == 0 {
      ReversedSumToNothing(s, legs, unwound, strategy, token);
    }
  }

  ghost predicate Undoes(unwound: map<int, Unwinding>, leg: int, id: int) { leg in unwound && unwound[leg] == Reversed(id) }

  /** Every leg listed is unwound, and the orders the broker took meanwhile are exactly the reversals, one a leg. */
  ghost predicate AllUnwound(s: Store, t: Store, unwound: map<int, Unwinding>) {
    && (forall leg :: leg in unwound ==> Unwound(t, leg, unwound[leg]))
    && (forall id :: AcceptedSince(s, t, id) ==> exists leg :: Undoes(unwound, leg, id))
    && (forall leg, id :: Undoes(unwound, leg, id) ==> AcceptedSince(s, t, id))
    && (forall leg, other, id :: Undoes(unwound, leg, id) && Undoes(unwound, other, id) ==> leg == other)
  }

  lemma AcceptedTwice(s: Store, t: Store, u: Store)
    requires Later(s, t) && Later(t, u)
    ensures forall id :: AcceptedSince(s, u, id) <==> AcceptedSince(s, t, id) || AcceptedSince(t, u, id)
  {
    forall id ensures AcceptedSince(s, u, id) <==> AcceptedSince(s, t, id) || AcceptedSince(t, u, id) {
      if id in t.orders { OrderLater(t, u, id); }
    }
  }

  ghost predicate NoneAccepted(s: Store, t: Store) { forall id :: !AcceptedSince(s, t, id) }

  /** The broker took exactly the order that undoes the leg, and none if it failed. */
  ghost predicate OnlyAccepted(s: Store, t: Store, u: Unwinding) {
    forall id :: AcceptedSince(s, t, id) <==> u == Reversed(id)
  }

  /** So many tries at the reversal r of the leg, and the broker took none. */
  ghost predicate AttemptedInVain(s: Store, t: Store, leg: int, r: Request, world: int -> Placing, n: int) {
    && Later(s, t) && leg in t.orders && r == ReversalOf(t.orders[leg].request)
    && 0 <= n <= 3 && NoneAccepted(s, t) && forall a :: 0 <= a < n ==> !Goes(world(a))
  }

  lemma NothingElse(s: Store, before: Store, t: Store, leg: int, r: Request, world: int -> Placing)
    requires AttemptedInVain(s, before, leg, r, world, 3)
    requires t == before.(events := before.events + [BreachEvent(r.symbol)])
    ensures var u := Breached(|before.events|);
            Later(s, t) && Unwound(t, leg, u) && OnlyAccepted(s, t, u) && !Reversible(world)
  {
    LaterTwice(s, before, t);
    forall id ensures !AcceptedSince(s, t, id) {
      assert !AcceptedSince(s, before, id);
    }
  }

  lemma OneAttempt(s: Store, before: Store, t: Store, leg: int, outcome: Outcome, r: Request, world: int -> Placing, n: int)
    requires AttemptedInVain(s, before, leg, r, world, n) && n < 3 && PlacedAfterPolls(before, t, outcome, r, world(n))
    ensures if Goes(world(n))
            then
              && Reversible(world) && Later(s, t) && outcome.Returned? && outcome.id in t.orders
              && t.orders[outcome.id].broker.Some? && t.orders[outcome.id].status !in {REJECTED, FAILED}
              && Unwound(t, leg, Reversed(outcome.id)) && OnlyAccepted(s, t, Reversed(outcome.id))
            else
              && AttemptedInVain(s, t, leg, r, world, n + 1)
              && (outcome.Returned? ==> outcome.id in t.orders && t.orders[outcome.id].status in {REJECTED, FAILED})
  {
    AcceptedTwice(s, before, t);
    LaterTwice(s, before, t);
    OrderLater(before, t, leg);
  }

  lemma StillUnwound(s: Store, t: Store, leg: int, u: Unwinding)
    requires Unwound(s, leg, u) && Later(s, t)
    ensures Unwound(t, leg, u)
  {
    OrderLater(s, t, leg);
    if u.Reversed? { OrderLater(s, t, u.id); }
  }

  lemma OneMoreUnwound(s: Store, t: Store, v: Store, unwound: map<int, Unwinding>, leg: int, u: Unwinding)
    requires Later(s, t) && Later(t, v) && AllUnwound(s, t, unwound) && leg !in unwound && Unwound(v, leg, u)
    requires OnlyAccepted(t, v, u)
    ensures AllUnwound(s, v, unwound[leg := u])
  {
    var more := unwound[leg := u];
    AcceptedTwice(s, t, v);
    forall l | l in more ensures Unwound(v, l, more[l]) {
      if l != leg { StillUnwound(t, v, l, unwound[l]); }
    }
    forall l, id ensures Undoes(more, l, id) <==> if l == leg then u == Reversed(id) else Undoes(unwound, l, id) {
    }
    forall id | AcceptedSince(s, v, id) ensures exists l :: Undoes(more, l, id) {
      if AcceptedSince(s, t, id) {
        var l :| Undoes(unwound, l, id);
        assert Undoes(more, l, id);
      } else {
        assert Undoes(more, leg, id);
      }
    }
    forall l, id | Undoes(more, l, id) ensures AcceptedSince(s, v, id) {
      if l != leg { assert Undoes(unwound, l, id); }
    }
    forall l, o, id | Undoes(more, l, id) && Undoes(more, o, id) ensures l == o {
      if l != leg { assert Undoes(unwound, l, id); }
      if o != leg { assert Undoes(unwound, o, id); }
    }
  }

  lemma OneMoreKey(unwound: map<int, Unwinding>, legs: seq<int>, i: nat)
    requires i < |legs| && Distinct(legs) && forall leg :: leg in unwound <==> leg in legs[..i]
    ensures legs[i] in legs && legs[i] !in unwound
    ensures forall leg :: leg in unwound || leg == legs[i] <==> leg in legs[..i + 1]
  {
    assert legs[i] !in legs[..i];
    assert legs[..i + 1] == legs[..i] + [legs[i]];
  }

  lemma EventKeepsOrders(s: Store, e: Event)
    requires OrdersOk(s)
    ensures OrdersOk(s.(events := s.events + [e]))
  {
    var t := s.(events := s.events + [e]);
    forall id | id in t.orders ensures OrderOk(t, id) { assert OrderOk(s, id); }
    forall b | b in t.pending.entries ensures TrackOk(t, b) { assert TrackOk(s, b); }
  }

  function FilledAmong(s: Store, legs: seq<int>): seq<int>
    requires forall k :: 0 <= k < |legs| ==> legs[k] in s.orders
  {
    if legs == [] then []
    else (if s.orders[legs[0]].status == FILLED then [legs[0]] else []) + FilledAmong(s, legs[1..])
  }

  lemma {:induction false} FilledAmongIff(s: Store, legs: seq<int>)
    requires Distinct(legs) && forall k :: 0 <= k < |legs| ==> legs[k] in s.orders
    ensures Distinct(FilledAmong(s, legs))
    ensures forall leg :: leg in FilledAmong(s, legs) <==> leg in legs && leg in s.orders && s.orders[leg].status == FILLED
  {
    if legs != [] {
      assert legs == [legs[0]] + legs[1..] && Distinct(legs[1..]) && legs[0] !in legs[1..];
      FilledAmongIff(s, legs[1..]);
    }
  }

  /** Exactly those legs are unwound that read FILLED once the cancels were through, whether their cancel was granted or
      not; one that fills later stays as it is. */
  ghost predicate UnwindsFilled(standing: Store, legs: seq<int>, unwound: map<int, Unwinding>) {
    forall leg :: leg in unwound <==> leg in legs && leg in standing.orders && standing.orders[leg].status == FILLED
  }

  /** A leg of a failed group that needs no more attention. */
  ghost predicate Settled(s: Store, leg: int, unwound: map<int, Unwinding>) {
    && leg in s.orders && s.orders[leg].broker.Some?
    && s.orders[leg].status in {CANCELLED, REJECTED, FILLED}
    && (s.orders[leg].status == FILLED ==> leg in unwound && Unwound(s, leg, unwound[leg]))
  }

  lemma GroupSettles(s: Store, placed: Store, cancelled: Store, t: Store, legs: seq<int>, requests: seq<Request>,
                     granted: int -> bool, unwound: map<int, Unwinding>)
    requires LegsOf(s, placed, legs, requests) && legs != [] && BrokerTook(placed, legs, |legs| - 1)
    requires Later(s, placed) && PolledFrom(placed, cancelled) && Later(cancelled, t) && StoreOk(cancelled)
    requires LegsOver(cancelled, legs, granted, |legs|)
    requires forall leg :: leg in unwound <==> leg in legs && leg in cancelled.orders && cancelled.orders[leg].status == FILLED
    requires AllUnwound(cancelled, t, unwound)
    ensures forall k :: 0 <= k < |legs| ==> legs[k] in t.orders && t.orders[legs[k]].request == requests[k]
    ensures forall k :: 0 <= k < |legs| - 1 && granted(k) ==> Settled(t, legs[k], unwound)
    ensures forall id :: AcceptedSince(s, t, id) ==> id in legs || (exists leg :: Undoes(unwound, leg, id))
    ensures forall leg, id :: Undoes(unwound, leg, id) ==> id !in legs && leg in legs
    ensures forall leg :: leg in unwound ==> leg in t.orders && t.orders[leg].status == FILLED
  {
    forall leg | leg in unwound ensures leg in t.orders && t.orders[leg].status == FILLED {
      OrderLater(cancelled, t, leg);
    }
    forall k | 0 <= k < |legs| ensures legs[k] in t.orders && t.orders[legs[k]].request == requests[k] {
      OrderLater(placed, cancelled, legs[k]);
      OrderLater(cancelled, t, legs[k]);
    }
    forall k | 0 <= k < |legs| - 1 && granted(k) ensures Settled(t, legs[k], unwound) {
      OrderLater(placed, cancelled, legs[k]);
      OrderLater(cancelled, t, legs[k]);
      assert OrderOk(cancelled, legs[k]);
    }
    AcceptedTwice(s, placed, cancelled);
    AcceptedTwice(s, cancelled, t);
    forall leg, id | Undoes(unwound, leg, id) ensures id !in legs && leg in legs {
      assert AcceptedSince(cancelled, t, id);
    }
  }

  predicate OfStrategy(o: Order, strategy: string) { strategy == "" || o.request.strategy == strategy }

  /** None of these orders that belongs to the strategy and may be cancelled is still submitted. */
  ghost predicate CancelledUpTo(s: Store, ids: seq<int>, strategy: string, granted: int -> bool) {
    forall id :: id in ids && granted(id) && id in s.orders && (strategy == "" || s.orders[id].request.strategy == strategy) ==>
      Over(s, id)
  }

  ghost predicate Over(s: Store, id: int)
    requires id in s.orders
  {
    s.orders[id].status != SUBMITTED
  }

  /** Different orders of the strategy whose cancel was granted, and which read cancelled. */
  ghost predicate AllCancelled(s: Store, ended: seq<int>, strategy: string, granted: int -> bool) {
    && Distinct(ended)
    && forall k :: 0 <= k < |ended| ==>
         ended[k] in s.orders && granted(ended[k]) && OfStrategy(s.orders[ended[k]], strategy) && s.orders[ended[k]].status == CANCELLED
  }

  lemma AllStayCancelled(s: Store, t: Store, ended: seq<int>, strategy: string, granted: int -> bool)
    requires AllCancelled(s, ended, strategy, granted) && Later(s, t)
    ensures AllCancelled(t, ended, strategy, granted)
  {
    forall k | 0 <= k < |ended|
      ensures ended[k] in t.orders && OfStrategy(t.orders[ended[k]], strategy) && t.orders[ended[k]].status == CANCELLED
    {
      OrderLater(s, t, ended[k]);
    }
  }

  lemma OneMoreEnded(s: Store, ended: seq<int>, ids: seq<int>, i: nat, strategy: string, granted: int -> bool)
    requires AllCancelled(s, ended, strategy, granted) && i < |ids| && Distinct(ids)
    requires forall k :: 0 <= k < |ended| ==> ended[k] in ids[..i]
    requires ids[i] in s.orders && granted(ids[i]) && OfStrategy(s.orders[ids[i]], strategy) && s.orders[ids[i]].status == CANCELLED
    ensures AllCancelled(s, ended + [ids[i]], strategy, granted)
  {
    assert ids[i] !in ids[..i];
    assert forall k :: 0 <= k < |ended| ==> ended[k] != ids[i];
  }

  /** The cancelling loop after the first n of the orders listed. */
  ghost predicate CancelledSoFar(s: Store, t: Store, ids: seq<int>, n: int, strategy: string, granted: int -> bool,
                                 cancelled: nat, ended: seq<int>) {
    && 0 <= n <= |ids| && PolledFrom(s, t) && CancelledUpTo(t, ids[..n], strategy, granted)
    && cancelled == |ended| && AllCancelled(t, ended, strategy, granted)
    && Cancels(t.events) == Cancels(s.events) + cancelled
    && forall k :: 0 <= k < |ended| ==> ended[k] in ids[..n]
  }

  lemma NextCancelled(s: Store, t: Store, u: Store, ids: seq<int>, n: nat, strategy: string, granted: int -> bool,
                      sofar: nat, earlier: seq<int>, done: bool, cancelled: nat, ended: seq<int>)
    requires CancelledSoFar(s, t, ids, n, strategy, granted, sofar, earlier) && n < |ids| && Distinct(ids) && ids[n] in t.orders
    requires if OfStrategy(t.orders[ids[n]], strategy) then TriedToCancel(t, u, ids[n], granted(ids[n]), done) else u == t && !done
    requires cancelled == sofar + (if done then 1 else 0) && ended == earlier + if done then [ids[n]] else []
    ensures CancelledSoFar(s, u, ids, n + 1, strategy, granted, cancelled, ended)
  {
    assert ids[..n + 1] == ids[..n] + [ids[n]];
    OrderLater(t, u, ids[n]);
    PolledTwice(s, t, u);
    AllStayCancelled(t, u, earlier, strategy, granted);
    if done {
      OneMoreEnded(u, earlier, ids, n, strategy, granted);
    } else {
      assert ended == earlier;
    }
    OneMoreCancelled(t, u, ids, n, strategy, granted);
  }

  /** What an attempt to cancel one order comes to. */
  ghost predicate TriedToCancel(s: Store, t: Store, id: int, granted: bool, done: bool) {
    && PolledFrom(s, t) && id in t.orders && (granted ==> t.orders[id].status != SUBMITTED)
    && (done ==> granted && t.orders[id].status == CANCELLED)
    && Cancels(t.events) == Cancels(s.events) + if done then 1 else 0
  }

  lemma OneMoreCancelled(s: Store, t: Store, ids: seq<int>, i: nat, strategy: string, granted: int -> bool)
    requires i < |ids| && CancelledUpTo(s, ids[..i], strategy, granted) && PolledFrom(s, t)
    requires ids[i] in t.orders && (granted(ids[i]) && OfStrategy(t.orders[ids[i]], strategy) ==> Over(t, ids[i]))
    ensures CancelledUpTo(t, ids[..i + 1], strategy, granted)
  {
    assert ids[..i + 1] == ids[..i] + [ids[i]];
    forall id | id in ids[..i] && granted(id) && id in t.orders && OfStrategy(t.orders[id], strategy) ensures Over(t, id) {
      OrderLater(s, t, id);
    }
  }

  lemma PlacedAreKnown(s: Store)
    requires OrdersOk(s)
    ensures forall id :: id in s.placed ==> id in s.orders
  {
  }

  function OpenAmong(s: Store, ids: seq<int>, strategy: string): seq<int>
    requires forall i :: 0 <= i < |ids| ==> ids[i] in s.orders
  {
    if ids == [] then []
    else
      var o := s.orders[ids[0]];
      (if (o.status == SUBMITTED || o.status == OPEN) && OfStrategy(o, strategy) then [ids[0]] else [])
      + OpenAmong(s, ids[1..], strategy)
  }

  lemma {:induction false} OpenAmongIff(s: Store, ids: seq<int>, strategy: string)
    requires forall i :: 0 <= i < |ids| ==> ids[i] in s.orders
    ensures forall id :: id in OpenAmong(s, ids, strategy) <==>
      id in ids && s.orders[id].status in {SUBMITTED, OPEN} && OfStrategy(s.orders[id], strategy)
  {
    if ids != [] {
      assert ids == [ids[0]] + ids[1..];
      OpenAmongIff(s, ids[1..], strategy);
    }
  }

  lemma OpenAreTracked(s: Store, ids: seq<int>, strategy: string)
    requires StoreOk(s) && ids == s.placed
    ensures forall i :: 0 <= i < |ids| ==> ids[i] in s.orders
    ensures forall id :: id in OpenAmong(s, ids, strategy) <==>
      && id in s.orders && OfStrategy(s.orders[id], strategy)
      && s.orders[id].broker.Some? && s.orders[id].broker.value in s.pending.entries
  {
    OpenAmongIff(s, ids, strategy);
    forall id ensures id in OpenAmong(s, ids, strategy) <==>
      && id in s.orders && OfStrategy(s.orders[id], strategy)
      && s.orders[id].broker.Some? && s.orders[id].broker.value in s.pending.entries
    {
      if id in s.orders { assert OrderOk(s, id); }
    }
  }

  // ---- Polls in the broker's own words ----

  ghost predicate SaysFilled(d: BrokerData) {
    d.status in {"COMPLETE", "TRADED"} && d.price.Some? && d.price.value > 0.0 && d.quantity.Some? && d.quantity.value > 0
  }

  /** A tracked order is filled as reported, or over as reported, and tracked no longer; or it is as it was. */
  ghost predicate ReadsReport(s: Store, t: Store, reports: Reports, b: int)
    requires b in s.pending.entries
  {
    var id, gone := s.pending.entries[b], b !in t.pending.entries;
    && id in s.orders && id in t.orders
    && if b in reports && SaysFilled(reports[b]) then
         gone && t.orders[id] == s.orders[id].(status := FILLED, fillPrice := reports[b].price.value, fillQuantity := reports[b].quantity.value)
       else if b in reports && reports[b].status == "REJECTED" then gone && t.orders[id] == s.orders[id].(status := REJECTED)
       else if b in reports && reports[b].status == "CANCELLED" then gone && t.orders[id] == s.orders[id].(status := CANCELLED)
       else !gone && t.orders[id] == s.orders[id]
  }

  lemma ReportsAreRead(s: Store, t: Store, reports: Reports)
    requires PolledAsTold(s, t, reports)
    ensures forall b :: b in s.pending.entries ==> ReadsReport(s, t, reports, b)
  {
    forall b | b in s.pending.entries ensures ReadsReport(s, t, reports, b) {
      assert EndedAsTold(s, t, reports, b);
    }
  }

  /** The fill event of the order tracked under that broker id, at the price and of the quantity reported. */
  ghost predicate FillAsReported(s: Store, reports: Reports, e: Event, b: int) {
    && e.FilledEvent? && e.broker == b && b in s.pending.entries && e.id == s.pending.entries[b]
    && e.id in s.orders && e.request == s.orders[e.id].request
    && b in reports && reports[b].price == Some(e.price) && reports[b].quantity == Some(e.quantity)
  }

  ghost predicate ToldOf(s: Store, reports: Reports, events: seq<Event>, b: int) {
    exists i :: 0 <= i < |events| && FillAsReported(s, reports, events[i], b)
  }

  ghost predicate TellsTruth(s: Store, reports: Reports, e: Event) {
    e.FilledEvent? ==> FillAsReported(s, reports, e, e.broker) && SaysFilled(reports[e.broker])
  }

  /** Every fill event is as reported, and every fill reported of a tracked order is told. */
  ghost predicate TellsFills(s: Store, reports: Reports, events: seq<Event>) {
    && (forall i :: 0 <= i < |events| ==> TellsTruth(s, reports, events[i]))
    && (forall b :: b in s.pending.entries && b in reports && SaysFilled(reports[b]) ==> ToldOf(s, reports, events, b))
  }

  lemma {:induction false} FirstAreTold(s: Store, reports: Reports, n: nat)
    requires StoreOk(s) && n <= |s.pending.order|
    ensures forall i :: 0 <= i < |Published(s, reports, n)| ==> TellsTruth(s, reports, Published(s, reports, n)[i])
    ensures forall j :: 0 <= j < n && s.pending.order[j] in reports && SaysFilled(reports[s.pending.order[j]]) ==>
      ToldOf(s, reports, Published(s, reports, n), s.pending.order[j])
  {
    if n > 0 {
      FirstAreTold(s, reports, n - 1);
      var before, b := Published(s, reports, n - 1), s.pending.order[n - 1];
      assert TrackOk(s, b);
      var r := Said(reports, b, s.pending.entries[b], s.orders[s.pending.entries[b]]);
      OneMoreTold(s, reports, before, b, if r.Some? then [r.value.1] else [], Published(s, reports, n));
      forall j | 0 <= j < n && s.pending.order[j] in reports && SaysFilled(reports[s.pending.order[j]])
        ensures ToldOf(s, reports, Published(s, reports, n), s.pending.order[j])
      {
        if j < n - 1 { assert ToldOf(s, reports, before, s.pending.order[j]); }
      }
    }
  }

  lemma OneMoreTold(s: Store, reports: Reports, before: seq<Event>, b: int, news: seq<Event>, events: seq<Event>)
    requires StoreOk(s) && b in s.pending.entries && s.pending.entries[b] in s.orders
    requires s.orders[s.pending.entries[b]].broker == Some(b) && events == before + news
    requires var r := Said(reports, b, s.pending.entries[b], s.orders[s.pending.entries[b]]);
             news == if r.Some? then [r.value.1] else []
    requires forall i :: 0 <= i < |before| ==> TellsTruth(s, reports, before[i])
    ensures forall i :: 0 <= i < |events| ==> TellsTruth(s, reports, events[i])
    ensures forall other :: ToldOf(s, reports, before, other) ==> ToldOf(s, reports, events, other)
    ensures b in reports && SaysFilled(reports[b]) ==> ToldOf(s, reports, events, b)
  {
    forall other | ToldOf(s, reports, before, other) ensures ToldOf(s, reports, events, other) {
      var i :| 0 <= i < |before| && FillAsReported(s, reports, before[i], other);
      assert FillAsReported(s, reports, events[i], other);
    }
    if b in reports && SaysFilled(reports[b]) { assert FillAsReported(s, reports, events[|before|], b); }
  }

  lemma FillsAreTold(s: Store, reports: Reports)
    requires StoreOk(s)
    ensures TellsFills(s, reports, PublishedBy(s, reports))
  {
    FirstAreTold(s, reports, |s.pending.order|);
    forall b | b in s.pending.entries && b in reports && SaysFilled(reports[b])
      ensures ToldOf(s, reports, PublishedBy(s, reports), b)
    {
      assert b in s.pending.order;
      var j :| 0 <= j < |s.pending.order| && s.pending.order[j] == b;
    }
  }

  /** A poll: all tracked orders in turn, and then the finished ones taken off the list. */
  method PollAll(before: Store, reports: Reports) returns (after: Store)
    requires StoreOk(before)
    ensures StoreOk(after) && PolledAsTold(before, after, reports)
  {
    var s, completed := PollEach(before, reports);
    after := LetGo(s, completed);
    PollEnds(before, s, reports, completed, after);
  }

  /** The tracking loop; it leaves the list of the finished orders behind. */
  method PollEach(before: Store, reports: Reports) returns (s: Store, completed: seq<int>)
    requires StoreOk(before)
    ensures Polling(before, s, reports, completed, |before.pending.order|)
    ensures s.events == before.events + PublishedBy(before, reports)
  {
    s, completed := before, [];
    StartPolling(before, reports);
    var i := 0;
    while i < |s.pending.order|
      invariant Polling(before, s, reports, completed, i)
      invariant s.events == before.events + Published(before, reports, i)
    {
      s, completed := PollStep(before, s, reports, completed, i);
      i := i + 1;
    }
    assert i == |before.pending.order|;
  }

  /** What a poll leaves: exactly the tracked orders whose report ends them are ended and let go of, and published. */
  ghost predicate PolledAsTold(s: Store, t: Store, reports: Reports) {
    && StoreOk(s) && PolledFrom(s, t) && t.events == s.events + PublishedBy(s, reports)
    && forall b :: b in s.pending.entries ==> EndedAsTold(s, t, reports, b)
  }

  ghost predicate EndedAsTold(s: Store, t: Store, reports: Reports, b: int)
    requires b in s.pending.entries
  {
    Handled(s, t, reports, b, true) && (b in t.pending.entries <==> !SaidEnd(s, reports, b))
  }

  /** One tracked order's turn: nothing, or its end written down and its broker id put on the list. */
  method PollStep(before: Store, s: Store, reports: Reports, completed: seq<int>, i: nat) returns (next: Store, done: seq<int>)
    requires StoreOk(before) && Polling(before, s, reports, completed, i) && i < |s.pending.order|
    requires s.events == before.events + Published(before, reports, i)
    ensures Polling(before, next, reports, done, i + 1)
    ensures next.events == before.events + Published(before, reports, i + 1)
  {
    var b := s.pending.order[i];
    PollOne(before, s, reports, completed, i);
    OnePublished(before, s, reports, i);
    var id := s.pending.entries[b];
    var r := if b in reports then Report(id, s.orders[id], reports[b]) else None;
    if r.None? {
      return s, completed;
    }
    next := Noted(s, id, r.value.0, r.value.1);
    done := completed + [b];
  }

  lemma OnePublished(s: Store, t: Store, reports: Reports, i: nat)
    requires StoreOk(s) && HandledUpTo(s, t, reports, i) && i < |s.pending.order|
    ensures var b := s.pending.order[i];
            var id := s.pending.entries[b];
            && id in t.orders && t.orders[id].broker == Some(b)
            && var r := Said(reports, b, id, t.orders[id]);
               s.events + Published(s, reports, i + 1) ==
                 if r.Some? then (s.events + Published(s, reports, i)) + [r.value.1] else s.events + Published(s, reports, i)
  {
    assert Handled(s, t, reports, s.pending.order[i], i < i);
    var r := Said(reports, s.pending.order[i], s.pending.entries[s.pending.order[i]], t.orders[s.pending.entries[s.pending.order[i]]]);
    if r.None? { assert Published(s, reports, i) + [] == Published(s, reports, i); }
  }

  method LetGo(s: Store, completed: seq<int>) returns (t: Store)
    ensures t == s.(pending := Untracked(s.pending, completed))
  {
    t := s;
    var i := 0;
    while i < |completed|
      invariant 0 <= i <= |completed| && t == s.(pending := Untracked(s.pending, completed[..i]))
    {
      assert completed[..i + 1][..i] == completed[..i];
      t := t.(pending := t.pending.Remove(completed[i]));
      i := i + 1;
    }
    assert completed[..i] == completed;
  }

  lemma PollEnds(s: Store, t: Store, reports: Reports, completed: seq<int>, u: Store)
    requires StoreOk(s) && Polling(s, t, reports, completed, |s.pending.order|)
    requires t.events == s.events + PublishedBy(s, reports) && u == t.(pending := Untracked(s.pending, completed))
    ensures StoreOk(u) && PolledAsTold(s, u, reports)
  {
    UntrackedLaws(s.pending, completed);
    forall b | b in s.pending.entries ensures EndedAsTold(s, u, reports, b) {
      assert b in s.pending.order;
      var j :| 0 <= j < |s.pending.order| && s.pending.order[j] == b;
      assert Handled(s, t, reports, s.pending.order[j], j < |s.pending.order|);
    }
  }
}
