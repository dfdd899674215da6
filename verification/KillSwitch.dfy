/** The kill switch: closes every position at market, trying three times, and shuts the gate. */
module KillSwitching {
  import opened Collections
  import opened Ledger
  import opened PaperBroker

  /** What an activation reports. */
  datatype Summary = Summary(ordersCancelled: nat, positionsClosed: nat, errors: nat, success: bool)

  const MAX_ATTEMPTS := 3

  // ---- What closing does to the book ----

  ghost predicate ClosedIn(fills: seq<BrokerFill>, symbol: string) {
    exists i :: 0 <= i < |fills| && fills[i].symbol == symbol
  }

  lemma ClosedInGrows(fills: seq<BrokerFill>, f: BrokerFill, symbol: string)
    ensures ClosedIn(fills + [f], symbol) <==> ClosedIn(fills, symbol) || symbol == f.symbol
  {
    var more := fills + [f];
    if ClosedIn(fills, symbol) {
      var i :| 0 <= i < |fills| && fills[i].symbol == symbol;
      assert more[i].symbol == symbol;
    }
    assert more[|fills|] == f;
  }

  ghost function Qty(positions: Register, symbol: string): int { Held(positions, symbol).quantity }

  /** A fill undoes the position its symbol had at first. */
  ghost predicate Undoes(f: BrokerFill, start: Register) {
    f.lot.signed == -Qty(start, f.symbol) && f.lot.signed != 0
  }

  /** The book is what it was at first except that the symbols in `fills` were each closed by one order. */
  ghost predicate Flattened(start: Register, positions: Register, fills: seq<BrokerFill>) {
    && positions.Valid() && start.order == positions.order && start.entries.Keys == positions.entries.Keys
    && (forall i, j :: 0 <= i < j < |fills| ==> fills[i].symbol != fills[j].symbol)
    && (forall i :: 0 <= i < |fills| ==> Undoes(fills[i], start))
    && (forall s :: FlatOrSame(start, positions, fills, s))
  }

  ghost predicate FlatOrSame(start: Register, positions: Register, fills: seq<BrokerFill>, symbol: string) {
    if ClosedIn(fills, symbol) then Qty(positions, symbol) == 0 else Held(positions, symbol) == Held(start, symbol)
  }

  /** Every fill is that of a market order, at the last traded price of its symbol less the slippage. */
  ghost predicate AtMarket(fills: seq<BrokerFill>, ltps: map<string, real>) {
    forall i :: 0 <= i < |fills| ==> FilledAtMarket(fills[i], ltps)
  }

  ghost predicate FilledAtMarket(f: BrokerFill, ltps: map<string, real>) {
    f.symbol in ltps && FilledFairly(f.lot, MARKET, 0.0, ltps[f.symbol])
  }

  lemma OneMoreClosed(start: Register, positions: Register, fills: seq<BrokerFill>, after: Register, f: BrokerFill)
    requires Flattened(start, positions, fills) && f.symbol in positions.entries
    requires f.lot.signed == -Qty(positions, f.symbol) && f.lot.signed != 0
    requires f.symbol in after.entries && after == positions.Put(f.symbol, after.entries[f.symbol])
    requires Settles(Held(positions, f.symbol), f.lot, after.entries[f.symbol].Holding())
    ensures Flattened(start, after, fills + [f])
    ensures forall s :: ClosedIn(fills + [f], s) <==> ClosedIn(fills, s) || s == f.symbol
  {
    var more := fills + [f];
    positions.PutKeepsOrder(f.symbol, after.entries[f.symbol]);
    assert FlatOrSame(start, positions, fills, f.symbol) && !ClosedIn(fills, f.symbol);
    forall s ensures ClosedIn(more, s) <==> ClosedIn(fills, s) || s == f.symbol { ClosedInGrows(fills, f, s); }
    forall i, j | 0 <= i < j < |more| ensures more[i].symbol != more[j].symbol {
      if j == |fills| { assert more[i] == fills[i]; }
    }
    forall s ensures FlatOrSame(start, after, more, s) {
      if s != f.symbol { assert FlatOrSame(start, positions, fills, s) && Held(after, s) == Held(positions, s); }
    }
  }

  // ---- One attempt ----

  /** Whether an attempt closes a symbol: it is open, priced, and the broker takes the order. */
  ghost predicate Closes(positions: Register, ltps: map<string, real>, refuses: string -> bool, symbol: string) {
    Qty(positions, symbol) != 0 && symbol in ltps && ltps[symbol] > 0.0 && !refuses(symbol)
  }

  /** The symbols closed after an attempt over the first n of its positions. */
  ghost predicate RoundAt(round: Register, ltps: map<string, real>, refuses: string -> bool, before: seq<BrokerFill>,
                          now: seq<BrokerFill>, n: nat)
    requires n <= |round.order|
  {
    forall s :: ClosedIn(now, s) <==>
      ClosedIn(before, s) || (s in round.order[..n] && Closes(round, ltps, refuses, s))
  }

  /** The position is still as this attempt found it. */
  lemma NotYetReached(start: Register, round: Register, positions: Register, ltps: map<string, real>,
                      refuses: string -> bool, before: seq<BrokerFill>, now: seq<BrokerFill>, n: nat)
    requires round.Valid() && n < |round.order| && RoundAt(round, ltps, refuses, before, now, n)
    requires Flattened(start, round, before) && Flattened(start, positions, now)
    ensures Held(positions, round.order[n]) == Held(round, round.order[n])
            || (Qty(round, round.order[n]) == 0 && Qty(positions, round.order[n]) == 0)
    ensures Qty(round, round.order[n]) != 0 ==> !ClosedIn(now, round.order[n])
  {
    var s := round.order[n];
    assert s !in round.order[..n];
    assert ClosedIn(now, s) <==> ClosedIn(before, s);
    assert FlatOrSame(start, round, before, s) && FlatOrSame(start, positions, now, s);
  }

  lemma StaysFlat(start: Register, round: Register, positions: Register, before: seq<BrokerFill>, now: seq<BrokerFill>, s: string)
    requires Flattened(start, round, before) && Flattened(start, positions, now) && Qty(round, s) == 0
    requires ClosedIn(before, s) ==> ClosedIn(now, s)
    ensures Qty(positions, s) == 0
  {
    assert FlatOrSame(start, round, before, s);
    assert FlatOrSame(start, positions, now, s);
  }

  lemma NextRoundAt(round: Register, ltps: map<string, real>, refuses: string -> bool, before: seq<BrokerFill>,
                    now: seq<BrokerFill>, next: seq<BrokerFill>, n: nat)
    requires n < |round.order| && RoundAt(round, ltps, refuses, before, now, n)
    requires forall s :: ClosedIn(next, s) <==>
               ClosedIn(now, s) || (s == round.order[n] && Closes(round, ltps, refuses, s))
    ensures RoundAt(round, ltps, refuses, before, next, n + 1)
  {
    assert round.order[..n + 1] == round.order[..n] + [round.order[n]];
  }

  /** At the end of an attempt every open symbol has been reached. */
  lemma RoundDone(round: Register, ltps: map<string, real>, refuses: string -> bool, before: seq<BrokerFill>, now: seq<BrokerFill>)
    requires round.Valid() && RoundAt(round, ltps, refuses, before, now, |round.order|)
    ensures forall s :: ClosedIn(now, s) <==> ClosedIn(before, s) || Closes(round, ltps, refuses, s)
  {
    assert round.order[..|round.order|] == round.order;
    forall s | Closes(round, ltps, refuses, s) ensures s in round.order {
      assert s in round.entries;
    }
  }

  /** A round that found nothing open leaves nothing open. */
  lemma StillNothingOpen(start: Register, round: Register, positions: Register, before: seq<BrokerFill>, now: seq<BrokerFill>)
    requires Flattened(start, round, before) && Flattened(start, positions, now) && NothingOpen(round)
    requires forall s :: ClosedIn(before, s) ==> ClosedIn(now, s)
    ensures NothingOpen(positions)
  {
    forall s ensures Qty(positions, s) == 0 {
      assert Qty(round, s) == 0;
      assert FlatOrSame(start, round, before, s);
      assert FlatOrSame(start, positions, now, s);
    }
  }

  lemma {:induction false} NoneOpen(order: seq<string>, positions: Register, n: nat)
    requires n <= |order|
    ensures OpenAmong(order, positions, n) == 0 <==> forall i :: 0 <= i < n ==> Qty(positions, order[i]) == 0
  {
    if n > 0 { NoneOpen(order, positions, n - 1); }
  }

  lemma CountedNone(positions: Register)
    requires positions.Valid()
    ensures OpenCount(positions) == 0 <==> NothingOpen(positions)
  {
    NoneOpen(positions.order, positions, |positions.order|);
    forall s | Qty(positions, s) != 0 ensures s in positions.order {
      assert s in positions.entries;
    }
  }

  /** When the first attempt takes all there is, everything ends flat. */
  lemma EndsFlat(start: Register, positions: Register, ltps: map<string, real>, fetchFails: int -> bool,
                 refuses: (int, string) -> bool, fills: seq<BrokerFill>)
    requires Flattened(start, positions, fills) && ClosedAsTaken(start, ltps, fetchFails, refuses, fills, MAX_ATTEMPTS)
    requires !fetchFails(1) && AllTakenAtOnce(start, ltps, refuses)
    ensures NothingOpen(positions)
  {
    forall s ensures Qty(positions, s) == 0 {
      assert FlatOrSame(start, positions, fills, s);
      if Qty(start, s) != 0 {
        assert Takes(fetchFails, refuses, 1, s);
        assert Succeeds(start, ltps, fetchFails, refuses, s, MAX_ATTEMPTS);
        assert ClosedIn(fills, s);
      } else {
        assert FlatOrSame(start, positions, fills, s);
      }
    }
  }

  lemma EntriesAreNamed(positions: Register, history: seq<BrokerFill>)
    requires Consistent(positions, history)
    ensures forall s :: s in positions.entries ==> positions.entries[s].symbol == s
  {
    forall s | s in positions.entries ensures positions.entries[s].symbol == s {
      assert ConsistentAt(positions, history, s);
    }
  }

  // ---- All attempts ----

  /** Whether the n-th attempt takes an order on a symbol. */
  ghost predicate Takes(fetchFails: int -> bool, refuses: (int, string) -> bool, attempt: int, symbol: string) {
    !fetchFails(attempt) && !refuses(attempt, symbol)
  }

  /** The close of a symbol goes through in one of the first n attempts. */
  ghost predicate Succeeds(start: Register, ltps: map<string, real>, fetchFails: int -> bool,
                           refuses: (int, string) -> bool, symbol: string, n: int) {
    && Qty(start, symbol) != 0 && symbol in ltps && ltps[symbol] > 0.0
    && exists a :: 1 <= a <= n && Takes(fetchFails, refuses, a, symbol)
  }

  ghost predicate ClosedAsTaken(start: Register, ltps: map<string, real>, fetchFails: int -> bool,
                                refuses: (int, string) -> bool, fills: seq<BrokerFill>, n: int) {
    forall s :: ClosedIn(fills, s) <==> Succeeds(start, ltps, fetchFails, refuses, s, n)
  }

  lemma NextAttempt(start: Register, round: Register, ltps: map<string, real>, fetchFails: int -> bool,
                    refuses: (int, string) -> bool, before: seq<BrokerFill>, now: seq<BrokerFill>, n: int)
    requires n >= 1 && Flattened(start, round, before)
    requires ClosedAsTaken(start, ltps, fetchFails, refuses, before, n - 1)
    requires if fetchFails(n) then now == before
             else forall s :: ClosedIn(now, s) <==> ClosedIn(before, s) || Closes(round, ltps, x => refuses(n, x), s)
    ensures ClosedAsTaken(start, ltps, fetchFails, refuses, now, n)
  {
    forall s ensures ClosedIn(now, s) <==> Succeeds(start, ltps, fetchFails, refuses, s, n) {
      assert ClosedIn(before, s) <==> Succeeds(start, ltps, fetchFails, refuses, s, n - 1);
      assert FlatOrSame(start, round, before, s);
      if ClosedIn(now, s) && !ClosedIn(before, s) {
        assert Takes(fetchFails, refuses, n, s);
      }
    }
  }

  /** With nothing left open, further attempts have nothing to close. */
  lemma NothingLeft(start: Register, round: Register, ltps: map<string, real>, fetchFails: int -> bool,
                    refuses: (int, string) -> bool, fills: seq<BrokerFill>, n: int, m: int)
    requires n <= m && Flattened(start, round, fills) && ClosedAsTaken(start, ltps, fetchFails, refuses, fills, n)
    requires forall s :: Qty(round, s) == 0
    ensures ClosedAsTaken(start, ltps, fetchFails, refuses, fills, m)
  {
    forall s ensures ClosedIn(fills, s) <==> Succeeds(start, ltps, fetchFails, refuses, s, m) {
      assert ClosedIn(fills, s) <==> Succeeds(start, ltps, fetchFails, refuses, s, n);
      assert FlatOrSame(start, round, fills, s) && Qty(round, s) == 0;
    }
  }

  predicate IsOpen(o: BrokerOrder) { o.status == "OPEN" || o.status == "TRIGGER PENDING" || o.status == "OPEN PENDING" }

  predicate Cancellable(o: BrokerOrder, refuses: string -> bool) { IsOpen(o) && !refuses(o.id) }

  /** The ids of those of the first n orders that are open and may be cancelled. */
  ghost function ToCancel(orders: seq<BrokerOrder>, refuses: string -> bool, n: nat): set<string>
    requires n <= |orders|
  {
    if n == 0 then {}
    else ToCancel(orders, refuses, n - 1) + if Cancellable(orders[n - 1], refuses) then {orders[n - 1].id} else {}
  }

  /** How many of the first n orders are open and cannot be cancelled. */
  ghost function Stuck(orders: seq<BrokerOrder>, refuses: string -> bool, n: nat): nat
    requires n <= |orders|
  {
    if n == 0 then 0 else Stuck(orders, refuses, n - 1) + if IsOpen(orders[n - 1]) && refuses(orders[n - 1].id) then 1 else 0
  }

  /** The same orders, but for those under certain ids, which read CANCELLED. */
  ghost predicate CancelledOnly(before: seq<BrokerOrder>, after: seq<BrokerOrder>, ids: set<string>) {
    |after| == |before| && forall i :: 0 <= i < |after| ==> ReadsAs(before, after, ids, i)
  }

  ghost predicate ReadsAs(before: seq<BrokerOrder>, after: seq<BrokerOrder>, ids: set<string>, i: nat)
    requires i < |before| == |after|
  {
    after[i] == if before[i].id in ids then before[i].(status := "CANCELLED") else before[i]
  }

  lemma {:induction false} ToCancelIff(orders: seq<BrokerOrder>, refuses: string -> bool, n: nat)
    requires n <= |orders|
    ensures forall i :: 0 <= i < n && Cancellable(orders[i], refuses) ==> orders[i].id in ToCancel(orders, refuses, n)
    ensures forall id :: id in ToCancel(orders, refuses, n) ==> !refuses(id)
    ensures Stuck(orders, refuses, n) == 0 <==> forall i :: 0 <= i < n && IsOpen(orders[i]) ==> !refuses(orders[i].id)
  {
    if n > 0 { ToCancelIff(orders, refuses, n - 1); }
  }

  ghost predicate WasOpen(orders: seq<BrokerOrder>, id: string) {
    exists i :: 0 <= i < |orders| && orders[i].id == id && orders[i].status in {"OPEN", "OPEN PENDING", "TRIGGER PENDING"}
  }

  /** Only open orders are cancelled. */
  lemma {:induction false} OnlyOpenAreCancelled(orders: seq<BrokerOrder>, refuses: string -> bool, n: nat)
    requires n <= |orders|
    ensures forall id :: id in ToCancel(orders, refuses, n) ==> WasOpen(orders, id)
  {
    if n > 0 {
      OnlyOpenAreCancelled(orders, refuses, n - 1);
      var o := orders[n - 1];
      if Cancellable(o, refuses) { assert WasOpen(orders, o.id); }
    }
  }

  /** What the n-th order adds to the ids cancelled and to the orders stuck, as it reads when its turn comes. */
  lemma CancelTurn(before: seq<BrokerOrder>, now: seq<BrokerOrder>, refuses: string -> bool, n: nat)
    requires n < |before| && CancelledOnly(before, now, ToCancel(before, refuses, n))
    ensures var ids, id := ToCancel(before, refuses, n), before[n].id;
            && now[n].id == id
            && ToCancel(before, refuses, n + 1) == (if Cancellable(now[n], refuses) then ids + {id} else ids)
            && (Cancellable(now[n], refuses) ==> id !in ids)
            && Stuck(before, refuses, n + 1) == Stuck(before, refuses, n) + if IsOpen(now[n]) && refuses(id) then 1 else 0
  {
    ToCancelIff(before, refuses, n);
    var ids, id := ToCancel(before, refuses, n), before[n].id;
    assert ReadsAs(before, now, ids, n);
    if Cancellable(before[n], refuses) && !IsOpen(now[n]) { assert ids + {id} == ids; }
  }

  lemma CancelOne(before: seq<BrokerOrder>, now: seq<BrokerOrder>, next: seq<BrokerOrder>, ids: set<string>, id: string)
    requires CancelledOnly(before, now, ids) && CancelledOnly(now, next, {id})
    ensures CancelledOnly(before, next, ids + {id})
  {
    forall i | 0 <= i < |next| ensures ReadsAs(before, next, ids + {id}, i) {
      assert ReadsAs(before, now, ids, i) && ReadsAs(now, next, {id}, i);
    }
  }

  lemma OpenOnesAreStuck(before: seq<BrokerOrder>, after: seq<BrokerOrder>, refuses: string -> bool)
    requires CancelledOnly(before, after, ToCancel(before, refuses, |before|))
    ensures forall i :: 0 <= i < |after| && IsOpen(after[i]) ==> refuses(after[i].id)
  {
    ToCancelIff(before, refuses, |before|);
    forall i | 0 <= i < |after| && IsOpen(after[i]) ensures refuses(after[i].id) {
      assert ReadsAs(before, after, ToCancel(before, refuses, |before|), i);
    }
  }

  // ---- Counting what is open ----

  ghost function OpenAmong(order: seq<string>, positions: Register, n: nat): nat
    requires n <= |order|
  {
    if n == 0 then 0 else OpenAmong(order, positions, n - 1) + if Qty(positions, order[n - 1]) != 0 then 1 else 0
  }

  /** How many symbols of a book are open. */
  ghost function OpenCount(positions: Register): nat { OpenAmong(positions.order, positions, |positions.order|) }

  lemma {:induction false} SameCount(order: seq<string>, a: Register, b: Register, n: nat)
    requires n <= |order| && forall i :: 0 <= i < n ==> (Qty(a, order[i]) != 0 <==> Qty(b, order[i]) != 0)
    ensures OpenAmong(order, a, n) == OpenAmong(order, b, n)
  {
    if n > 0 { SameCount(order, a, b, n - 1); }
  }

  lemma CountOne(order: seq<string>, before: Register, after: Register, n: nat, ok: bool)
    requires Distinct(order) && n < |order| && Qty(before, order[n]) != 0
    requires forall s :: s != order[n] ==> Held(after, s) == Held(before, s)
    requires if ok then Qty(after, order[n]) == 0 else after == before
    ensures OpenAmong(order, after, n + 1) == OpenAmong(order, before, n) + if ok then 0 else 1
  {
    forall i | 0 <= i < n ensures Qty(after, order[i]) == Qty(before, order[i]) {
      assert order[i] != order[n];
    }
    SameCount(order, before, after, n);
  }

  // ---- Errors ----

  ghost predicate Left(start: Register, ltps: map<string, real>, fetchFails: int -> bool,
                       refuses: (int, string) -> bool, attempt: int, symbol: string) {
    Qty(start, symbol) != 0 && !Succeeds(start, ltps, fetchFails, refuses, symbol, attempt - 1)
  }

  /** How many of the first n symbols are still open before an attempt. */
  ghost function LeftAmong(start: Register, ltps: map<string, real>, fetchFails: int -> bool,
                           refuses: (int, string) -> bool, attempt: int, n: nat): nat
    requires n <= |start.order|
  {
    if n == 0 then 0
    else LeftAmong(start, ltps, fetchFails, refuses, attempt, n - 1)
         + if Left(start, ltps, fetchFails, refuses, attempt, start.order[n - 1]) then 1 else 0
  }

  ghost function LeftBefore(start: Register, ltps: map<string, real>, fetchFails: int -> bool,
                            refuses: (int, string) -> bool, attempt: int): nat {
    LeftAmong(start, ltps, fetchFails, refuses, attempt, |start.order|)
  }

  /** What the attempts from this one on report as errors: one for a fetch that fails, otherwise one for each symbol that
      stays open; an attempt that finds nothing open is the last. */
  ghost function ErrorsFrom(start: Register, ltps: map<string, real>, fetchFails: int -> bool,
                            refuses: (int, string) -> bool, attempt: int): nat
    decreases MAX_ATTEMPTS - attempt
  {
    if attempt > MAX_ATTEMPTS then 0
    else if fetchFails(attempt) then 1 + ErrorsFrom(start, ltps, fetchFails, refuses, attempt + 1)
    else if LeftBefore(start, ltps, fetchFails, refuses, attempt) == 0 then 0
    else LeftBefore(start, ltps, fetchFails, refuses, attempt + 1) + ErrorsFrom(start, ltps, fetchFails, refuses, attempt + 1)
  }

  lemma {:induction false} CountLeft(start: Register, positions: Register, ltps: map<string, real>, fetchFails: int -> bool,
                                     refuses: (int, string) -> bool, fills: seq<BrokerFill>, attempt: int, n: nat)
    requires Flattened(start, positions, fills) && ClosedAsTaken(start, ltps, fetchFails, refuses, fills, attempt - 1)
    requires n <= |start.order|
    ensures OpenAmong(positions.order, positions, n) == LeftAmong(start, ltps, fetchFails, refuses, attempt, n)
  {
    if n > 0 {
      CountLeft(start, positions, ltps, fetchFails, refuses, fills, attempt, n - 1);
      var s := start.order[n - 1];
      assert FlatOrSame(start, positions, fills, s);
      assert ClosedIn(fills, s) <==> Succeeds(start, ltps, fetchFails, refuses, s, attempt - 1);
    }
  }

  lemma OpenIsLeft(start: Register, positions: Register, ltps: map<string, real>, fetchFails: int -> bool,
                   refuses: (int, string) -> bool, fills: seq<BrokerFill>, attempt: int)
    requires Flattened(start, positions, fills) && ClosedAsTaken(start, ltps, fetchFails, refuses, fills, attempt - 1)
    ensures OpenCount(positions) == LeftBefore(start, ltps, fetchFails, refuses, attempt)
  {
    CountLeft(start, positions, ltps, fetchFails, refuses, fills, attempt, |start.order|);
  }

  lemma {:induction false} NoneLeft(start: Register, ltps: map<string, real>, fetchFails: int -> bool,
                                    refuses: (int, string) -> bool, attempt: int, n: nat)
    requires n <= |start.order|
    ensures LeftAmong(start, ltps, fetchFails, refuses, attempt, n) == 0 <==>
            forall i :: 0 <= i < n ==> !Left(start, ltps, fetchFails, refuses, attempt, start.order[i])
  {
    if n > 0 { NoneLeft(start, ltps, fetchFails, refuses, attempt, n - 1); }
  }

  /** The same of all symbols: those that are open are all in the order of the book. */
  lemma NothingLeftIff(start: Register, ltps: map<string, real>, fetchFails: int -> bool,
                       refuses: (int, string) -> bool, attempt: int)
    requires start.Valid()
    ensures LeftBefore(start, ltps, fetchFails, refuses, attempt) == 0 <==>
            forall s :: !Left(start, ltps, fetchFails, refuses, attempt, s)
  {
    NoneLeft(start, ltps, fetchFails, refuses, attempt, |start.order|);
    forall s | Left(start, ltps, fetchFails, refuses, attempt, s) ensures s in start.order {
      assert s in start.entries;
    }
  }

  /** Every open symbol is priced and taken at the first attempt. */
  ghost predicate AllTakenAtOnce(start: Register, ltps: map<string, real>, refuses: (int, string) -> bool) {
    forall s :: Qty(start, s) != 0 ==> s in ltps && ltps[s] > 0.0 && !refuses(1, s)
  }

  ghost predicate NothingOpen(positions: Register) { forall s :: Qty(positions, s) == 0 }

  /** No error is reported exactly when the first attempt can be made and closes all there is, and the second, which is
      only made if there was anything, can be made too. A retry that succeeds is reported as a failure all the same. */
  lemma NoErrorIff(start: Register, ltps: map<string, real>, fetchFails: int -> bool, refuses: (int, string) -> bool)
    requires start.Valid()
    ensures ErrorsFrom(start, ltps, fetchFails, refuses, 1) == 0 <==>
            && !fetchFails(1) && AllTakenAtOnce(start, ltps, refuses)
            && (NothingOpen(start) || !fetchFails(2))
  {
    NothingLeftIff(start, ltps, fetchFails, refuses, 1);
    NothingLeftIff(start, ltps, fetchFails, refuses, 2);
    forall s ensures Left(start, ltps, fetchFails, refuses, 1, s) <==> Qty(start, s) != 0 {
    }
    if !fetchFails(1) {
      forall s
        ensures Left(start, ltps, fetchFails, refuses, 2, s) <==>
                Qty(start, s) != 0 && !(s in ltps && ltps[s] > 0.0 && !refuses(1, s))
      {
        assert Takes(fetchFails, refuses, 1, s) <==> !refuses(1, s);
      }
    }
  }

  /** One unit of X is open, and the broker refuses the first try only: the second closes it, and an error is reported. */
  lemma RetriedIsReported()
    ensures var start, ltps := OrderedDict(["X"], map["X" := PaperPosition("X", 1, 100.0, 0.0)]), map["X" := 100.0];
            var reachable, refuses := (attempt: int) => false, (attempt: int, symbol: string) => attempt == 1;
            && (forall s :: Qty(start, s) != 0 <==> s == "X")
            && Succeeds(start, ltps, reachable, refuses, "X", MAX_ATTEMPTS)
            && ErrorsFrom(start, ltps, reachable, refuses, 1) == 1
  {
    var start, ltps := OrderedDict(["X"], map["X" := PaperPosition("X", 1, 100.0, 0.0)]), map["X" := 100.0];
    var reachable, refuses := (attempt: int) => false, (attempt: int, symbol: string) => attempt == 1;
    assert Takes(reachable, refuses, 2, "X");
    assert forall a :: 1 <= a <= 1 ==> !Takes(reachable, refuses, a, "X");
    assert LeftBefore(start, ltps, reachable, refuses, 1) == 1;
    assert LeftBefore(start, ltps, reachable, refuses, 2) == 1;
    assert LeftBefore(start, ltps, reachable, refuses, 3) == 0;
    assert ErrorsFrom(start, ltps, reachable, refuses, 3) == 0;
  }

  class KillSwitch {
    var activated: bool

    constructor ()
      ensures !activated
    {
      activated := false;
    }

    method Reset()
      modifies this
      ensures !activated
    {
      activated := false;
    }

    /** The order whose turn it is. */
    method CancelIfOpen(broker: PaperBrokerClient, refuses: string -> bool, i: nat, ghost before: seq<BrokerOrder>)
      returns (done: nat, failed: nat)
      requires broker.Valid() && i < |broker.orders| == |before|
      requires CancelledOnly(before, broker.orders, ToCancel(before, refuses, i))
      modifies broker`orders
      ensures broker.Valid() && |broker.orders| == |before|
      ensures CancelledOnly(before, broker.orders, ToCancel(before, refuses, i + 1))
      ensures |ToCancel(before, refuses, i + 1)| == |ToCancel(before, refuses, i)| + done
      ensures Stuck(before, refuses, i + 1) == Stuck(before, refuses, i) + failed
    {
      done, failed := 0, 0;
      ghost var now := broker.orders;
      CancelTurn(before, now, refuses, i);
      if IsOpen(broker.orders[i]) {
        if refuses(broker.orders[i].id) {
          failed := 1;
        } else {
          broker.CancelOrder(broker.orders[i].id);
          assert forall j :: 0 <= j < |now| ==> ReadsAs(now, broker.orders, {now[i].id}, j);
          CancelOne(before, now, broker.orders, ToCancel(before, refuses, i), now[i].id);
          done := 1;
        }
      }
    }

    /** Cancels whatever is still open at the broker and can be; positions are not touched. */
    method CancelOpenOrders(broker: PaperBrokerClient, refuses: string -> bool) returns (cancelled: nat, errors: nat)
      requires broker.Valid()
      modifies broker`orders
      ensures broker.Valid()
      ensures CancelledOnly(old(broker.orders), broker.orders, ToCancel(old(broker.orders), refuses, |old(broker.orders)|))
      ensures cancelled == |ToCancel(old(broker.orders), refuses, |old(broker.orders)|)|
      ensures errors == Stuck(old(broker.orders), refuses, |old(broker.orders)|)
      ensures forall i :: 0 <= i < |broker.orders| && broker.orders[i].status in {"OPEN", "OPEN PENDING", "TRIGGER PENDING"} ==>
        refuses(broker.orders[i].id)
      ensures forall i :: 0 <= i < |broker.orders| && broker.orders[i] != old(broker.orders)[i] ==>
        WasOpen(old(broker.orders), broker.orders[i].id)
    {
      cancelled, errors := 0, 0;
      ghost var before := broker.orders;
      var i := 0;
      while i < |broker.orders|
        invariant 0 <= i <= |broker.orders| == |before| && broker.Valid()
        invariant CancelledOnly(before, broker.orders, ToCancel(before, refuses, i))
        invariant cancelled == |ToCancel(before, refuses, i)| && errors == Stuck(before, refuses, i)
        decreases |broker.orders| - i
      {
        var done, failed := CancelIfOpen(broker, refuses, i, before);
        cancelled, errors := cancelled + done, errors + failed;
        i := i + 1;
      }
      OpenOnesAreStuck(before, broker.orders, refuses);
      OnlyOpenAreCancelled(before, refuses, |before|);
      forall j | 0 <= j < |broker.orders| && broker.orders[j] != before[j] ensures WasOpen(before, broker.orders[j].id) {
        assert ReadsAs(before, broker.orders, ToCancel(before, refuses, |before|), j);
      }
    }

    /** A market order for the opposite of one position. */
    method CloseOne(broker: PaperBrokerClient, pos: PaperPosition, refused: bool,
                    ghost base: seq<BrokerFill>, ghost start: Register, ghost now: seq<BrokerFill>)
      returns (ok: bool, ghost next: seq<BrokerFill>)
      requires broker.Valid() && broker.history == base + now && Flattened(start, broker.positions, now)
      requires pos.symbol in broker.positions.entries && pos.quantity == Qty(broker.positions, pos.symbol) != 0
      requires AtMarket(now, broker.ltpCache)
      modifies broker`orders, broker`positions, broker`history
      ensures broker.Valid() && broker.history == base + next && Flattened(start, broker.positions, next)
      ensures AtMarket(next, broker.ltpCache)
      ensures ok <==> !refused && pos.symbol in broker.ltpCache && broker.ltpCache[pos.symbol] > 0.0
      ensures |next| == |now| + if ok then 1 else 0
      ensures forall s :: ClosedIn(next, s) <==> ClosedIn(now, s) || (ok && s == pos.symbol)
      ensures forall s :: s != pos.symbol ==> Held(broker.positions, s) == Held(old(broker.positions), s)
      ensures if ok then Qty(broker.positions, pos.symbol) == 0 else broker.positions == old(broker.positions)
    {
      ok, next := false, now;
      if refused {
        return;
      }
      var side := if pos.quantity > 0 then SELL else BUY;
      var id: string := *;
      ghost var before := broker.positions;
      var r := broker.PlaceOrder(id, pos.symbol, side, Abs(pos.quantity), MARKET, 0.0);
      if r.Ok? {
        ok := true;
        ghost var f := broker.history[|broker.history| - 1];
        OneMoreClosed(start, before, now, broker.positions, f);
        next := now + [f];
        assert (base + now) + [f] == base + next;
      }
    }

    /** The n-th position of an attempt. */
    method Visit(broker: PaperBrokerClient, pos: PaperPosition, refuses: string -> bool, ghost base: seq<BrokerFill>,
                 ghost start: Register, ghost round: Register, ghost before: seq<BrokerFill>, ghost now: seq<BrokerFill>,
                 ghost n: nat)
      returns (found: nat, closed: nat, ghost next: seq<BrokerFill>)
      requires broker.Valid() && broker.history == base + now && round.Valid() && n < |round.order|
      requires pos == round.entries[round.order[n]] && pos.symbol == round.order[n]
      requires Flattened(start, round, before) && Flattened(start, broker.positions, now)
      requires RoundAt(round, broker.ltpCache, refuses, before, now, n) && AtMarket(now, broker.ltpCache)
      modifies broker`orders, broker`positions, broker`history
      ensures broker.Valid() && broker.history == base + next && Flattened(start, broker.positions, next)
      ensures AtMarket(next, broker.ltpCache)
      ensures RoundAt(round, broker.ltpCache, refuses, before, next, n + 1)
      ensures |next| == |now| + closed && closed <= found
      ensures OpenAmong(round.order, round, n + 1) == OpenAmong(round.order, round, n) + found
      ensures OpenAmong(round.order, broker.positions, n + 1)
              == OpenAmong(round.order, old(broker.positions), n) + found - closed
    {
      found, closed, next := 0, 0, now;
      if pos.quantity == 0 {
        NextRoundAt(round, broker.ltpCache, refuses, before, now, now, n);
        StaysFlat(start, round, broker.positions, before, now, round.order[n]);
        return;
      }
      NotYetReached(start, round, broker.positions, broker.ltpCache, refuses, before, now, n);
      var ok;
      ok, next := CloseOne(broker, pos, refuses(pos.symbol), base, start, now);
      NextRoundAt(round, broker.ltpCache, refuses, before, now, next, n);
      CountOne(round.order, old(broker.positions), broker.positions, n, ok);
      found, closed := 1, if ok then 1 else 0;
    }

    /** One attempt over the positions as the broker reports them when it starts: so many were open, and so many still
        are, each reported as an error. */
    method CloseAll(broker: PaperBrokerClient, refuses: string -> bool,
                    ghost base: seq<BrokerFill>, ghost start: Register, ghost before: seq<BrokerFill>)
      returns (remaining: nat, closed: nat, errors: nat, ghost now: seq<BrokerFill>)
      requires broker.Valid() && broker.history == base + before && Flattened(start, broker.positions, before)
      requires AtMarket(before, broker.ltpCache)
      modifies broker`orders, broker`positions, broker`history
      ensures broker.Valid() && broker.history == base + now && Flattened(start, broker.positions, now)
      ensures AtMarket(now, broker.ltpCache)
      ensures closed == |now| - |before|
      ensures forall s :: ClosedIn(now, s) <==>
        ClosedIn(before, s) || Closes(old(broker.positions), broker.ltpCache, refuses, s)
      ensures remaining == OpenCount(old(broker.positions)) && errors == OpenCount(broker.positions)
    {
      ghost var round := broker.positions;
      var positions := broker.GetPositions();
      EntriesAreNamed(round, broker.history);
      remaining, closed, errors, now := 0, 0, 0, before;
      var n := 0;
      while n < |positions|
        invariant 0 <= n <= |positions| == |round.order|
        invariant broker.Valid() && broker.history == base + now && Flattened(start, broker.positions, now)
        invariant closed == |now| - |before|
        invariant remaining == OpenAmong(round.order, round, n) && errors == OpenAmong(round.order, broker.positions, n)
        invariant RoundAt(round, broker.ltpCache, refuses, before, now, n) && AtMarket(now, broker.ltpCache)
      {
        var found, done;
        found, done, now := Visit(broker, positions[n], refuses, base, start, round, before, now, n);
        remaining, closed, errors := remaining + found, closed + done, errors + found - done;
        n := n + 1;
      }
      RoundDone(round, broker.ltpCache, refuses, before, now);
    }

    /** One attempt, if the positions can be fetched; it is the last when it finds nothing open. */
    method AttemptToClose(broker: PaperBrokerClient, attempt: int, fetchFails: int -> bool, refuses: (int, string) -> bool,
                          ghost base: seq<BrokerFill>, ghost start: Register, ghost before: seq<BrokerFill>, ghost sofar: nat)
      returns (done: bool, closed: nat, errors: nat, ghost fills: seq<BrokerFill>)
      requires broker.Valid() && broker.history == base + before && 1 <= attempt <= MAX_ATTEMPTS
      requires Attempted(start, broker.positions, broker.ltpCache, fetchFails, refuses, before, attempt, sofar)
      requires AtMarket(before, broker.ltpCache)
      modifies broker`orders, broker`positions, broker`history
      ensures broker.Valid() && broker.history == base + fills && closed == |fills| - |before| && AtMarket(fills, broker.ltpCache)
      ensures done ==> AllAttempted(start, broker.positions, broker.ltpCache, fetchFails, refuses, fills, sofar + errors)
      ensures !done ==> Attempted(start, broker.positions, broker.ltpCache, fetchFails, refuses, fills, attempt + 1, sofar + errors)
    {
      ghost var round := broker.positions;
      if fetchFails(attempt) {
        NextAttempt(start, round, broker.ltpCache, fetchFails, refuses, before, before, attempt);
        return false, 0, 1, before;
      }
      var remaining;
      remaining, closed, errors, fills := CloseAll(broker, s => refuses(attempt, s), base, start, before);
      AfterAttempt(start, round, broker.positions, broker.ltpCache, fetchFails, refuses, before, fills, attempt, sofar, sofar + errors);
      done := remaining == 0;
    }

    /** Up to three attempts at closing everything, each over what the broker then reports. */
    method CloseRepeatedly(broker: PaperBrokerClient, fetchFails: int -> bool, refuses: (int, string) -> bool)
      returns (closed: nat, errors: nat, ghost fills: seq<BrokerFill>)
      requires broker.Valid()
      modifies broker`orders, broker`positions, broker`history
      ensures broker.Valid() && broker.history == old(broker.history) + fills && closed == |fills|
      ensures AtMarket(fills, broker.ltpCache)
      ensures AllAttempted(old(broker.positions), broker.positions, broker.ltpCache, fetchFails, refuses, fills, errors)
    {
      ghost var base, start := broker.history, broker.positions;
      closed, errors, fills := 0, 0, [];
      var attempt := 1;
      NothingClosedYet(start, broker.ltpCache, fetchFails, refuses);
      while attempt <= MAX_ATTEMPTS
        invariant 1 <= attempt <= MAX_ATTEMPTS + 1 && broker.Valid()
        invariant broker.history == base + fills && closed == |fills| && AtMarket(fills, broker.ltpCache)
        invariant Attempted(start, broker.positions, broker.ltpCache, fetchFails, refuses, fills, attempt, errors)
      {
        var done, more, failed;
        done, more, failed, fills := AttemptToClose(broker, attempt, fetchFails, refuses, base, start, fills, errors);
        closed, errors := closed + more, errors + failed;
        if done {
          break;
        }
        attempt := attempt + 1;
      }
    }

    /** Whatever fails on the way, a symbol whose close goes through in one of the three attempts ends flat after
        exactly one order against the position it had, every other position is left as it was, and what is reported is
        what happened: the symbols closed, the orders cancelled, every failure. An activation without errors leaves
        nothing open. */
    method Activate(broker: PaperBrokerClient, ordersFail: bool, cancelRefuses: string -> bool,
                    fetchFails: int -> bool, refuses: (int, string) -> bool)
      returns (summary: Summary, ghost fills: seq<BrokerFill>)
      requires broker.Valid()
      modifies this, broker`orders, broker`positions, broker`history
      ensures broker.Valid() && activated
      ensures broker.history == old(broker.history) + fills && summary.positionsClosed == |fills|
      ensures Flattened(old(broker.positions), broker.positions, fills) && AtMarket(fills, broker.ltpCache)
      ensures ClosedAsTaken(old(broker.positions), broker.ltpCache, fetchFails, refuses, fills, 3)
      ensures var orders, all := old(broker.orders), |old(broker.orders)|;
              && summary.ordersCancelled == (if ordersFail then 0 else |ToCancel(orders, cancelRefuses, all)|)
              && summary.errors == (if ordersFail then 1 else Stuck(orders, cancelRefuses, all))
                                   + ErrorsFrom(old(broker.positions), broker.ltpCache, fetchFails, refuses, 1)
      ensures summary.success <==>
        && !ordersFail
        && (forall i :: 0 <= i < |old(broker.orders)| && old(broker.orders)[i].status in {"OPEN", "OPEN PENDING", "TRIGGER PENDING"} ==>
              !cancelRefuses(old(broker.orders)[i].id))
        && !fetchFails(1) && AllTakenAtOnce(old(broker.positions), broker.ltpCache, refuses)
        && (NothingOpen(old(broker.positions)) || !fetchFails(2))
      ensures summary.success ==> NothingOpen(broker.positions)
    {
      activated := true;
      ghost var start, orders := broker.positions, broker.orders;
      var cancelled, errors := 0, 0;
      if ordersFail {
        errors := 1;
      } else {
        cancelled, errors := CancelOpenOrders(broker, cancelRefuses);
      }
      var closed, more;
      closed, more, fills := CloseRepeatedly(broker, fetchFails, refuses);
      errors := errors + more;
      summary := Summary(cancelled, closed, errors, errors == 0);
      NoErrorIff(start, broker.ltpCache, fetchFails, refuses);
      ToCancelIff(orders, cancelRefuses, |orders|);
      if errors == 0 { EndsFlat(start, broker.positions, broker.ltpCache, fetchFails, refuses, fills); }
    }
  }

  /** Before the n-th attempt: what the earlier ones took is closed, and what they failed at is counted. */
  ghost predicate Attempted(start: Register, positions: Register, ltps: map<string, real>, fetchFails: int -> bool,
                            refuses: (int, string) -> bool, fills: seq<BrokerFill>, n: int, errors: nat) {
    && Flattened(start, positions, fills) && ClosedAsTaken(start, ltps, fetchFails, refuses, fills, n - 1)
    && errors + ErrorsFrom(start, ltps, fetchFails, refuses, n) == ErrorsFrom(start, ltps, fetchFails, refuses, 1)
  }

  /** After the last attempt: what any attempt took is closed, and every failure is counted. */
  ghost predicate AllAttempted(start: Register, positions: Register, ltps: map<string, real>, fetchFails: int -> bool,
                               refuses: (int, string) -> bool, fills: seq<BrokerFill>, errors: nat) {
    && Flattened(start, positions, fills) && ClosedAsTaken(start, ltps, fetchFails, refuses, fills, MAX_ATTEMPTS)
    && errors == ErrorsFrom(start, ltps, fetchFails, refuses, 1)
  }

  /** An attempt that could be made leads to the next, or ends everything when it found nothing open. */
  lemma AfterAttempt(start: Register, round: Register, positions: Register, ltps: map<string, real>, fetchFails: int -> bool,
                     refuses: (int, string) -> bool, before: seq<BrokerFill>, fills: seq<BrokerFill>, n: int,
                     errors: nat, total: nat)
    requires 1 <= n <= MAX_ATTEMPTS && !fetchFails(n) && Attempted(start, round, ltps, fetchFails, refuses, before, n, errors)
    requires Flattened(start, positions, fills)
    requires forall s :: ClosedIn(fills, s) <==> ClosedIn(before, s) || Closes(round, ltps, x => refuses(n, x), s)
    requires total == errors + OpenCount(positions)
    ensures if OpenCount(round) == 0 then AllAttempted(start, positions, ltps, fetchFails, refuses, fills, total)
            else Attempted(start, positions, ltps, fetchFails, refuses, fills, n + 1, total)
  {
    NextAttempt(start, round, ltps, fetchFails, refuses, before, fills, n);
    OpenIsLeft(start, round, ltps, fetchFails, refuses, before, n);
    OpenIsLeft(start, positions, ltps, fetchFails, refuses, fills, n + 1);
    if OpenCount(round) == 0 {
      CountedNone(round);
      StillNothingOpen(start, round, positions, before, fills);
      CountedNone(positions);
      NothingLeft(start, positions, ltps, fetchFails, refuses, fills, n, MAX_ATTEMPTS);
    }
  }

  lemma NothingClosedYet(start: Register, ltps: map<string, real>, fetchFails: int -> bool, refuses: (int, string) -> bool)
    requires start.Valid()
    ensures Flattened(start, start, []) && ClosedAsTaken(start, ltps, fetchFails, refuses, [], 0)
  {
  }
}
