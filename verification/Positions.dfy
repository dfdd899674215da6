/** The internal position book: one position per strategy and instrument, rebuilt fill by fill. */
module Positions {
  import opened Collections
  import opened Ledger

  datatype Fill = Fill(strategy: string, token: int, symbol: string, side: Side, quantity: int, price: real)

  type Key = (string, int)

  type Register = OrderedDict<Key, Position>

  datatype Position = Position(token: int, symbol: string, strategy: string,
                               quantity: int, average: real, ltp: real, pnl: real)
  {
    function Holding(): Ledger.Holding { Ledger.Holding(quantity, average, pnl) }
  }

  ghost predicate GoodFills(history: seq<Fill>) {
    forall i :: 0 <= i < |history| ==> history[i].quantity > 0 && history[i].price > 0.0
  }

  function ToLot(f: Fill): Lot { Lot(Signed(f.side, f.quantity), f.price) }

  /** The fills of one strategy in one instrument. */
  ghost function KeyLots(history: seq<Fill>, key: Key): seq<Lot> {
    if history == [] then [] else
      var rest, last := KeyLots(history[..|history| - 1], key), history[|history| - 1];
      if (last.strategy, last.token) == key then rest + [ToLot(last)] else rest
  }

  /** The fills since the key was last flat. */
  ghost function Episode(lots: seq<Lot>): seq<Lot> {
    if lots == [] then [] else
      var e := Episode(lots[..|lots| - 1]) + [lots[|lots| - 1]];
      if NetQuantity(e) == 0 then [] else e
  }

  /** The last stretch of fills that went from flat to flat. */
  ghost function LastRoundTrip(lots: seq<Lot>): seq<Lot> {
    if lots == [] then [] else
      var past, e := lots[..|lots| - 1], Episode(lots[..|lots| - 1]) + [lots[|lots| - 1]];
      if NetQuantity(e) == 0 then e else LastRoundTrip(past)
  }

  /** Every stretch of fills that went from flat to flat, in order. */
  ghost function RoundTrips(lots: seq<Lot>): seq<seq<Lot>> {
    if lots == [] then [] else
      var past, e := lots[..|lots| - 1], Episode(lots[..|lots| - 1]) + [lots[|lots| - 1]];
      RoundTrips(past) + if NetQuantity(e) == 0 then [e] else []
  }

  ghost function CashOfTrips(trips: seq<seq<Lot>>): real {
    if trips == [] then 0.0 else CashOfTrips(trips[..|trips| - 1]) + CashFlow(trips[|trips| - 1])
  }

  lemma {:induction false} CashOfTripsConcat(a: seq<seq<Lot>>, b: seq<seq<Lot>>)
    ensures CashOfTrips(a + b) == CashOfTrips(a) + CashOfTrips(b)
  {
    if b == [] {
      assert a + b == a;
    } else {
      assert (a + b)[..|a + b| - 1] == a + b[..|b| - 1];
      CashOfTripsConcat(a, b[..|b| - 1]);
    }
  }

  lemma CashFlowGrows(lots: seq<Lot>, last: Lot)
    ensures CashFlow(lots + [last]) == CashFlow(lots) - last.signed as real * last.price
  {
    assert (lots + [last])[..|lots|] == lots;
  }

  /** The round trips and the current episode are all there is: together they have moved all the cash. */
  ghost predicate Accounted(lots: seq<Lot>) {
    && CashFlow(lots) == CashOfTrips(RoundTrips(lots)) + CashFlow(Episode(lots))
    && (RoundTrips(lots) == [] <==> LastRoundTrip(lots) == [])
    && (RoundTrips(lots) != [] ==> LastRoundTrip(lots) == RoundTrips(lots)[|RoundTrips(lots)| - 1])
  }

  lemma {:induction false} TripsAndEpisode(lots: seq<Lot>)
    ensures Accounted(lots)
  {
    if lots != [] {
      var past, last := lots[..|lots| - 1], lots[|lots| - 1];
      TripsAndEpisode(past);
      OneMoreLot(past, last, lots);
    }
  }

  lemma OneMoreLot(lots: seq<Lot>, last: Lot, more: seq<Lot>)
    requires Accounted(lots) && more == lots + [last]
    ensures Accounted(more)
  {
    var e := Episode(lots) + [last];
    EpisodeGrows(lots, last);
    CashFlowGrows(lots, last);
    CashFlowGrows(Episode(lots), last);
    if NetQuantity(e) == 0 {
      CashOfTripsConcat(RoundTrips(lots), [e]);
      assert CashOfTrips([e]) == CashFlow(e) by { assert [e][..0] == []; }
    }
  }

  lemma {:induction false} KeyLotsTradable(history: seq<Fill>, key: Key)
    requires GoodFills(history)
    ensures var lots := KeyLots(history, key); Tradable(lots) && forall i :: 0 <= i < |lots| ==> lots[i].price > 0.0
  {
    if history != [] { KeyLotsTradable(history[..|history| - 1], key); }
  }

  lemma EpisodeFacts(lots: seq<Lot>)
    requires Tradable(lots) && forall i :: 0 <= i < |lots| ==> lots[i].price > 0.0
    ensures var e := Episode(lots); Tradable(e) && forall i :: 0 <= i < |e| ==> e[i].price > 0.0
    ensures var e := LastRoundTrip(lots); Tradable(e) && (forall i :: 0 <= i < |e| ==> e[i].price > 0.0)
    ensures NetQuantity(Episode(lots)) == NetQuantity(lots)
    ensures Episode(lots) == [] <==> NetQuantity(lots) == 0
    ensures NetQuantity(LastRoundTrip(lots)) == 0
  {
    EpisodesAreMade(lots);
    EpisodeNet(lots);
  }

  ghost predicate Made(lots: seq<Lot>) { Tradable(lots) && forall i :: 0 <= i < |lots| ==> lots[i].price > 0.0 }

  lemma {:induction false} EpisodesAreMade(lots: seq<Lot>)
    requires Made(lots)
    ensures MadeOfFills(lots)
  {
    if lots != [] {
      var past, last := lots[..|lots| - 1], lots[|lots| - 1];
      EpisodesAreMade(past);
      EpisodesStayMade(past, last, lots);
    }
  }

  ghost predicate MadeOfFills(lots: seq<Lot>) { Made(Episode(lots)) && Made(LastRoundTrip(lots)) }

  lemma EpisodesStayMade(lots: seq<Lot>, last: Lot, more: seq<Lot>)
    requires MadeOfFills(lots) && last.signed != 0 && last.price > 0.0 && more == lots + [last]
    ensures MadeOfFills(more)
  {
    EpisodeGrows(lots, last);
    OneMoreMade(Episode(lots), last);
  }

  lemma OneMoreMade(lots: seq<Lot>, last: Lot)
    requires Made(lots) && last.signed != 0 && last.price > 0.0
    ensures Made(lots + [last])
  {
  }

  ghost predicate EpisodeIsOpen(lots: seq<Lot>) {
    && NetQuantity(Episode(lots)) == NetQuantity(lots)
    && (Episode(lots) == [] <==> NetQuantity(lots) == 0)
    && NetQuantity(LastRoundTrip(lots)) == 0
  }

  lemma {:induction false} EpisodeNet(lots: seq<Lot>)
    ensures EpisodeIsOpen(lots)
  {
    if lots != [] {
      var past, last := lots[..|lots| - 1], lots[|lots| - 1];
      EpisodeNet(past);
      EpisodeNetGrows(past, last, lots);
    }
  }

  lemma EpisodeNetGrows(lots: seq<Lot>, last: Lot, more: seq<Lot>)
    requires EpisodeIsOpen(lots) && more == lots + [last]
    ensures EpisodeIsOpen(more)
  {
    EpisodeGrows(lots, last);
    LastLot(lots, last);
    LastLot(Episode(lots), last);
  }

  lemma LastLot(lots: seq<Lot>, last: Lot)
    ensures NetQuantity(lots + [last]) == NetQuantity(lots) + last.signed
  {
    assert (lots + [last])[..|lots|] == lots;
  }

  lemma EpisodeGrows(lots: seq<Lot>, last: Lot)
    ensures var e := Episode(lots) + [last];
            && Episode(lots + [last]) == (if NetQuantity(e) == 0 then [] else e)
            && LastRoundTrip(lots + [last]) == (if NetQuantity(e) == 0 then e else LastRoundTrip(lots))
            && RoundTrips(lots + [last]) == if NetQuantity(e) == 0 then RoundTrips(lots) + [e] else RoundTrips(lots)
  {
    assert (lots + [last])[..|lots|] == lots;
  }

  lemma KeyLotsGrow(history: seq<Fill>, f: Fill, key: Key)
    ensures KeyLots(history + [f], key) ==
            if (f.strategy, f.token) == key then KeyLots(history, key) + [ToLot(f)] else KeyLots(history, key)
  {
    assert (history + [f])[..|history|] == history;
  }

  ghost function TripsOf(history: seq<Fill>, key: Key): seq<seq<Lot>> { RoundTrips(KeyLots(history, key)) }

  lemma TripsGrow(history: seq<Fill>, f: Fill, key: Key)
    ensures var e := Episode(KeyLots(history, key)) + [ToLot(f)];
            TripsOf(history + [f], key) == TripsOf(history, key)
            + if (f.strategy, f.token) == key && NetQuantity(e) == 0 then [e] else []
  {
    KeyLotsGrow(history, f, key);
    EpisodeGrows(KeyLots(history, key), ToLot(f));
  }

  lemma {:induction false} TripsPrefix(history: seq<Fill>, day: nat, key: Key)
    requires day <= |history|
    ensures TripsOf(history[..day], key) <= TripsOf(history, key)
  {
    if day == |history| {
      assert history[..day] == history;
    } else {
      var past, last := history[..|history| - 1], history[|history| - 1];
      assert past[..day] == history[..day] && history == past + [last];
      TripsPrefix(past, day, key);
      TripsGrow(past, last, key);
    }
  }

  /** The round trips a key has completed since the day began. */
  ghost function DayTrips(history: seq<Fill>, day: nat, key: Key): seq<seq<Lot>>
    requires day <= |history|
  {
    TripsPrefix(history, day, key);
    TripsOf(history, key)[|TripsOf(history[..day], key)|..]
  }

  lemma DayTripsGrow(history: seq<Fill>, day: nat, f: Fill, key: Key)
    requires day <= |history|
    ensures var e := Episode(KeyLots(history, key)) + [ToLot(f)];
            DayTrips(history + [f], day, key) == DayTrips(history, day, key)
            + if (f.strategy, f.token) == key && NetQuantity(e) == 0 then [e] else []
  {
    TripsPrefix(history, day, key);
    TripsGrow(history, f, key);
    assert (history + [f])[..day] == history[..day];
  }

  /** An archived entry is of the day's last round trip of its key. */
  ghost predicate SinceReset(closed: Register, history: seq<Fill>, day: nat) {
    day <= |history| && forall k :: TripKept(closed, history, day, k)
  }

  ghost predicate TripKept(closed: Register, history: seq<Fill>, day: nat, key: Key)
    requires day <= |history|
  {
    key in closed.entries ==> DayTrips(history, day, key) != []
  }

  /** The day's round trips of a key that no entry stands for: all but the archived one. */
  ghost function Forgotten(closed: Register, history: seq<Fill>, day: nat, key: Key): seq<seq<Lot>>
    requires SinceReset(closed, history, day)
  {
    assert TripKept(closed, history, day, key);
    var trips := DayTrips(history, day, key);
    if key in closed.entries then trips[..|trips| - 1] else trips
  }

  ghost predicate NoneForgotten(closed: Register, history: seq<Fill>, day: nat)
    requires SinceReset(closed, history, day)
  {
    forall k :: Forgotten(closed, history, day, k) == []
  }

  /** Filing a closed position loses a round trip: the one archived under the same key, or the oldest for want of room. */
  predicate Displaces(closed: Register, key: Key) {
    key in closed.entries || |closed.order| >= MAX_CLOSED_POSITIONS
  }

  const MAX_CLOSED_POSITIONS := 500

  /** Filing a closed position: a key already filed keeps its place, and the oldest entry makes room. */
  function Archive(closed: Register, key: Key, pos: Position): Register {
    var filed := closed.Put(key, pos);
    if |filed.order| > MAX_CLOSED_POSITIONS then filed.Remove(filed.order[0]) else filed
  }

  /** A book entry agrees with the fills it came from. */
  ghost predicate Faithful(pos: Position, key: Key, lots: seq<Lot>) {
    key == (pos.strategy, pos.token) && pos.Holding() == Replay(lots)
  }

  /** The two dictionaries say of every key what its fills say. */
  ghost predicate Consistent(positions: Register, closed: Register, history: seq<Fill>) {
    && GoodFills(history)
    && forall k :: ConsistentAt(positions, closed, history, k)
  }

  ghost predicate ConsistentAt(positions: Register, closed: Register, history: seq<Fill>, k: Key) {
    var lots := KeyLots(history, k);
    && (k in positions.entries <==> Episode(lots) != [])
    && (k in positions.entries ==> Faithful(positions.entries[k], k, Episode(lots)))
    && (k in closed.entries ==> LastRoundTrip(lots) != [] && Faithful(closed.entries[k], k, LastRoundTrip(lots)))
  }

  /** The holding on which the next fill of a key acts. */
  ghost function Held(positions: Register, key: Key): Holding {
    if key in positions.entries then positions.entries[key].Holding() else FLAT
  }

  /** The dictionaries after a fill that left its key with the position pos. */
  function Placed(positions: Register, key: Key, pos: Position): Register {
    if pos.quantity == 0 then positions.Remove(key) else positions.Put(key, pos)
  }

  function Filed(closed: Register, key: Key, pos: Position): Register {
    if pos.quantity == 0 then Archive(closed, key, pos) else closed
  }

  lemma ArchiveLaws(closed: Register, key: Key, pos: Position)
    requires closed.Valid() && |closed.order| <= MAX_CLOSED_POSITIONS
    ensures var filed := Archive(closed, key, pos);
            && filed.Valid() && |filed.order| <= MAX_CLOSED_POSITIONS
            && key in filed.entries && filed.entries[key] == pos
            && forall k :: k in filed.entries && k != key ==> k in closed.entries && filed.entries[k] == closed.entries[k]
  {
    closed.PutKeepsOrder(key, pos);
    var filed := closed.Put(key, pos);
    if |filed.order| > MAX_CLOSED_POSITIONS {
      filed.RemoveKeepsOrder(filed.order[0]);
      assert filed.order[0] != key;
    }
  }

  /** Every other key is untouched by a fill. */
  lemma OtherKeysStayConsistent(positions: Register, closed: Register, history: seq<Fill>, fill: Fill, pos: Position, k: Key)
    requires ConsistentAt(positions, closed, history, k)
    requires positions.Valid() && closed.Valid() && |closed.order| <= MAX_CLOSED_POSITIONS
    requires k != (fill.strategy, fill.token)
    ensures var key := (fill.strategy, fill.token);
            ConsistentAt(Placed(positions, key, pos), Filed(closed, key, pos), history + [fill], k)
  {
    var key := (fill.strategy, fill.token);
    ArchiveLaws(closed, key, pos);
    positions.RemoveKeepsOrder(key);
    KeyLotsGrow(history, fill, k);
  }

  /** The episode of a key after one more fill, and the holding it leaves. */
  lemma EpisodeSettles(lots: seq<Lot>, last: Lot, h: Holding)
    requires Tradable(lots) && last.signed != 0
    requires forall i :: 0 <= i < |lots| ==> lots[i].price > 0.0
    requires h == Settle(Replay(Episode(lots)), last)
    ensures Replay(Episode(lots) + [last]) == h
    ensures h.quantity == NetQuantity(Episode(lots) + [last])
  {
    EpisodeFacts(lots);
    var e := Episode(lots) + [last];
    assert e[..|e| - 1] == Episode(lots);
    assert Tradable(e);
    CashIsConserved(e);
  }

  /** A fill applied by the law keeps its own key consistent with the longer history. */
  lemma FilledKeyStaysConsistent(positions: Register, closed: Register, history: seq<Fill>, fill: Fill, pos: Position)
    requires GoodFills(history) && fill.quantity > 0
    requires ConsistentAt(positions, closed, history, (fill.strategy, fill.token))
    requires positions.Valid() && closed.Valid() && |closed.order| <= MAX_CLOSED_POSITIONS
    requires (pos.strategy, pos.token) == (fill.strategy, fill.token)
    requires pos.Holding() == Settle(Held(positions, (fill.strategy, fill.token)), ToLot(fill))
    ensures var key := (fill.strategy, fill.token);
            ConsistentAt(Placed(positions, key, pos), Filed(closed, key, pos), history + [fill], key)
  {
    var key := (fill.strategy, fill.token);
    var lots := KeyLots(history, key);
    KeyLotsTradable(history, key);
    EpisodeSettles(lots, ToLot(fill), pos.Holding());
    KeyLotsGrow(history, fill, key);
    EpisodeGrows(lots, ToLot(fill));
    ArchiveLaws(closed, key, pos);
    positions.RemoveKeepsOrder(key);
  }

  ghost predicate Separate(positions: Register, closed: Register) {
    forall k :: !(k in positions.entries && k in closed.entries)
  }

  /** A fill makes an archived key visible twice exactly when it re-opens it. */
  lemma ReopeningHides(positions: Register, closed: Register, key: Key, pos: Position)
    requires positions.Valid() && closed.Valid() && |closed.order| <= MAX_CLOSED_POSITIONS
    requires Separate(positions, closed)
    requires key !in positions.entries ==> pos.quantity != 0
    ensures Separate(Placed(positions, key, pos), Filed(closed, key, pos)) <==> key !in closed.entries
  {
    ArchiveLaws(closed, key, pos);
    positions.RemoveKeepsOrder(key);
    var positions', closed' := Placed(positions, key, pos), Filed(closed, key, pos);
    assert key in closed.entries ==> key in positions'.entries && key in closed'.entries;
  }

  lemma FillKeepsOrders(positions: Register, closed: Register, key: Key, pos: Position)
    requires positions.Valid() && closed.Valid() && |closed.order| <= MAX_CLOSED_POSITIONS
    ensures Placed(positions, key, pos).Valid()
    ensures Filed(closed, key, pos).Valid() && |Filed(closed, key, pos).order| <= MAX_CLOSED_POSITIONS
  {
    ArchiveLaws(closed, key, pos);
    positions.PutKeepsOrder(key, pos);
    positions.RemoveKeepsOrder(key);
  }

  /** The books stay consistent with the history under a fill applied by the law. */
  lemma FillKeepsConsistency(positions: Register, closed: Register, history: seq<Fill>, fill: Fill, pos: Position)
    requires positions.Valid() && closed.Valid() && |closed.order| <= MAX_CLOSED_POSITIONS
    requires Consistent(positions, closed, history)
    requires fill.quantity > 0 && fill.price > 0.0
    requires (pos.strategy, pos.token) == (fill.strategy, fill.token)
    requires pos.Holding() == Settle(Held(positions, (fill.strategy, fill.token)), ToLot(fill))
    ensures var key := (fill.strategy, fill.token);
            Consistent(Placed(positions, key, pos), Filed(closed, key, pos), history + [fill])
  {
    var key := (fill.strategy, fill.token);
    forall k ensures ConsistentAt(Placed(positions, key, pos), Filed(closed, key, pos), history + [fill], k) {
      assert ConsistentAt(positions, closed, history, k);
      if k == key {
        FilledKeyStaysConsistent(positions, closed, history, fill, pos);
      } else {
        OtherKeysStayConsistent(positions, closed, history, fill, pos, k);
      }
    }
  }

  lemma FillKeepsDay(positions: Register, closed: Register, history: seq<Fill>, day: nat, fill: Fill, pos: Position)
    requires closed.Valid() && |closed.order| <= MAX_CLOSED_POSITIONS && Consistent(positions, closed, history)
    requires fill.quantity > 0 && fill.price > 0.0 && SinceReset(closed, history, day)
    requires Settles(Held(positions, (fill.strategy, fill.token)), ToLot(fill), pos.Holding())
    ensures var key := (fill.strategy, fill.token);
            && SinceReset(Filed(closed, key, pos), history + [fill], day)
            && (NoneForgotten(Filed(closed, key, pos), history + [fill], day) <==>
                NoneForgotten(closed, history, day) && !(pos.quantity == 0 && Displaces(closed, key)))
  {
    var key := (fill.strategy, fill.token);
    var lots := KeyLots(history, key);
    assert ConsistentAt(positions, closed, history, key);
    KeyLotsTradable(history, key);
    SettledHolding(Held(positions, key), ToLot(fill), pos.Holding());
    EpisodeSettles(lots, ToLot(fill), pos.Holding());
    assert pos.quantity == 0 <==> NetQuantity(Episode(lots) + [ToLot(fill)]) == 0;
    ArchiveLaws(closed, key, pos);
    var closed' := Filed(closed, key, pos);
    forall k ensures DayTripsStep(history, day, fill, pos, k) { DayTripsGrow(history, day, fill, k); }
    assert SinceReset(closed', history + [fill], day) by {
      forall k ensures TripKept(closed', history + [fill], day, k) {
        assert TripKept(closed, history, day, k);
        assert DayTripsStep(history, day, fill, pos, k);
      }
    }
    ForgottenByFiling(closed, history, day, fill, pos);
  }

  ghost predicate DayTripsStep(history: seq<Fill>, day: nat, fill: Fill, pos: Position, k: Key) {
    && day <= |history|
    && |DayTrips(history + [fill], day, k)|
       == |DayTrips(history, day, k)| + if k == (fill.strategy, fill.token) && pos.quantity == 0 then 1 else 0
  }

  lemma ForgottenByFiling(closed: Register, history: seq<Fill>, day: nat, fill: Fill, pos: Position)
    requires closed.Valid() && |closed.order| <= MAX_CLOSED_POSITIONS && SinceReset(closed, history, day)
    requires forall k :: DayTripsStep(history, day, fill, pos, k)
    requires SinceReset(Filed(closed, (fill.strategy, fill.token), pos), history + [fill], day)
    ensures NoneForgotten(Filed(closed, (fill.strategy, fill.token), pos), history + [fill], day) <==>
            NoneForgotten(closed, history, day) && !(pos.quantity == 0 && Displaces(closed, (fill.strategy, fill.token)))
  {
    var key := (fill.strategy, fill.token);
    var closed' := Filed(closed, key, pos);
    ArchiveLaws(closed, key, pos);
    ArchiveLoses(closed, key, pos);
    if pos.quantity == 0 && key !in closed.entries && |closed.order| >= MAX_CLOSED_POSITIONS {
      var oldest := closed.order[0];
      assert DayTripsStep(history, day, fill, pos, oldest) && TripKept(closed, history, day, oldest);
      assert Forgotten(closed', history + [fill], day, oldest) != [];
    } else {
      forall k ensures Forgotten(closed', history + [fill], day, k) == [] <==>
                       Forgotten(closed, history, day, k) == [] && !(k == key && pos.quantity == 0 && key in closed.entries)
      {
        ForgottenOfKey(closed, closed', history, day, fill, pos, k);
      }
      if NoneForgotten(closed', history + [fill], day) {
        assert Forgotten(closed', history + [fill], day, key) == [];
      }
    }
  }

  lemma ForgottenOfKey(closed: Register, closed': Register, history: seq<Fill>, day: nat, fill: Fill, pos: Position, k: Key)
    requires SinceReset(closed, history, day) && SinceReset(closed', history + [fill], day)
    requires DayTripsStep(history, day, fill, pos, k)
    requires k in closed'.entries <==> k in closed.entries || (k == (fill.strategy, fill.token) && pos.quantity == 0)
    ensures Forgotten(closed', history + [fill], day, k) == [] <==>
            && Forgotten(closed, history, day, k) == []
            && !(k == (fill.strategy, fill.token) && pos.quantity == 0 && k in closed.entries)
  {
    assert TripKept(closed, history, day, k);
  }

  /** What filing takes out of the archive. */
  lemma ArchiveLoses(closed: Register, key: Key, pos: Position)
    requires closed.Valid() && |closed.order| <= MAX_CLOSED_POSITIONS
    ensures key !in closed.entries && |closed.order| >= MAX_CLOSED_POSITIONS ==>
      closed.order[0] in closed.entries && closed.order[0] !in Archive(closed, key, pos).entries
    ensures key in closed.entries || |closed.order| < MAX_CLOSED_POSITIONS ==>
      Archive(closed, key, pos).entries.Keys == closed.entries.Keys + {key}
  {
  }

  /** One position brought up to date by one fill. */
  method Amend(before: Position, fill: Fill) returns (pos: Position)
    requires fill.quantity > 0
    ensures Settles(before.Holding(), ToLot(fill), pos.Holding())
    ensures pos == before.(quantity := pos.quantity, average := pos.average, pnl := pos.pnl)
  {
    pos := before;
    var signed := if fill.side == BUY then fill.quantity else -fill.quantity;
    var oldQty := pos.quantity;
    var newQty := oldQty + signed;

    if oldQty == 0 {
      pos := pos.(average := fill.price);
    } else if (oldQty > 0 && signed > 0) || (oldQty < 0 && signed < 0) {
      var total := Abs(oldQty) as real * pos.average + fill.quantity as real * fill.price;
      pos := pos.(average := if newQty != 0 then total / Abs(newQty) as real else 0.0);
    } else {
      var closeQty := Min(Abs(oldQty), fill.quantity);
      var realised := if oldQty > 0 then closeQty as real * (fill.price - pos.average)
                      else closeQty as real * (pos.average - fill.price);
      pos := pos.(pnl := pos.pnl + realised);
      if newQty == 0 {
        pos := pos.(average := 0.0);
      } else if Abs(signed) > Abs(oldQty) {
        pos := pos.(average := fill.price);
      }
    }
    pos := pos.(quantity := newQty);
  }

  /** The positions a reader gets: the two dictionaries merged, an archived entry replacing an open one. */
  function Visible(positions: Register, closed: Register): Register {
    OrderedDict(positions.order + Unlisted(closed.order, positions.entries), positions.entries + closed.entries)
  }

  function Unlisted(keys: seq<Key>, entries: map<Key, Position>): seq<Key> {
    if keys == [] then []
    else (if keys[0] in entries then [] else [keys[0]]) + Unlisted(keys[1..], entries)
  }

  lemma {:induction false} UnlistedLaws(keys: seq<Key>, entries: map<Key, Position>)
    requires Distinct(keys)
    ensures Distinct(Unlisted(keys, entries))
    ensures forall k :: k in Unlisted(keys, entries) <==> k in keys && k !in entries
  {
    if keys != [] {
      assert keys == [keys[0]] + keys[1..];
      assert Distinct(keys[1..]) && keys[0] !in keys[1..];
      UnlistedLaws(keys[1..], entries);
    }
  }

  lemma VisibleIsValid(positions: Register, closed: Register)
    requires positions.Valid() && closed.Valid()
    ensures Visible(positions, closed).Valid()
  {
    UnlistedLaws(closed.order, positions.entries);
    DistinctConcat(positions.order, Unlisted(closed.order, positions.entries));
    var v := Visible(positions, closed);
    assert forall k :: k in v.order <==> k in positions.order || k in Unlisted(closed.order, positions.entries);
  }

  /** The values of a dictionary in order, of one strategy or (for the empty name) of all. */
  function Listing(keys: seq<Key>, entries: map<Key, Position>, strategy: string): seq<Position>
    requires forall k :: k in keys ==> k in entries
  {
    if keys == [] then []
    else
      (if strategy == "" || keys[0].0 == strategy then [entries[keys[0]]] else []) + Listing(keys[1..], entries, strategy)
  }

  /** Everything the two dictionaries keep: order, the archive's cap, and agreement with the fills so far. */
  ghost predicate Books(positions: Register, closed: Register, history: seq<Fill>, symbolOf: int -> string) {
    && positions.Valid() && closed.Valid()
    && |closed.order| <= 500
    && Consistent(positions, closed, history)
    && Named(positions, symbolOf) && Named(closed, symbolOf)
    && NamedFills(history, symbolOf)
  }

  ghost predicate Named(register: Register, symbolOf: int -> string) {
    forall k :: k in register.entries ==> register.entries[k].symbol == symbolOf(k.1)
  }

  ghost predicate NamedFills(history: seq<Fill>, symbolOf: int -> string) {
    forall i :: 0 <= i < |history| ==> history[i].symbol == symbolOf(history[i].token)
  }

  /** The position a fill amends: the open one of its key, else a fresh flat one. */
  function Known(positions: Register, fill: Fill): Position {
    var key := (fill.strategy, fill.token);
    if key in positions.entries then positions.entries[key]
    else Position(fill.token, fill.symbol, fill.strategy, 0, 0.0, 0.0, 0.0)
  }

  lemma FillKeepsBooks(positions: Register, closed: Register, history: seq<Fill>, fill: Fill, pos: Position, symbolOf: int -> string)
    requires Books(positions, closed, history, symbolOf)
    requires fill.quantity > 0 && fill.price > 0.0 && fill.symbol == symbolOf(fill.token)
    requires pos == Known(positions, fill).(quantity := pos.quantity, average := pos.average, pnl := pos.pnl)
    requires Settles(Known(positions, fill).Holding(), ToLot(fill), pos.Holding())
    ensures var key := (fill.strategy, fill.token);
            && Books(Placed(positions, key, pos), Filed(closed, key, pos), history + [fill], symbolOf)
            && (Separate(positions, closed) ==>
                  (Separate(Placed(positions, key, pos), Filed(closed, key, pos)) <==> key !in closed.entries))
  {
    var key := (fill.strategy, fill.token);
    assert ConsistentAt(positions, closed, history, key);
    SettledHolding(Held(positions, key), ToLot(fill), pos.Holding());
    FillKeepsOrders(positions, closed, key, pos);
    FillKeepsConsistency(positions, closed, history, fill, pos);
    FillKeepsNames(positions, closed, key, pos, symbolOf);
    if Separate(positions, closed) { ReopeningHides(positions, closed, key, pos); }
  }

  lemma FillKeepsAll(open: Register, archive: Register, history: seq<Fill>, day: nat, fill: Fill, pos: Position,
                     positions: Register, closed: Register, symbolOf: int -> string)
    requires Books(open, archive, history, symbolOf) && SinceReset(archive, history, day)
    requires fill.quantity > 0 && fill.price > 0.0 && fill.symbol == symbolOf(fill.token)
    requires pos == Known(open, fill).(quantity := pos.quantity, average := pos.average, pnl := pos.pnl)
    requires Settles(Held(open, (fill.strategy, fill.token)), ToLot(fill), pos.Holding())
    requires positions == Placed(open, (fill.strategy, fill.token), pos)
    requires closed == Filed(archive, (fill.strategy, fill.token), pos)
    ensures Books(positions, closed, history + [fill], symbolOf) && SinceReset(closed, history + [fill], day)
    ensures var key := (fill.strategy, fill.token);
            && (Separate(open, archive) ==> (Separate(positions, closed) <==> key !in archive.entries))
            && (NoneForgotten(closed, history + [fill], day) <==>
                NoneForgotten(archive, history, day) && !(pos.quantity == 0 && Displaces(archive, key)))
  {
    FillKeepsBooks(open, archive, history, fill, pos, symbolOf);
    FillKeepsDay(open, archive, history, day, fill, pos);
  }

  /** One fill worked through both dictionaries. */
  method Enter(open: Register, archive: Register, fill: Fill) returns (pos: Position, positions: Register, closed: Register)
    requires open.Valid() && archive.Valid() && fill.quantity > 0
    ensures pos == Known(open, fill).(quantity := pos.quantity, average := pos.average, pnl := pos.pnl)
    ensures Settles(Held(open, (fill.strategy, fill.token)), ToLot(fill), pos.Holding())
    ensures positions == Placed(open, (fill.strategy, fill.token), pos)
    ensures closed == Filed(archive, (fill.strategy, fill.token), pos)
  {
    positions, closed := open, archive;
    var key := (fill.strategy, fill.token);
    if key !in positions.entries {
      positions := positions.Put(key, Position(fill.token, fill.symbol, fill.strategy, 0, 0.0, 0.0, 0.0));
    }
    pos := Amend(positions.entries[key], fill);
    positions := positions.Put(key, pos);
    if pos.quantity == 0 {
      closed := closed.Put(key, pos);
      positions := positions.Remove(key);
      if |closed.order| > MAX_CLOSED_POSITIONS {
        closed := closed.Remove(closed.order[0]);
      }
    }
    open.PutRemove(key, pos);
  }

  ghost predicate OnlyPricesDiffer(before: Register, after: Register, token: int, ltp: real) {
    && after.order == before.order && after.entries.Keys == before.entries.Keys
    && forall k :: k in before.entries ==>
         after.entries[k] == if k.1 == token then before.entries[k].(ltp := ltp) else before.entries[k]
  }

  /** The loop over a book that gives one instrument's positions a new last traded price. */
  method Repriced(before: Register, token: int, ltp: real) returns (after: Register)
    requires before.Valid()
    ensures OnlyPricesDiffer(before, after, token, ltp)
  {
    after := before;
    var i := 0;
    while i < |after.order|
      invariant 0 <= i <= |after.order|
      invariant after.order == before.order && after.entries.Keys == before.entries.Keys
      invariant forall k :: k in before.entries ==>
        after.entries[k] == if k.1 == token && k in before.order[..i] then before.entries[k].(ltp := ltp) else before.entries[k]
    {
      var key := after.order[i];
      assert before.order[..i + 1] == before.order[..i] + [key];
      if key.1 == token {
        after := after.Put(key, after.entries[key].(ltp := ltp));
      }
      i := i + 1;
    }
    assert before.order[..i] == before.order;
  }

  lemma PricesKeepBooks(before: Register, after: Register, closed: Register, history: seq<Fill>, symbolOf: int -> string,
                        token: int, ltp: real)
    requires Books(before, closed, history, symbolOf) && OnlyPricesDiffer(before, after, token, ltp)
    ensures Books(after, closed, history, symbolOf)
  {
    forall k ensures ConsistentAt(after, closed, history, k) {
      assert ConsistentAt(before, closed, history, k);
    }
  }

  class PositionTracker {
    var positions: Register
    var closed: Register
    ghost var history: seq<Fill>
    ghost const symbolOf: int -> string
    /** How many of the fills came before the last daily reset. */
    ghost var day: nat

    ghost predicate Valid()
      reads this
    {
      Books(positions, closed, history, symbolOf) && SinceReset(closed, history, day)
    }

    /** Every round trip of the day is still archived. */
    ghost predicate NothingForgotten()
      requires Valid()
      reads this
    {
      NoneForgotten(closed, history, day)
    }

    /** No key is open and archived at once, so no open position is hidden from readers. */
    ghost predicate Disjoint()
      reads this
    {
      Separate(positions, closed)
    }

    constructor (ghost symbolOf: int -> string)
      ensures Valid() && Disjoint() && history == [] && this.symbolOf == symbolOf
      ensures positions.entries == map[] && closed.entries == map[] && day == 0 && NothingForgotten()
    {
      day := 0;
      this.symbolOf := symbolOf;
      positions := OrderedDict([], map[]);
      closed := OrderedDict([], map[]);
      history := [];
    }

    method UpdateFromFill(fill: Fill) returns (pos: Position)
      requires Valid()
      requires fill.quantity > 0 && fill.price > 0.0 && fill.symbol == symbolOf(fill.token)
      modifies this
      ensures Valid() && history == old(history) + [fill] && day == old(day)
      ensures var key := (fill.strategy, fill.token);
              && Settles(old(Held(positions, key)), ToLot(fill), pos.Holding())
              && positions == Placed(old(positions), key, pos)
              && closed == Filed(old(closed), key, pos)
              && pos == old(Known(positions, fill)).(quantity := pos.quantity, average := pos.average, pnl := pos.pnl)
      ensures old(Disjoint()) ==> (Disjoint() <==> (fill.strategy, fill.token) !in old(closed.entries))
      ensures NothingForgotten() <==>
        old(NothingForgotten()) && !(pos.quantity == 0 && Displaces(old(closed), (fill.strategy, fill.token)))
    {
      var positions', closed';
      pos, positions', closed' := Enter(positions, closed, fill);
      FillKeepsAll(positions, closed, history, day, fill, pos, positions', closed', symbolOf);
      positions, closed, history := positions', closed', history + [fill];
    }

    /** Only the last traded price of the instrument's open positions changes. */
    method UpdateLtp(token: int, ltp: real)
      requires Valid()
      modifies this`positions
      ensures Valid() && OnlyPricesDiffer(old(positions), positions, token, ltp)
    {
      ghost var before := positions;
      positions := Repriced(positions, token, ltp);
      PricesKeepBooks(before, positions, closed, history, symbolOf, token, ltp);
    }

    function GetPositions(strategy: string): seq<Position>
      requires Valid()
      reads this
    {
      VisibleIsValid(positions, closed);
      var all := Visible(positions, closed);
      Listing(all.order, all.entries, strategy)
    }

    function GetOpenPositions(strategy: string): seq<Position>
      requires Valid()
      reads this
    {
      OpenOnes(GetPositions(strategy))
    }

    /** The signed sum of all the key's fills, whatever was archived in between. */
    function GetNetQuantity(strategy: string, token: int): (q: int)
      requires Valid()
      reads this
      ensures q == NetQuantity(KeyLots(history, (strategy, token)))
    {
      NetQuantityOfKey(positions, closed, history, (strategy, token));
      if (strategy, token) in positions.entries then positions.entries[(strategy, token)].quantity else 0
    }

    method ResetDaily()
      requires Valid()
      modifies this`closed, this`day
      ensures Valid() && Disjoint() && closed.entries == map[]
      ensures day == |history| && NothingForgotten()
    {
      ghost var before := closed;
      closed := OrderedDict([], map[]);
      day := |history|;
      assert history[..day] == history;
      forall k ensures ConsistentAt(positions, closed, history, k) {
        assert ConsistentAt(positions, before, history, k);
      }
    }
  }

  lemma FillKeepsNames(positions: Register, closed: Register, key: Key, pos: Position, symbolOf: int -> string)
    requires positions.Valid() && closed.Valid() && |closed.order| <= MAX_CLOSED_POSITIONS
    requires Named(positions, symbolOf) && Named(closed, symbolOf) && pos.symbol == symbolOf(key.1)
    ensures Named(Placed(positions, key, pos), symbolOf) && Named(Filed(closed, key, pos), symbolOf)
  {
    ArchiveLaws(closed, key, pos);
    positions.RemoveKeepsOrder(key);
  }

  lemma NetQuantityOfKey(positions: Register, closed: Register, history: seq<Fill>, key: Key)
    requires Consistent(positions, closed, history)
    ensures NetQuantity(KeyLots(history, key)) ==
            if key in positions.entries then positions.entries[key].quantity else 0
    ensures key in positions.entries ==> positions.entries[key].quantity != 0
    ensures key in closed.entries ==> closed.entries[key].quantity == 0
  {
    assert ConsistentAt(positions, closed, history, key);
    var lots := KeyLots(history, key);
    KeyLotsTradable(history, key);
    EpisodeFacts(lots);
    CashIsConserved(Episode(lots));
    CashIsConserved(LastRoundTrip(lots));
  }

  function OpenOnes(list: seq<Position>): seq<Position> {
    if list == [] then [] else (if list[0].quantity != 0 then [list[0]] else []) + OpenOnes(list[1..])
  }
}
