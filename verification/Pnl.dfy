/** Profit and loss over the positions a reader sees. */
module Pnl {
  import opened Collections
  import opened Ledger
  import opened Positions

  datatype Report = Report(realised: real, unrealised: real, charges: real, net: real)

  /** Decimal.quantize to two places in the default context: to nearest, ties to the even neighbour. */
  function Quantize(x: real): real { InPaise(RoundHalfEven(x * 100.0)) }

  function InPaise(n: int): real { n as real / 100.0 }

  ghost predicate WholePaise(x: real) { exists n: int :: x == InPaise(n) }

  /** The figure is the amount to the nearest whole paisa. */
  ghost predicate ToThePaisa(figure: real, amount: real) { WholePaise(figure) && AbsR(figure - amount) <= 0.005 }

  lemma QuantizeIsToThePaisa(x: real)
    ensures ToThePaisa(Quantize(x), x)
  {
    RoundHalfEvenError(x * 100.0);
  }

  ghost function RealisedTotal(list: seq<Position>): real {
    if list == [] then 0.0 else RealisedTotal(list[..|list| - 1]) + list[|list| - 1].pnl
  }

  ghost function UnrealisedTotal(list: seq<Position>): real {
    if list == [] then 0.0
    else var p := list[|list| - 1]; UnrealisedTotal(list[..|list| - 1]) + Unrealised(p.quantity, p.average, p.ltp)
  }

  /** Cash flow plus market value of the listed positions. */
  ghost function MarkedTotal(list: seq<Position>): real {
    if list == [] then 0.0
    else
      var p := list[|list| - 1];
      MarkedTotal(list[..|list| - 1]) + Book(p.Holding()) + p.quantity as real * p.ltp
  }

  ghost predicate Priced(list: seq<Position>) {
    forall i :: 0 <= i < |list| && list[i].quantity != 0 ==> list[i].ltp > 0.0
  }

  /** Realised plus unrealised profit is cash flow plus market value, once every open position has a price. */
  lemma {:induction false} ReportedProfitIsMarked(list: seq<Position>)
    requires Priced(list)
    requires forall i :: 0 <= i < |list| && list[i].quantity != 0 ==> list[i].average > 0.0
    ensures RealisedTotal(list) + UnrealisedTotal(list) == MarkedTotal(list)
  {
    if list != [] {
      var p := list[|list| - 1];
      ReportedProfitIsMarked(list[..|list| - 1]);
      UnrealisedClosesTheBook(p.Holding(), p.ltp);
    }
  }

  /** What a listed position stands for: the cash its current episode, or its last round trip, has moved. */
  ghost predicate Explained(p: Position, history: seq<Fill>) {
    var lots := KeyLots(history, (p.strategy, p.token));
    && Book(p.Holding()) == CashFlow(if p.quantity != 0 then Episode(lots) else LastRoundTrip(lots))
    && (p.quantity != 0 ==> p.quantity == NetQuantity(lots) && p.average > 0.0)
  }

  ghost predicate AllExplained(list: seq<Position>, history: seq<Fill>) {
    forall p :: p in list ==> Explained(p, history)
  }

  lemma EntryIsExplained(positions: Register, closed: Register, history: seq<Fill>, k: Key, p: Position)
    requires Consistent(positions, closed, history)
    requires p == if k in closed.entries then closed.entries[k] else if k in positions.entries then positions.entries[k] else p
    requires k in closed.entries || k in positions.entries
    ensures Explained(p, history)
  {
    assert ConsistentAt(positions, closed, history, k);
    NetQuantityOfKey(positions, closed, history, k);
    var lots := KeyLots(history, k);
    KeyLotsTradable(history, k);
    EpisodeFacts(lots);
    var e := if p.quantity != 0 then Episode(lots) else LastRoundTrip(lots);
    CashIsConserved(e);
    AveragePositive(e);
  }

  lemma {:induction false} ListingIsExplained(positions: Register, closed: Register, history: seq<Fill>,
                                              keys: seq<Key>, strategy: string)
    requires Consistent(positions, closed, history)
    requires forall k :: k in keys ==> k in Visible(positions, closed).entries
    ensures AllExplained(Listing(keys, Visible(positions, closed).entries, strategy), history)
  {
    if keys != [] {
      ListingIsExplained(positions, closed, history, keys[1..], strategy);
      var all := Visible(positions, closed).entries;
      EntryIsExplained(positions, closed, history, keys[0], all[keys[0]]);
    }
  }

  /** The accumulation loop of the report. */
  method SumPositions(list: seq<Position>) returns (realised: real, unrealised: real)
    ensures realised == RealisedTotal(list) && unrealised == UnrealisedTotal(list)
  {
    realised, unrealised := 0.0, 0.0;
    var i := 0;
    while i < |list|
      invariant 0 <= i <= |list|
      invariant realised == RealisedTotal(list[..i]) && unrealised == UnrealisedTotal(list[..i])
    {
      assert list[..i + 1][..i] == list[..i];
      var pos := list[i];
      realised := realised + pos.pnl;
      if pos.quantity != 0 && pos.ltp > 0.0 && pos.average > 0.0 {
        if pos.quantity > 0 {
          unrealised := unrealised + pos.quantity as real * (pos.ltp - pos.average);
        } else {
          unrealised := unrealised + Abs(pos.quantity) as real * (pos.average - pos.ltp);
        }
      }
      i := i + 1;
    }
    assert list[..i] == list;
  }

  method MakeReport(realised: real, unrealised: real, fees: real) returns (report: Report)
    ensures ToThePaisa(report.realised, realised) && ToThePaisa(report.unrealised, unrealised)
    ensures ToThePaisa(report.charges, fees) && ToThePaisa(report.net, realised + unrealised - fees)
  {
    var net := realised + unrealised - fees;
    QuantizeIsToThePaisa(realised);
    QuantizeIsToThePaisa(unrealised);
    QuantizeIsToThePaisa(fees);
    QuantizeIsToThePaisa(net);
    report := Report(Quantize(realised), Quantize(unrealised), Quantize(fees), Quantize(net));
  }

  /** The report gives the listed positions and fees to the nearest paisa; with every open position priced its net
      is the cash moved plus market value less fees. */
  ghost predicate Accurate(report: Report, list: seq<Position>, fees: real) {
    && ToThePaisa(report.realised, RealisedTotal(list)) && ToThePaisa(report.unrealised, UnrealisedTotal(list))
    && ToThePaisa(report.charges, fees)
    && ToThePaisa(report.net, RealisedTotal(list) + UnrealisedTotal(list) - fees)
    && (Priced(list) ==> ToThePaisa(report.net, MarkedTotal(list) - fees))
  }

  class PnLCalculator {
    const tracker: PositionTracker
    var charges: OrderedDict<string, real>

    ghost predicate Valid()
      reads this, tracker
    {
      tracker.Valid() && charges.Valid()
    }

    constructor (tracker: PositionTracker)
      requires tracker.Valid()
      ensures Valid() && this.tracker == tracker && charges.entries == map[]
    {
      this.tracker := tracker;
      charges := OrderedDict([], map[]);
    }

    function ChargesOf(strategy: string): real
      reads this
    {
      if strategy in charges.entries then charges.entries[strategy] else 0.0
    }

    method AddCharges(strategy: string, amount: real)
      requires Valid()
      modifies this`charges
      ensures Valid()
      ensures ChargesOf(strategy) == old(ChargesOf(strategy)) + amount
      ensures forall s :: s != strategy ==> ChargesOf(s) == old(ChargesOf(s))
    {
      charges.PutKeepsOrder(strategy, ChargesOf(strategy) + amount);
      charges := charges.Put(strategy, ChargesOf(strategy) + amount);
    }

    lemma ListedPositionsAreExplained(strategy: string)
      requires Valid()
      ensures AllExplained(tracker.GetPositions(strategy), tracker.history)
      ensures var list := tracker.GetPositions(strategy);
              Priced(list) ==> RealisedTotal(list) + UnrealisedTotal(list) == MarkedTotal(list)
    {
      VisibleIsValid(tracker.positions, tracker.closed);
      ListingIsExplained(tracker.positions, tracker.closed, tracker.history,
                         Visible(tracker.positions, tracker.closed).order, strategy);
      var list := tracker.GetPositions(strategy);
      if Priced(list) {
        assert forall i :: 0 <= i < |list| ==> Explained(list[i], tracker.history);
        ReportedProfitIsMarked(list);
      }
    }

    ghost function TotalCharges(n: nat): real
      requires charges.Valid() && n <= |charges.order|
      reads this
    {
      if n == 0 then 0.0 else TotalCharges(n - 1) + charges.entries[charges.order[n - 1]]
    }

    method AddUpCharges() returns (fees: real)
      requires charges.Valid()
      ensures fees == TotalCharges(|charges.order|)
    {
      fees := 0.0;
      var j := 0;
      while j < |charges.order|
        invariant 0 <= j <= |charges.order| && fees == TotalCharges(j)
      {
        fees := fees + charges.entries[charges.order[j]];
        j := j + 1;
      }
    }

    /** Every reported figure is the exact one to the nearest paisa, and once every open position has a
        price the exact net profit is the cash moved plus market value less charges. */
    method GetPnl(strategy: string) returns (report: Report)
      requires Valid()
      ensures AllExplained(tracker.GetPositions(strategy), tracker.history)
      ensures Accurate(report, tracker.GetPositions(strategy),
                       if strategy != "" then ChargesOf(strategy) else TotalCharges(|charges.order|))
    {
      var list := tracker.GetPositions(strategy);
      var realised, unrealised := SumPositions(list);
      var fees := if strategy != "" then ChargesOf(strategy) else 0.0;
      if strategy == "" {
        fees := AddUpCharges();
      }
      report := MakeReport(realised, unrealised, fees);
      ListedPositionsAreExplained(strategy);
    }

    method ResetDaily()
      requires Valid()
      modifies this`charges, tracker`closed, tracker`day
      ensures Valid() && charges.entries == map[] && tracker.closed.entries == map[] && tracker.Disjoint()
      ensures forall s :: ChargesOf(s) == 0.0
    {
      charges := OrderedDict([], map[]);
      tracker.ResetDaily();
    }
  }
}
