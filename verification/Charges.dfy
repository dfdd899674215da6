/** Trade charges: brokerage with its cap, taxes and levies, each rounded half up to the paisa. */
module Charges {
  import opened Collections
  import opened Ledger

  datatype Instrument = FUT | CE | PE

  datatype TradeCharges = TradeCharges(brokerage: real, stt: real, transaction: real, sebi: real, gst: real,
                                       stampDuty: real, total: real)

  const BROKERAGE_PCT := 0.03
  const BROKERAGE_CAP := 20.0
  const OPTION_STT_PCT := 0.0625
  const FUTURE_STT_PCT := 0.0125
  const OPTION_TXN_PCT := 0.05
  const FUTURE_TXN_PCT := 0.002
  const SEBI_PCT := 0.0001
  const GST_PCT := 18.0
  const OPTION_STAMP_PCT := 0.003
  const FUTURE_STAMP_PCT := 0.002

  /** Paise of an amount, rounded to nearest with ties away from zero. */
  function Paise(x: real): int {
    if x >= 0.0 then (x * 100.0 + 0.5).Floor else -((-x * 100.0 + 0.5).Floor)
  }

  function Round2(x: real): real { Paise(x) as real / 100.0 }

  lemma RoundingError(x: real)
    requires x >= 0.0
    ensures -0.005 < Round2(x) - x <= 0.005 && Paise(x) >= 0
  {
  }

  /** Below zero amounts are rounded as above, away from zero on a tie. */
  lemma RoundingIsOdd(x: real)
    ensures Paise(-x) == -Paise(x)
  {
  }

  lemma FloorIsMonotone(x: real, y: real)
    requires x <= y
    ensures x.Floor <= y.Floor
  {
  }

  lemma RoundingIsMonotone(x: real, y: real)
    requires 0.0 <= x <= y
    ensures Paise(x) <= Paise(y) && Round2(x) <= Round2(y)
  {
    FloorIsMonotone(x * 100.0 + 0.5, y * 100.0 + 0.5);
  }

  /** The exact charges, before rounding. */
  function Exact(turnover: real, side: Side, instrument: Instrument): TradeCharges {
    var option := instrument != FUT;
    var brokerage := MinR(BROKERAGE_PCT * turnover / 100.0, BROKERAGE_CAP);
    var stt := if side == BUY then 0.0
               else turnover * (if option then OPTION_STT_PCT else FUTURE_STT_PCT) / 100.0;
    var transaction := turnover * (if option then OPTION_TXN_PCT else FUTURE_TXN_PCT) / 100.0;
    var sebi := turnover * SEBI_PCT / 100.0;
    var gst := (brokerage + transaction + sebi) * GST_PCT / 100.0;
    var stamp := if side == BUY then turnover * (if option then OPTION_STAMP_PCT else FUTURE_STAMP_PCT) / 100.0 else 0.0;
    TradeCharges(brokerage, stt, transaction, sebi, gst, stamp, brokerage + stt + transaction + sebi + gst + stamp)
  }

  function CalculateCharges(price: real, quantity: int, side: Side, instrument: Instrument): TradeCharges {
    Rounded(Exact(price * quantity as real, side, instrument))
  }

  function Rounded(c: TradeCharges): TradeCharges {
    TradeCharges(Round2(c.brokerage), Round2(c.stt), Round2(c.transaction), Round2(c.sebi), Round2(c.gst),
                 Round2(c.stampDuty), Round2(c.total))
  }

  function Components(c: TradeCharges): real {
    c.brokerage + c.stt + c.transaction + c.sebi + c.gst + c.stampDuty
  }

  function EstimateRoundTripCharges(price: real, quantity: int, instrument: Instrument): TradeCharges {
    var b, s := CalculateCharges(price, quantity, BUY, instrument), CalculateCharges(price, quantity, SELL, instrument);
    TradeCharges(b.brokerage + s.brokerage, b.stt + s.stt, b.transaction + s.transaction, b.sebi + s.sebi,
                 b.gst + s.gst, b.stampDuty + s.stampDuty, b.total + s.total)
  }

  lemma ExactIsNonNegative(turnover: real, side: Side, instrument: Instrument)
    requires turnover >= 0.0
    ensures var c := Exact(turnover, side, instrument);
            && c.brokerage >= 0.0 && c.stt >= 0.0 && c.transaction >= 0.0 && c.sebi >= 0.0 && c.gst >= 0.0
            && c.stampDuty >= 0.0 && c.total == Components(c)
            && (c.stt == 0.0 || c.stampDuty == 0.0)
  {
  }

  /** Rounding five non-zero parts and their sum separately loses less than three paise, so at most two. */
  lemma RoundedSum(a: real, b: real, c: real, d: real, e: real)
    requires a >= 0.0 && b >= 0.0 && c >= 0.0 && d >= 0.0 && e >= 0.0
    ensures Abs(Paise(a + b + c + d + e) - (Paise(a) + Paise(b) + Paise(c) + Paise(d) + Paise(e))) <= 2
  {
    RoundingError(a);
    RoundingError(b);
    RoundingError(c);
    RoundingError(d);
    RoundingError(e);
    RoundingError(a + b + c + d + e);
  }

  /** The rounded total is within two paise of the sum of the rounded components. */
  lemma TotalIsSumOfParts(price: real, quantity: int, side: Side, instrument: Instrument)
    requires price >= 0.0 && quantity > 0
    ensures var c := CalculateCharges(price, quantity, side, instrument); AbsR(c.total - Components(c)) <= 0.02
  {
    var turnover := price * quantity as real;
    var x := Exact(turnover, side, instrument);
    ExactIsNonNegative(turnover, side, instrument);
    if side == BUY {
      RoundedSum(x.brokerage, x.transaction, x.sebi, x.gst, x.stampDuty);
    } else {
      RoundedSum(x.brokerage, x.stt, x.transaction, x.sebi, x.gst);
    }
  }

  /** A round trip adds the two errors up, and pays tax on the sale and stamp duty on the purchase. */
  lemma RoundTripIsSumOfParts(price: real, quantity: int, instrument: Instrument)
    requires price >= 0.0 && quantity > 0
    ensures var c := EstimateRoundTripCharges(price, quantity, instrument);
            && AbsR(c.total - Components(c)) <= 0.04
            && c.stt == CalculateCharges(price, quantity, SELL, instrument).stt
            && c.stampDuty == CalculateCharges(price, quantity, BUY, instrument).stampDuty
  {
    TotalIsSumOfParts(price, quantity, BUY, instrument);
    TotalIsSumOfParts(price, quantity, SELL, instrument);
    WhoPaysWhat(price, quantity, BUY, instrument);
    WhoPaysWhat(price, quantity, SELL, instrument);
    var b, s := CalculateCharges(price, quantity, BUY, instrument), CalculateCharges(price, quantity, SELL, instrument);
    var c := EstimateRoundTripCharges(price, quantity, instrument);
    assert c.total - Components(c) == (b.total - Components(b)) + (s.total - Components(s));
  }

  /** Two paise is reached: the strict bound that holds for one sampled trade is not a law. */
  lemma TwoPaiseAreReached()
    ensures var c := CalculateCharges(250.0, 1, SELL, CE); c.total - Components(c) == -0.02
    ensures var c := CalculateCharges(15.25, 75, SELL, CE); c.total - Components(c) == 0.02
  {
    var c := Exact(250.0, SELL, CE);
    assert Exact(250.0 * 1 as real, SELL, CE) == c;
  }

  /** What rounding an amount adds to it, in paise. */
  function Gain(x: real): real { Paise(x) as real - x * 100.0 }

  /** What rounding the six exact parts of a trade adds to them altogether, in paise. */
  function PartsGain(price: real, quantity: int, side: Side, instrument: Instrument): real {
    var c := Exact(price * quantity as real, side, instrument);
    Gain(c.brokerage) + Gain(c.stt) + Gain(c.transaction) + Gain(c.sebi) + Gain(c.gst) + Gain(c.stampDuty)
  }

  /** How far the rounded total is from its rounded parts is decided by what rounding adds to the exact parts, and it is
      at most a paisa exactly when that stays within one and a half. */
  lemma OnePaisaWhen(price: real, quantity: int, side: Side, instrument: Instrument)
    requires price >= 0.0 && quantity > 0
    ensures var c, gain := CalculateCharges(price, quantity, side, instrument), PartsGain(price, quantity, side, instrument);
            && c.total - Components(c) == (0.5 - gain).Floor as real / 100.0
            && (AbsR(c.total - Components(c)) <= 0.01 <==> -1.5 < gain <= 1.5)
  {
    var x := Exact(price * quantity as real, side, instrument);
    ExactIsNonNegative(price * quantity as real, side, instrument);
    TotalAgainstParts(x, PartsGain(price, quantity, side, instrument));
  }

  lemma TotalAgainstParts(x: TradeCharges, gain: real)
    requires x.total == Components(x) >= 0.0
    requires gain == Gain(x.brokerage) + Gain(x.stt) + Gain(x.transaction) + Gain(x.sebi) + Gain(x.gst) + Gain(x.stampDuty)
    ensures var c := Rounded(x);
            && c.total - Components(c) == (0.5 - gain).Floor as real / 100.0
            && (AbsR(c.total - Components(c)) <= 0.01 <==> -1.5 < gain <= 1.5)
  {
    var c, whole := Rounded(x), PaiseOfParts(x);
    GainOfParts(x, gain);
    assert c.total - Components(c) == (Paise(x.total) - whole) as real / 100.0;
    WholePaise(x.total, whole, gain);
  }

  function PaiseOfParts(c: TradeCharges): int {
    Paise(c.brokerage) + Paise(c.stt) + Paise(c.transaction) + Paise(c.sebi) + Paise(c.gst) + Paise(c.stampDuty)
  }

  lemma GainOfParts(c: TradeCharges, gain: real)
    requires c.total == Components(c)
    requires gain == Gain(c.brokerage) + Gain(c.stt) + Gain(c.transaction) + Gain(c.sebi) + Gain(c.gst) + Gain(c.stampDuty)
    ensures gain == PaiseOfParts(c) as real - c.total * 100.0
  {
  }

  lemma WholePaise(x: real, whole: int, gain: real)
    requires x >= 0.0 && gain == whole as real - x * 100.0
    ensures Paise(x) - whole == (0.5 - gain).Floor
    ensures AbsR((Paise(x) - whole) as real / 100.0) <= 0.01 <==> -1.5 < gain <= 1.5
  {
    assert 0.5 - gain == (x * 100.0 + 0.5) - whole as real;
    assert Paise(x) - whole == (0.5 - gain).Floor;
    assert -1 <= (0.5 - gain).Floor <= 1 <==> -1.5 < gain <= 1.5;
  }

  lemma ExactGrows(t: real, t': real, side: Side, instrument: Instrument)
    requires 0.0 <= t <= t'
    ensures Exact(t, side, instrument).total <= Exact(t', side, instrument).total
  {
  }

  /** A dearer trade never costs less, across the brokerage cap. */
  lemma ChargesGrowWithTurnover(p: real, q: int, p': real, q': int, side: Side, instrument: Instrument)
    requires p >= 0.0 && q > 0 && p' >= 0.0 && q' > 0
    requires p * q as real <= p' * q' as real
    ensures CalculateCharges(p, q, side, instrument).total <= CalculateCharges(p', q', side, instrument).total
  {
    var t, t' := p * q as real, p' * q' as real;
    ExactIsNonNegative(t, side, instrument);
    ExactGrows(t, t', side, instrument);
    RoundingIsMonotone(Exact(t, side, instrument).total, Exact(t', side, instrument).total);
  }

  /** Which side pays what, and the cap. */
  lemma WhoPaysWhat(price: real, quantity: int, side: Side, instrument: Instrument)
    requires price >= 0.0 && quantity > 0
    ensures var c := CalculateCharges(price, quantity, side, instrument);
            && 0.0 <= c.brokerage <= 20.0
            && (side == BUY ==> c.stt == 0.0) && (side == SELL ==> c.stampDuty == 0.0)
    ensures var turnover := price * quantity as real;
            var brokerage := CalculateCharges(price, quantity, side, instrument).brokerage;
            if turnover * 3.0 >= 200000.0 then brokerage == 20.0 else AbsR(brokerage - turnover * 3.0 / 10000.0) <= 0.005
  {
    var turnover := price * quantity as real;
    RoundingError(Exact(turnover, side, instrument).brokerage);
    RoundingIsMonotone(Exact(turnover, side, instrument).brokerage, 20.0);
  }

  /** On every million of turnover: the capped brokerage, 625 or 125 of tax on a sale, 500 or 20 to the exchange, 1 to the
      regulator, 30 or 20 of stamp duty on a purchase, for an option or a future, and 18% on what is not a tax. */
  lemma ChargesPerMillion(price: real, quantity: int, millions: int, side: Side, instrument: Instrument)
    requires millions >= 1 && price * quantity as real == millions as real * 1000000.0
    ensures var c, m, option := CalculateCharges(price, quantity, side, instrument), millions as real, instrument != FUT;
            && c.brokerage == 20.0 && c.sebi == m
            && c.stt == (if side == BUY then 0.0 else if option then m * 625.0 else m * 125.0)
            && c.transaction == (if option then m * 500.0 else m * 20.0)
            && c.stampDuty == (if side == SELL then 0.0 else if option then m * 30.0 else m * 20.0)
            && c.gst == (c.brokerage + c.transaction + c.sebi) * 0.18
            && c.total == Components(c)
  {
    var option := instrument != FUT;
    var x := Exact(price * quantity as real, side, instrument);
    Whole(x.brokerage, 2000);
    Whole(x.stt, if side == BUY then 0 else if option then 62500 * millions else 12500 * millions);
    Whole(x.transaction, if option then 50000 * millions else 2000 * millions);
    Whole(x.sebi, 100 * millions);
    Whole(x.stampDuty, if side == SELL then 0 else if option then 3000 * millions else 2000 * millions);
    Whole(x.gst, 360 + if option then 9018 * millions else 378 * millions);
    Whole(x.total, WholeTotal(millions, side, option));
  }

  function WholeTotal(millions: int, side: Side, option: bool): int {
    2360 + 100 * millions
    + (if side == BUY then 0 else if option then 62500 * millions else 12500 * millions)
    + (if option then 50000 * millions else 2000 * millions)
    + (if side == SELL then 0 else if option then 3000 * millions else 2000 * millions)
    + if option then 9018 * millions else 378 * millions
  }

  lemma Whole(x: real, paise: int)
    requires paise >= 0 && x * 100.0 == paise as real
    ensures Round2(x) == x
  {
    HalfUp(paise);
    assert x * 100.0 + 0.5 == paise as real + 0.5;
    assert Paise(x) == paise;
  }

  lemma HalfUp(n: int)
    ensures (n as real + 0.5).Floor == n
  {
  }

  /** An option pays more than a future for the same trade, by at least a paisa once the turnover is twenty. */
  lemma OptionsCostMore(price: real, quantity: int, side: Side, option: Instrument)
    requires price * quantity as real >= 20.0 && option != FUT
    ensures CalculateCharges(price, quantity, side, option).total >= CalculateCharges(price, quantity, side, FUT).total + 0.01
  {
    var turnover := price * quantity as real;
    var more, less := Exact(turnover, side, option).total, Exact(turnover, side, FUT).total;
    ExactIsNonNegative(turnover, side, FUT);
    assert more >= less + 0.01;
    RoundingIsMonotone(less + 0.01, more);
    NextPaisa(less);
  }

  lemma NextPaisa(x: real)
    requires x >= 0.0
    ensures Paise(x + 0.01) == Paise(x) + 1
  {
    assert (x + 0.01) * 100.0 + 0.5 == (x * 100.0 + 0.5) + 1.0;
  }
}
