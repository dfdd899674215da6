/** Pre-flight checks on an order request. */
module Validation {
  import opened Collections
  import opened Ledger
  import opened PaperBroker
  import opened Dedup

  /** An order request; its price as a number and as it is written out. */
  datatype Request = Request(strategy: string, token: int, symbol: string, side: Side, orderType: OrderType,
                             quantity: int, price: real, priceText: string)

  datatype Verdict = Cleared | Refused | Duplicate

  /** Units in a lot: the longest listed name that begins the symbol decides, and other symbols trade in units. */
  function LotSizeOf(symbol: string): (lot: int)
    ensures lot > 0
  {
    if "BANKNIFTY" <= symbol then 30 else if "FINNIFTY" <= symbol then 40 else if "NIFTY" <= symbol then 75 else 1
  }

  function FreezeQuantity(symbol: string): Option<int> {
    if "BANKNIFTY" <= symbol then Some(900)
    else if "FINNIFTY" <= symbol || "NIFTY" <= symbol then Some(1800)
    else None
  }

  function TypeName(t: OrderType): string {
    match t
    case MARKET => "MARKET" case LIMIT => "LIMIT" case STOP_LIMIT => "SL" case STOP_MARKET => "SL-M"
  }

  function IdentityOf(r: Request): Identity {
    Identity(r.strategy, r.token, r.side, r.quantity, TypeName(r.orderType), r.priceText)
  }

  /** Two orders are the same to the duplicate check exactly when they agree in everything but the name of the instrument
      and how the price is stored. */
  lemma SameIdentity(a: Request, b: Request)
    ensures IdentityOf(a) == IdentityOf(b) <==>
            a.(symbol := "", price := 0.0) == b.(symbol := "", price := 0.0)
  {
    assert forall t :: TypeName(t)[0] == if t == MARKET then 'M' else if t == LIMIT then 'L' else 'S';
  }

  predicate WholeLots(r: Request) { r.quantity % LotSizeOf(r.symbol) == 0 }

  predicate NeedsPrice(t: OrderType) { t == LIMIT || t == STOP_LIMIT }

  /** More than a tenth away from the last traded price, when both are known. */
  predicate FatFinger(r: Request, ltp: Option<real>) {
    r.price > 0.0 && ltp.Some? && ltp.value != 0.0 && AbsR(r.price - ltp.value) / ltp.value > 0.10
  }

  /** Everything but the duplicate check. */
  ghost predicate Sound(r: Request, marketOpen: bool, ltp: Option<real>) {
    && marketOpen
    && WholeLots(r)
    && (FreezeQuantity(r.symbol).Some? ==> r.quantity <= FreezeQuantity(r.symbol).value)
    && (NeedsPrice(r.orderType) ==> r.price > 0.0)
    && !FatFinger(r, ltp)
  }

  /** What a sound order is in numbers: in market hours, in whole lots of its index, within the freeze quantity of its
      index, priced where its type asks for a price, and within a tenth of the last price if both are known. */
  lemma WhatIsSound(r: Request, marketOpen: bool, ltp: Option<real>)
    ensures var bank, fin, nifty := "BANKNIFTY" <= r.symbol, "FINNIFTY" <= r.symbol, "NIFTY" <= r.symbol;
            Sound(r, marketOpen, ltp) <==>
              && marketOpen
              && (bank ==> r.quantity % 30 == 0 && r.quantity <= 900)
              && (fin ==> r.quantity % 40 == 0 && r.quantity <= 1800)
              && (nifty ==> r.quantity % 75 == 0 && r.quantity <= 1800)
              && (r.orderType == LIMIT || r.orderType == STOP_LIMIT ==> r.price > 0.0)
              && (r.price > 0.0 && ltp.Some? && ltp.value > 0.0 ==> 0.9 * ltp.value <= r.price <= 1.1 * ltp.value)
  {
    assert "BANKNIFTY" <= r.symbol ==> r.symbol[0] == 'B';
    assert "FINNIFTY" <= r.symbol ==> r.symbol[0] == 'F';
    assert "NIFTY" <= r.symbol ==> r.symbol[0] == 'N';
    if r.price > 0.0 && ltp.Some? && ltp.value != 0.0 { WithinATenth(r.price, ltp.value); }
  }

  lemma WithinATenth(price: real, ltp: real)
    requires price > 0.0 && ltp != 0.0
    ensures AbsR(price - ltp) / ltp > 0.10 <==> ltp > 0.0 && !(0.9 * ltp <= price <= 1.1 * ltp)
  {
    ShareOf(AbsR(price - ltp), ltp);
  }

  lemma ShareOf(part: real, whole: real)
    requires part >= 0.0 && whole != 0.0
    ensures part / whole > 0.10 <==> whole > 0.0 && part > 0.10 * whole
  {
    var share := part / whole;
    assert share * whole == part;
    if whole > 0.0 {
      if share > 0.10 { assert share * whole > 0.10 * whole; } else { assert share * whole <= 0.10 * whole; }
    } else if share > 0.0 {
      assert share * whole < 0.0;
    }
  }

  method Preflight(r: Request, marketOpen: bool, ltp: Option<real>) returns (sound: bool)
    ensures sound <==> Sound(r, marketOpen, ltp)
  {
    if !marketOpen {
      return false;
    }
    if r.quantity % LotSizeOf(r.symbol) != 0 {
      return false;
    }
    var freeze := FreezeQuantity(r.symbol);
    if freeze.Some? && r.quantity > freeze.value {
      return false;
    }
    if NeedsPrice(r.orderType) && r.price <= 0.0 {
      return false;
    }
    if r.price > 0.0 && ltp.Some? && ltp.value != 0.0 {
      var deviation := AbsR(r.price - ltp.value) / ltp.value;
      if deviation > 0.10 {
        return false;
      }
    }
    sound := true;
  }

  class OrderValidator {
    const dedup: OrderDeduplicator
    const paperTrading: bool

    constructor (dedup: OrderDeduplicator, paperTrading: bool)
      ensures this.dedup == dedup && this.paperTrading == paperTrading
    {
      this.dedup := dedup;
      this.paperTrading := paperTrading;
    }

    /** An unsound order is refused and leaves no trace in the window; a sound one goes through exactly when no
        equal order did within the window, and then blocks its own repetition. */
    method Validate(r: Request, marketOpen: bool, ltp: Option<real>, now: real, later: real) returns (v: Verdict)
      requires dedup.Valid() && dedup.clock <= now <= later
      modifies dedup
      ensures dedup.Valid() && dedup.clock <= later
      ensures v == Refused <==> !Sound(r, paperTrading || marketOpen, ltp)
      ensures v == Refused ==> dedup.accepted == old(dedup.accepted)
      ensures v == Duplicate ==> Seen(old(dedup.accepted), IdentityOf(r), now - dedup.window)
                                 && dedup.accepted == old(dedup.accepted)
      ensures v == Cleared ==> !Seen(old(dedup.accepted), IdentityOf(r), now - dedup.window)
                                && dedup.accepted == old(dedup.accepted) + [Accepted(IdentityOf(r), later)]
    {
      var sound := Preflight(r, paperTrading || marketOpen, ltp);
      if !sound {
        return Refused;
      }
      var unseen := dedup.Check(IdentityOf(r), now, later);
      v := if unseen then Cleared else Duplicate;
    }
  }

  /** Once an order has gone through, sending it again within the window is refused as a duplicate. */
  lemma RetryIsADuplicate(accepted: seq<Accepted>, id: Identity, at: real, now: real, window: real)
    requires Accepted(id, at) in accepted && now - at <= window
    ensures Seen(accepted, id, now - window)
  {
    var i :| 0 <= i < |accepted| && accepted[i] == Accepted(id, at);
    assert accepted[i].id == id && accepted[i].at >= now - window;
  }

  /** The order that would reverse a leg: the other side, the same quantity and type, and no price. */
  function ReversalOf(r: Request): Request {
    r.(side := if r.side == SELL then BUY else SELL, price := 0.0, priceText := "0")
  }

  /** The one order is for exactly what takes back the other, at no price: same strategy, instrument and type, opposite
      quantity. */
  ghost predicate TakesBack(r: Request, leg: Request) {
    && r.strategy == leg.strategy && r.token == leg.token && r.symbol == leg.symbol && r.orderType == leg.orderType
    && r.quantity == leg.quantity && r.price == 0.0 && r.priceText == "0"
    && Signed(r.side, r.quantity) == -Signed(leg.side, leg.quantity)
  }

  lemma ReversalTakesBack(leg: Request)
    ensures TakesBack(ReversalOf(leg), leg)
  {
  }

  /** So a leg placed with a limit price can never be reversed, while one without is as sound as it was. */
  lemma LimitLegsCannotBeReversed(r: Request, marketOpen: bool, ltp: Option<real>)
    requires Sound(r, marketOpen, ltp)
    ensures forall later: Option<real> :: Sound(ReversalOf(r), true, later) <==> r.orderType != LIMIT && r.orderType != STOP_LIMIT
  {
  }
}
