/**
 * How far a bar moves for and against a position, in basis points of its entry price.
 */
module Excursion {
  import opened Numeric

  datatype Side = Buy | Sell | Other(name: string)

  function Bps(entry: real, move: real): real
    requires entry > 0.0
  {
    move / entry * 10000.0
  }

  function Favorable(side: Side, entry: real, high: real, low: real): real
    requires entry > 0.0
  {
    Max(0.0, if side == Sell then Bps(entry, entry - low) else Bps(entry, high - entry))
  }

  function Adverse(side: Side, entry: real, high: real, low: real): real
    requires entry > 0.0
  {
    Max(0.0, if side == Sell then Bps(entry, high - entry) else Bps(entry, entry - low))
  }

  function WorstGross(side: Side, entry: real, high: real, low: real): real
    requires entry > 0.0
  {
    if side == Buy then Bps(entry, low - entry) else Bps(entry, entry - high)
  }

  function DirectionalReturn(side: Side, entry: real, exit: real): real
    requires entry > 0.0
  {
    if side == Sell then -Bps(entry, exit - entry) else Bps(entry, exit - entry)
  }

  /** A close inside the bar never returns less than the worst price of the bar. */
  lemma {:induction false} CloseBeatsWorst(side: Side, entry: real, high: real, low: real, close: real)
    requires entry > 0.0 && low <= close <= high && !side.Other?
    ensures WorstGross(side, entry, high, low) <= DirectionalReturn(side, entry, close)
  {
  }

  // ----- basis points in prices -----

  /** The price a gain (or, for bps below zero, a loss) of that many basis points away from the entry. */
  function PriceAt(side: Side, entry: real, bps: real): real {
    if side == Sell then entry * (1.0 - bps / 10000.0) else entry * (1.0 + bps / 10000.0)
  }

  lemma {:induction false} MoveReaches(entry: real, price: real, bps: real)
    requires entry > 0.0
    ensures Bps(entry, price - entry) >= bps <==> price >= entry * (1.0 + bps / 10000.0)
    ensures Bps(entry, price - entry) <= bps <==> price <= entry * (1.0 + bps / 10000.0)
  {
    var q, f := (price - entry) / entry, bps / 10000.0;
    assert q * entry == price - entry;
    assert (q - f) * entry == price - entry * (1.0 + f);
    SignOfProduct(q - f, entry);
  }

  lemma {:induction false} SignOfProduct(x: real, y: real)
    requires y > 0.0
    ensures x * y >= 0.0 <==> x >= 0.0
    ensures x * y <= 0.0 <==> x <= 0.0
  {
    if x > 0.0 {
      assert x * y > 0.0;
    } else if x < 0.0 {
      assert -x * y > 0.0;
    }
  }

  lemma {:induction false} MoveBack(entry: real, price: real)
    requires entry > 0.0
    ensures Bps(entry, entry - price) == -Bps(entry, price - entry)
  {
  }

  lemma {:induction false} PriceOrder(side: Side, entry: real, a: real, b: real)
    requires entry > 0.0 && a <= b
    ensures if side == Sell then PriceAt(side, entry, b) <= PriceAt(side, entry, a) else PriceAt(side, entry, a) <= PriceAt(side, entry, b)
  {
    assert (b - a) / 10000.0 * entry >= 0.0;
  }

  lemma {:induction false} ExcursionWithin(side: Side, entry: real, high: real, low: real, favorable: real, adverse: real)
    requires entry > 0.0 && favorable >= Favorable(side, entry, high, low) && adverse >= Adverse(side, entry, high, low)
    ensures if side == Sell then low >= PriceAt(side, entry, favorable) && high <= PriceAt(side, entry, -adverse)
            else high <= PriceAt(side, entry, favorable) && low >= PriceAt(side, entry, -adverse)
  {
    hide Bps;
    MoveReaches(entry, high, if side == Sell then adverse else favorable);
    MoveReaches(entry, low, if side == Sell then -favorable else -adverse);
    MoveBack(entry, low);
  }

  lemma {:induction false} FavorableIsTraded(side: Side, entry: real, high: real, low: real, favorable: real)
    requires entry > 0.0 && favorable == Favorable(side, entry, high, low) != 0.0
    ensures (if side == Sell then low else high) == PriceAt(side, entry, favorable)
  {
    hide Bps;
    MoveReaches(entry, high, favorable);
    MoveReaches(entry, low, -favorable);
    MoveBack(entry, low);
  }

  lemma {:induction false} AdverseIsTraded(side: Side, entry: real, high: real, low: real, adverse: real)
    requires entry > 0.0 && adverse == Adverse(side, entry, high, low) != 0.0
    ensures (if side == Sell then high else low) == PriceAt(side, entry, -adverse)
  {
    hide Bps;
    MoveReaches(entry, high, adverse);
    MoveReaches(entry, low, -adverse);
    MoveBack(entry, low);
  }

  lemma {:induction false} ReturnInPrices(side: Side, entry: real, close: real)
    requires entry > 0.0
    ensures PriceAt(side, entry, DirectionalReturn(side, entry, close)) == close
  {
    assert (close - entry) / entry * entry == close - entry;
  }
}
