/**
 The value types every component shares (src/moex_bot/domain.py).

 `Decimal` is an exact `real`, an aware timestamp is an `int` number of seconds. A class whose
 `__post_init__` rejects some field values is a subset type, so that every value of the type is
 one the constructor accepts.
 */
module Domain {

  /** A Python call either returns or raises. */
  datatype Result<+T> = Ok(value: T) | Err(error: string)

  datatype Option<+T> = None | Some(value: T)

  datatype Side = Buy | Sell

  datatype OrderStatus =
    | Planned
    | Validated
    | Submitted
    | Accepted
    | PartiallyFilled
    | Filled
    | Cancelled
    | Rejected
    | Unknown

  datatype InstrumentData = InstrumentData(
    secid: string,
    uid: string,
    lotSize: int,
    tickSize: real,
    currency: string,
    issuerId: string,
    sector: string,
    riskCluster: string,
    assetClass: string,
    shortEnabled: bool)

  type Instrument = i: InstrumentData | i.lotSize > 0 && i.tickSize > 0.0
    witness InstrumentData("S", "U", 1, 1.0, "RUB", "I", "S", "C", "share", false)

  datatype IntentData = IntentData(
    orderRequestId: string,
    instrument: Instrument,
    side: Side,
    lots: int,
    limitPrice: real,
    notional: real,
    rationale: string,
    confirmMarginTrade: bool,
    orderType: string)

  type OrderIntent = o: IntentData | o.lots > 0 && o.limitPrice > 0.0 && o.notional > 0.0
    witness IntentData(
              "id", InstrumentData("S", "U", 1, 1.0, "RUB", "I", "S", "C", "share", false),
              Buy, 1, 1.0, 1.0, "", false, "limit")

  datatype OrderRecord = OrderRecord(
    intent: OrderIntent,
    status: OrderStatus,
    filledLots: int,
    brokerOrderId: Option<string>,
    statusDetail: string)

  function Abs(x: real): real {
    if x < 0.0 then -x else x
  }

  function AbsInt(x: int): int {
    if x < 0 then -x else x
  }

  function Min(a: real, b: real): real {
    if a <= b then a else b
  }

  function Max(a: real, b: real): real {
    if a >= b then a else b
  }

  function MinInt(a: int, b: int): int {
    if a <= b then a else b
  }

  function MaxInt(a: int, b: int): int {
    if a >= b then a else b
  }

  /** Lots a map of positions holds for one security; an absent key is zero. */
  function Lots(held: map<string, int>, secid: string): int {
    if secid in held then held[secid] else 0
  }

  /** The signed lots an execution of `lots` adds to a position. */
  function Signed(side: Side, lots: int): int {
    if side == Buy then lots else -lots
  }

  /** An order that brings a position closer to zero without crossing it. */
  predicate Reduces(current: int, resulting: int) {
    current != 0 && AbsInt(resulting) < AbsInt(current) && current * resulting >= 0
  }

  /** An order that opens or increases a short position. */
  predicate Shorts(current: int, resulting: int) {
    resulting < MinInt(current, 0)
  }

  function Ticks(k: int, tick: real): real {
    k as real * tick
  }

  /** `(x / tick).to_integral_value(ROUND_FLOOR) * tick` */
  function TickDown(x: real, tick: real): real
    requires tick > 0.0
  {
    Ticks((x / tick).Floor, tick)
  }

  /** `(x / tick).to_integral_value(ROUND_CEILING) * tick` */
  function TickUp(x: real, tick: real): real
    requires tick > 0.0
  {
    -TickDown(-x, tick)
  }

  /** `(x / tick).quantize(1, ROUND_HALF_UP) * tick` of a positive amount */
  function TickRound(x: real, tick: real): real
    requires tick > 0.0
  {
    TickDown(x + tick / 2.0, tick)
  }

  /** The Moscow day of an instant: UTC+3 without daylight saving. */
  function MoscowDay(t: int): int {
    (t + 10800) / 86400
  }

  ghost predicate OnTick(x: real, tick: real) {
    exists k: int :: x == Ticks(k, tick)
  }

  /** `n <= x // y` for a positive divisor, without the quotient. */
  lemma FloorQuotient(x: real, y: real, n: int)
    requires y > 0.0
    ensures n <= (x / y).Floor <==> n as real * y <= x
  {
    var q := x / y;
    assert q * y == x;
    if n <= q.Floor {
      assert n as real <= q;
      assert n as real * y <= q * y;
    } else {
      assert n as real > q;
      assert n as real * y > q * y;
    }
  }

  /** Rounding down gives the greatest multiple of the tick that is not above `x`. */
  lemma TickDownIsGreatest(x: real, tick: real)
    requires tick > 0.0
    ensures OnTick(TickDown(x, tick), tick)
    ensures TickDown(x, tick) <= x < TickDown(x, tick) + tick
  {
    var k := (x / tick).Floor;
    FloorQuotient(x, tick, k);
    FloorQuotient(x, tick, k + 1);
    assert (k + 1) as real * tick == k as real * tick + tick;
  }

  /** Rounding leaves exactly the multiples of the tick as they are. */
  lemma OnTickIff(x: real, tick: real)
    requires tick > 0.0
    ensures OnTick(x, tick) <==> TickDown(x, tick) == x
  {
    TickDownIsGreatest(x, tick);
    if OnTick(x, tick) {
      var k: int :| x == Ticks(k, tick);
      FloorQuotient(x, tick, k);
      FloorQuotient(x, tick, k + 1);
      assert (k + 1) as real * tick == k as real * tick + tick;
    }
  }

  /** Rounding up gives the least multiple of the tick that is not below `x`. */
  lemma TickUpIsLeast(x: real, tick: real)
    requires tick > 0.0
    ensures OnTick(TickUp(x, tick), tick)
    ensures x <= TickUp(x, tick) < x + tick
  {
    TickDownIsGreatest(-x, tick);
    var k := (-x / tick).Floor;
    NegateProduct(k, tick);
  }

  /** Rounding to the tick gives the nearest multiple, the upper one of two. */
  lemma TickRoundIsNearest(x: real, tick: real)
    requires tick > 0.0
    ensures OnTick(TickRound(x, tick), tick)
    ensures TickRound(x, tick) - tick / 2.0 <= x < TickRound(x, tick) + tick / 2.0
  {
    TickDownIsGreatest(x + tick / 2.0, tick);
  }

  /** A Moscow day begins at 21:00 UTC of the day before. */
  lemma MoscowDayBegins(t: int, day: int)
    ensures MoscowDay(t) == day <==> day * 86400 - 10800 <= t < day * 86400 + 75600
  {
  }

  lemma NegateProduct(k: int, tick: real)
    ensures -Ticks(k, tick) == Ticks(-k, tick)
  {
  }

  /** A product is negative exactly when its factors are on different sides of zero. */
  lemma ProductIsNegative(a: int, b: int)
    ensures a * b < 0 <==> (a > 0 && b < 0) || (a < 0 && b > 0)
  {
    if a > 0 && b > 0 {
      assert a * b > 0;
    } else if a < 0 && b < 0 {
      assert a * b > 0;
    } else if a > 0 && b < 0 {
      assert a * -b > 0;
    } else if a < 0 && b > 0 {
      assert -a * b > 0;
    }
  }

  /** `n <= a // b` for integers and a positive divisor. */
  lemma FloorQuotientInt(a: int, b: int, n: int)
    requires b > 0
    ensures n <= a / b <==> n * b <= a
  {
    var q := a / b;
    assert a == q * b + a % b;
    if n <= q {
      assert n * b <= q * b;
    } else {
      assert n >= q + 1;
      assert n * b >= (q + 1) * b;
    }
  }
}
