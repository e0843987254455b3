/**
  Order sizing: how much quote currency an order spends, how many units that
  buys, and the flooring of a quantity to the exchange's precision.
  Prices, balances and quantities are exact reals here.
*/
module Sizing {

  function Pow10Nat(k: nat): (r: real)
    ensures r >= 1.0
  {
    if k == 0 then 1.0 else 10.0 * Pow10Nat(k - 1)
  }

  /** `10 ** prec` for a Python int `prec`; a negative exponent gives `1 / 10 ** -prec`. */
  function Pow10(e: int): (r: real)
    ensures r > 0.0
  {
    if e >= 0 then Pow10Nat(e) else 1.0 / Pow10Nat(-e)
  }

  /**
    `floor_qty(qty, prec)`: non-positive quantities become 0; otherwise the
    quantity is rounded down to a multiple of `10 ** -prec`.
  */
  function FloorQty(qty: real, prec: int): real {
    if qty <= 0.0 then 0.0 else StepDown(qty, Pow10(prec))
  }

  /** `math.floor(qty * f) / f` */
  function StepDown(qty: real, f: real): real
    requires f > 0.0
  {
    (qty * f).Floor as real / f
  }

  /** FloorQty never rounds up, never goes negative, and loses less than one step. */
  lemma FloorQtyBounds(qty: real, prec: int)
    ensures qty <= 0.0 ==> FloorQty(qty, prec) == 0.0
    ensures qty > 0.0 ==> 0.0 <= FloorQty(qty, prec) <= qty
    ensures qty > 0.0 ==> qty - FloorQty(qty, prec) < 1.0 / Pow10(prec)
  {
    if qty > 0.0 {
      StepDownBounds(qty, Pow10(prec));
    }
  }

  lemma StepDownBounds(qty: real, f: real)
    requires qty > 0.0 && f > 0.0
    ensures 0.0 <= StepDown(qty, f) <= qty
    ensures qty - StepDown(qty, f) < 1.0 / f
  {
    var n := (qty * f).Floor;
    assert n as real <= qty * f < n as real + 1.0;
    assert n >= 0;
    assert n as real / f <= (qty * f) / f;
    assert (qty * f) / f == qty;
    assert qty - n as real / f == (qty * f - n as real) / f;
    assert (qty * f - n as real) / f < 1.0 / f;
  }

  /** No multiple of the step that fits under `qty` is larger than `FloorQty(qty, prec)`. */
  lemma FloorQtyIsGreatestStep(qty: real, prec: int, n: int)
    requires qty > 0.0
    requires n as real / Pow10(prec) <= qty
    ensures n as real / Pow10(prec) <= FloorQty(qty, prec)
  {
    StepDownIsGreatest(qty, Pow10(prec), n);
  }

  lemma StepDownIsGreatest(qty: real, f: real, n: int)
    requires f > 0.0 && n as real / f <= qty
    ensures n as real / f <= StepDown(qty, f)
  {
    var m := (qty * f).Floor;
    MulMonotone(n as real / f, qty, f);
    assert (n as real / f) * f == n as real;
    assert n <= m;
    DivMonotone(n as real, m as real, f);
  }

  /** FloorQty's result is a whole number of steps: `floor(qty * 10 ** prec)` of them. */
  lemma FloorQtyOnStep(qty: real, prec: int)
    requires qty > 0.0
    ensures FloorQty(qty, prec) * Pow10(prec) == (qty * Pow10(prec)).Floor as real
  {
    StepDownWhole(qty, Pow10(prec));
  }

  lemma StepDownWhole(qty: real, f: real)
    requires f > 0.0
    ensures StepDown(qty, f) * f == (qty * f).Floor as real
  {
  }

  lemma MulMonotone(a: real, b: real, f: real)
    requires a <= b && f >= 0.0
    ensures a * f <= b * f
  {
  }

  lemma DivMonotone(a: real, b: real, f: real)
    requires a <= b && f > 0.0
    ensures a / f <= b / f
  {
    assert b / f - a / f == (b - a) / f;
  }

  /** A worked case: `floor_qty(1.23456, 2) == 1.23`. */
  lemma FloorQtyExample()
    ensures FloorQty(1.23456, 2) == 1.23
  {
    assert Pow10(2) == 100.0;
    assert (1.23456 * 100.0).Floor == 123;
    assert StepDown(1.23456, 100.0) == 1.23;
  }

  function MinReal(a: real, b: real): real {
    if a <= b then a else b
  }

  /**
    The quote amount an order spends: a fixed `ORDER_SIZE_USD` when it is
    positive (capped by a positive balance), otherwise `ORDER_PERCENT` of a
    positive balance, otherwise nothing.
  */
  function OrderUsd(sizeUsd: real, percent: real, balance: real): (r: real)
    ensures sizeUsd > 0.0 ==> 0.0 < r <= sizeUsd
    ensures sizeUsd > 0.0 && balance > 0.0 ==> r <= balance
    ensures sizeUsd <= 0.0 && balance <= 0.0 ==> r == 0.0
    ensures sizeUsd <= 0.0 && balance > 0.0 && 0.0 <= percent <= 100.0 ==> 0.0 <= r <= balance
    ensures sizeUsd > 0.0 && balance <= 0.0 ==> r == sizeUsd
    ensures sizeUsd > 0.0 && balance > 0.0 ==> r == sizeUsd || r == balance
    ensures sizeUsd <= 0.0 && balance > 0.0 ==> r * 100.0 == balance * percent
  {
    if sizeUsd > 0.0 then
      if balance > 0.0 then MinReal(sizeUsd, balance) else sizeUsd
    else if balance > 0.0 then balance * (percent / 100.0)
    else 0.0
  }

  /** `order_usd / price`, or 0 when the price is not positive. */
  function RawQty(orderUsd: real, price: real): (r: real)
    ensures price > 0.0 ==> r * price == orderUsd
    ensures price <= 0.0 ==> r == 0.0
  {
    if price > 0.0 then orderUsd / price else 0.0
  }

  /**
    With a positive balance and a sane percentage, the floored order never
    costs more than the balance.
  */
  lemma FlooredOrderFitsBalance(sizeUsd: real, percent: real, balance: real, price: real, prec: int)
    requires price > 0.0 && balance > 0.0
    requires sizeUsd > 0.0 || 0.0 <= percent <= 100.0
    ensures 0.0 <= FloorQty(RawQty(OrderUsd(sizeUsd, percent, balance), price), prec) * price <= balance
  {
    var usd := OrderUsd(sizeUsd, percent, balance);
    var raw := RawQty(usd, price);
    FloorQtyBounds(raw, prec);
    CostWithin(FloorQty(raw, prec), raw, price, balance);
  }

  /** A quantity no larger than `raw` costs no more than `raw` does. */
  lemma CostWithin(q: real, raw: real, price: real, balance: real)
    requires price > 0.0 && 0.0 <= q && (raw > 0.0 ==> q <= raw) && (raw <= 0.0 ==> q == 0.0)
    requires raw * price <= balance && balance > 0.0
    ensures 0.0 <= q * price <= balance
  {
    MulMonotone(0.0, q, price);
    if raw > 0.0 {
      MulMonotone(q, raw, price);
    }
  }
}
