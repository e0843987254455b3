/**
  The trading signal for one symbol: RSI confirmation over the last readings,
  the EMA trend and the MACD histogram. The indicator series themselves come
  from the candle data; a missing reading (NaN) is `None`.
*/
module Signals {
  import opened Wrappers
  import opened Slices

  /** The indicator values one iteration reads for a symbol. */
  datatype Indicators = Indicators(
    rsi: seq<Option<real>>,   // the RSI series, oldest first
    emaFast: Option<real>,    // last fast EMA
    emaSlow: Option<real>,    // last slow EMA
    macdHist: Option<real>,   // last MACD histogram value
    price: real)              // last close

  /** Both readings present and the fast EMA above the slow one (NaN compares false). */
  predicate TrendUp(ind: Indicators) {
    ind.emaFast.Some? && ind.emaSlow.Some? && ind.emaFast.value > ind.emaSlow.value
  }

  /** `hist > x` with NaN comparing false. */
  predicate Above(v: Option<real>, x: real) {
    v.Some? && v.value > x
  }

  /** `hist < x` with NaN comparing false. */
  predicate Below(v: Option<real>, x: real) {
    v.Some? && v.value < x
  }

  /** `series.notnull().all()` */
  predicate AllPresent(w: seq<Option<real>>) {
    forall i :: 0 <= i < |w| ==> w[i].Some?
  }

  /** `(series < x).all()` */
  predicate AllBelow(w: seq<Option<real>>, x: real) {
    forall i :: 0 <= i < |w| ==> Below(w[i], x)
  }

  /** `(series > x).all()` */
  predicate AllAbove(w: seq<Option<real>>, x: real) {
    forall i :: 0 <= i < |w| ==> Above(w[i], x)
  }

  /**
    The thresholds are read only when the confirmation window exists
    (`RSI_CONFIRM <= len(rsi)`) and holds no missing reading.
  */
  predicate WindowUsable(rsi: seq<Option<real>>, k: int) {
    k <= |rsi| && AllPresent(PyTail(rsi, k))
  }

  datatype Confirm = Confirm(buy: bool, sell: bool)

  /**
    RSI confirmation: over the last `k` readings (`rsi.iloc[-k:]`), buy when
    all are below `oversold`, sell when all are above `overbought`; neither
    when the window is unusable.
  */
  function RsiConfirm(rsi: seq<Option<real>>, k: int, oversold: real, overbought: real): Confirm {
    if WindowUsable(rsi, k) then
      var w := PyTail(rsi, k);
      Confirm(AllBelow(w, oversold), AllAbove(w, overbought))
    else Confirm(false, false)
  }

  /** `buy_ok`: confirmed oversold, trend up, histogram above the threshold. */
  predicate BuyOk(c: Confirm, ind: Indicators, threshold: real) {
    c.buy && TrendUp(ind) && Above(ind.macdHist, threshold)
  }

  /** `sell_ok`: confirmed overbought, or trend not up, or histogram below minus the threshold. */
  predicate SellOk(c: Confirm, ind: Indicators, threshold: real) {
    c.sell || !TrendUp(ind) || Below(ind.macdHist, -threshold)
  }

  // ---------------------------------------------------------------------
  // Lemmas

  /**
    For a positive `k`, a buy is confirmed exactly when there are at least `k`
    readings and each of the last `k` is present and below `oversold`.
  */
  lemma BuyConfirmedIff(rsi: seq<Option<real>>, k: int, oversold: real, overbought: real)
    requires k >= 1
    ensures RsiConfirm(rsi, k, oversold, overbought).buy <==>
              k <= |rsi| && forall i :: |rsi| - k <= i < |rsi| ==> Below(rsi[i], oversold)
  {
    if k <= |rsi| {
      var w := PyTail(rsi, k);
      assert |w| == k;
      assert forall i :: 0 <= i < k ==> w[i] == rsi[|rsi| - k + i];
      if forall i :: |rsi| - k <= i < |rsi| ==> Below(rsi[i], oversold) {
        assert forall i :: 0 <= i < k ==> Below(w[i], oversold);
      }
      if RsiConfirm(rsi, k, oversold, overbought).buy {
        forall i | |rsi| - k <= i < |rsi|
          ensures Below(rsi[i], oversold)
        {
          assert w[i - (|rsi| - k)] == rsi[i];
        }
      }
    }
  }

  /** The sell side of BuyConfirmedIff. */
  lemma SellConfirmedIff(rsi: seq<Option<real>>, k: int, oversold: real, overbought: real)
    requires k >= 1
    ensures RsiConfirm(rsi, k, oversold, overbought).sell <==>
              k <= |rsi| && forall i :: |rsi| - k <= i < |rsi| ==> Above(rsi[i], overbought)
  {
    if k <= |rsi| {
      var w := PyTail(rsi, k);
      assert |w| == k;
      assert forall i :: 0 <= i < k ==> w[i] == rsi[|rsi| - k + i];
      if forall i :: |rsi| - k <= i < |rsi| ==> Above(rsi[i], overbought) {
        assert forall i :: 0 <= i < k ==> Above(w[i], overbought);
      }
      if RsiConfirm(rsi, k, oversold, overbought).sell {
        forall i | |rsi| - k <= i < |rsi|
          ensures Above(rsi[i], overbought)
        {
          assert w[i - (|rsi| - k)] == rsi[i];
        }
      }
    }
  }

  /** With a non-empty window and `oversold <= overbought`, buy and sell are never both confirmed. */
  lemma ConfirmExclusive(rsi: seq<Option<real>>, k: int, oversold: real, overbought: real)
    requires oversold <= overbought
    requires 1 <= k || (k <= 0 && -k < |rsi|)
    ensures !(RsiConfirm(rsi, k, oversold, overbought).buy && RsiConfirm(rsi, k, oversold, overbought).sell)
  {
    var w := PyTail(rsi, k);
    if WindowUsable(rsi, k) {
      assert |w| > 0;
      assert Below(w[0], oversold) ==> !Above(w[0], overbought);
    }
  }

  /**
    An empty window confirms both sides: `RSI_CONFIRM = 0` on an empty RSI
    series, or a negative `RSI_CONFIRM` at least as long as the series,
    leaves `.all()` to run over nothing.
  */
  lemma EmptyWindowConfirmsBoth(rsi: seq<Option<real>>, k: int, oversold: real, overbought: real)
    requires k <= 0 && -k >= |rsi|
    ensures RsiConfirm(rsi, k, oversold, overbought) == Confirm(true, true)
  {
    assert PyTail(rsi, k) == [];
  }

  /** Buying and selling exclude each other whenever the confirmations do and the threshold is not negative. */
  lemma BuySellExclusive(c: Confirm, ind: Indicators, threshold: real)
    requires !(c.buy && c.sell)
    requires threshold >= 0.0
    ensures !(BuyOk(c, ind, threshold) && SellOk(c, ind, threshold))
  {
  }

  /** The RSI-driven version: no symbol is ever both a buy and a sell under sane settings. */
  lemma SignalsExclusive(ind: Indicators, k: int, oversold: real, overbought: real, threshold: real)
    requires oversold <= overbought && threshold >= 0.0
    requires 1 <= k || (k <= 0 && -k < |ind.rsi|)
    ensures !(BuyOk(RsiConfirm(ind.rsi, k, oversold, overbought), ind, threshold) &&
              SellOk(RsiConfirm(ind.rsi, k, oversold, overbought), ind, threshold))
  {
    ConfirmExclusive(ind.rsi, k, oversold, overbought);
    BuySellExclusive(RsiConfirm(ind.rsi, k, oversold, overbought), ind, threshold);
  }

  /** A downtrend (or missing EMA) always signals a sell. */
  lemma NoTrendSells(c: Confirm, ind: Indicators, threshold: real)
    requires !TrendUp(ind)
    ensures SellOk(c, ind, threshold) && !BuyOk(c, ind, threshold)
  {
  }
}
