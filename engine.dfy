/**
  One pass of the trading loop (`run_trading_iteration`): which users trade,
  which symbols they trade, the decision for each symbol, and the position
  state machine that turns a decision into a trade record.

  The exchange is a `Market` value: whether it lists a symbol, the indicator
  values computed from a symbol's candles (`None` when the candles are missing
  or unusable), the quote balance, and the reply to an order.
*/
module Engine {
  import opened Wrappers
  import opened Text
  import opened Records
  import opened Store
  import opened Symbols
  import opened Sizing
  import opened Signals
  import opened Slices

  // ---------------------------------------------------------------------
  // Process configuration

  /** `DRY_RUN` and `SYMBOLS_ENV`, read once from the environment. */
  datatype Config = Config(dryRun: bool, symbolsEnv: seq<string>)

  /** `os.getenv("DRY_RUN", "true").lower() == "true"` */
  function DryRunFrom(raw: Option<string>): bool {
    Lower(raw.GetOr("true")) == "true"
  }

  /** Dry run is the default; any casing of `true` turns it on and anything else turns it off. */
  lemma DryRunSpellings()
    ensures DryRunFrom(None)
    ensures DryRunFrom(Some("TRUE")) && DryRunFrom(Some("True"))
    ensures !DryRunFrom(Some("false")) && !DryRunFrom(Some("1")) && !DryRunFrom(Some(" true"))
  {
    assert Lower("true") == "true";
    assert Lower("TRUE") == "true";
    assert Lower("True") == "true";
    assert Lower("1") == "1";
    assert Lower("false")[0] == 'f';
    assert Lower(" true")[0] == ' ';
  }

  predicate IsComma(c: char) {
    c == ','
  }

  function UpperAll(xs: seq<string>): (r: seq<string>)
    ensures |r| == |xs| && forall k :: 0 <= k < |r| ==> r[k] == Upper(xs[k])
  {
    if xs == [] then [] else [Upper(xs[0])] + UpperAll(xs[1..])
  }

  /** `SYMBOLS_ENV`: the comma-separated `SYMBOLS` variable, stripped and upper-cased, empty pieces dropped. */
  function SymbolsEnvFrom(raw: Option<string>): (r: seq<string>)
    ensures forall k :: 0 <= k < |r| ==> r[k] != []
  {
    UpperAll(TrimmedPieces(Split(raw.GetOr("BTCUSDT,ETHUSDT"), IsComma)))
  }

  lemma UpperAllAppend(a: seq<string>, b: seq<string>)
    ensures UpperAll(a + b) == UpperAll(a) + UpperAll(b)
  {
    assert forall k :: 0 <= k < |a + b| ==> UpperAll(a + b)[k] == (UpperAll(a) + UpperAll(b))[k];
  }

  /** The entries of `a,b` are the entries of `a` followed by those of `b`. */
  lemma SymbolsEnvAppend(a: string, b: string)
    ensures SymbolsEnvFrom(Some(a + [','] + b)) == SymbolsEnvFrom(Some(a)) + SymbolsEnvFrom(Some(b))
  {
    SplitAppend(a, ',', b, IsComma);
    TrimmedPiecesAppend(Split(a, IsComma), Split(b, IsComma));
    UpperAllAppend(TrimmedPieces(Split(a, IsComma)), TrimmedPieces(Split(b, IsComma)));
  }

  /** A piece without a comma is one entry, stripped and upper-cased, unless it is blank. */
  lemma SymbolsEnvPiece(p: string)
    requires ',' !in p
    ensures SymbolsEnvFrom(Some(p)) == if Trim(p) == [] then [] else [Upper(Trim(p))]
  {
    SplitNoSeparator(p, IsComma);
    TrimmedPiecesOne(p);
  }

  /** A symbol is its own entry. */
  lemma SymbolsEnvOfSymbol(a: string)
    requires a != [] && IsSymbol(a)
    ensures SymbolsEnvFrom(Some(a)) == [a]
  {
    assert forall i :: 0 <= i < |a| ==> a[i] != ',';
    TrimFixesSymbol(a);
    UpperFixesSymbol(a);
    SymbolsEnvPiece(a);
  }

  /** A comma-joined list of symbols reads back as exactly that list, in order. */
  lemma {:induction false} SymbolsEnvJoin(xs: seq<string>)
    requires forall k :: 0 <= k < |xs| ==> xs[k] != [] && IsSymbol(xs[k])
    ensures SymbolsEnvFrom(Some(Join(xs, ','))) == xs
  {
    if xs == [] {
      SymbolsEnvPiece([]);
    } else if |xs| == 1 {
      SymbolsEnvOfSymbol(xs[0]);
    } else {
      var head, tail := xs[0], xs[1..];
      assert xs == [head] + tail;
      assert Join(xs, ',') == head + [','] + Join(tail, ',');
      assert forall k :: 0 <= k < |tail| ==> tail[k] == xs[k + 1];
      SymbolsEnvOfSymbol(head);
      SymbolsEnvJoin(tail);
      SymbolsEnvAppend(head, Join(tail, ','));
    }
  }

  /** The process-wide `DEFAULTS` table, with no environment overrides. */
  const Defaults: map<string, Value> := map[
    "RSI_PERIOD" := Num(14.0), "RSI_OVERSOLD" := Num(35.0), "RSI_OVERBOUGHT" := Num(65.0),
    "RSI_CONFIRM" := Num(1.0), "FAST_MA" := Num(9.0), "SLOW_MA" := Num(21.0),
    "ORDER_PERCENT" := Num(5.0), "ORDER_SIZE_USD" := Num(0.0), "MIN_NOTIONAL" := Num(5.0),
    "QTY_PRECISION" := Num(6.0), "TP_PCT" := Num(1.0), "SL_PCT" := Num(0.5),
    "MACD_FAST" := Num(12.0), "MACD_SLOW" := Num(26.0), "MACD_SIGNAL" := Num(9.0),
    "MACD_THRESHOLD" := Num(0.0)]

  /** `{**DEFAULTS, **settings}`: a user's own value wins, the default fills every other key. */
  function Merge(defaults: map<string, Value>, settings: map<string, Value>): (r: map<string, Value>)
    ensures r.Keys == defaults.Keys + settings.Keys
    ensures forall k :: k in settings ==> r[k] == settings[k]
    ensures forall k :: k in defaults && k !in settings ==> r[k] == defaults[k]
  {
    defaults + settings
  }

  // ---------------------------------------------------------------------
  // Reading settings the way float() and int() do

  /** `math.trunc`: Python's int() of a float, rounding toward zero. */
  function Trunc(x: real): (r: int)
    ensures x >= 0.0 ==> 0 <= r && r as real <= x < r as real + 1.0
    ensures x < 0.0 ==> r <= 0 && r as real - 1.0 < x <= r as real
  {
    if x >= 0.0 then x.Floor else -((-x).Floor)
  }

  /** `float(v)`, or None where it raises. Text is read as an integer literal. */
  function AsFloat(v: Value): Option<real> {
    match v
    case Null => None
    case Flag(b) => Some(if b then 1.0 else 0.0)
    case Num(x) => Some(x)
    case Text(s) => (match ParseInt(s) case Some(n) => Some(n as real) case None => None)
    case Texts(_) => None
  }

  /** `int(v)`, or None where it raises. */
  function AsInt(v: Value): Option<int> {
    match v
    case Null => None
    case Flag(b) => Some(if b then 1 else 0)
    case Num(x) => Some(Trunc(x))
    case Text(s) => ParseInt(s)
    case Texts(_) => None
  }

  function Get(m: map<string, Value>, key: string): Value {
    if key in m then m[key] else Null
  }

  /** Every trading parameter after conversion; None marks a value whose conversion raises. */
  datatype Params = Params(
    rsiPeriod: Option<int>, rsiConfirm: Option<int>,
    fastMa: Option<int>, slowMa: Option<int>,
    macdFast: Option<int>, macdSlow: Option<int>, macdSignal: Option<int>,
    oversold: Option<real>, overbought: Option<real>,
    orderSizeUsd: Option<real>, orderPercent: Option<real>,
    qtyPrecision: Option<int>, threshold: Option<real>, minNotional: Option<real>)

  function ParamsOf(m: map<string, Value>): Params {
    Params(
      AsInt(Get(m, "RSI_PERIOD")), AsInt(Get(m, "RSI_CONFIRM")),
      AsInt(Get(m, "FAST_MA")), AsInt(Get(m, "SLOW_MA")),
      AsInt(Get(m, "MACD_FAST")), AsInt(Get(m, "MACD_SLOW")), AsInt(Get(m, "MACD_SIGNAL")),
      AsFloat(Get(m, "RSI_OVERSOLD")), AsFloat(Get(m, "RSI_OVERBOUGHT")),
      AsFloat(if "ORDER_SIZE_USD" in m then m["ORDER_SIZE_USD"] else Num(0.0)),
      AsFloat(Get(m, "ORDER_PERCENT")),
      AsInt(Get(m, "QTY_PRECISION")), AsFloat(Get(m, "MACD_THRESHOLD")), AsFloat(Get(m, "MIN_NOTIONAL")))
  }

  predicate Complete(p: Params) {
    && p.rsiPeriod.Some? && p.rsiConfirm.Some? && p.fastMa.Some? && p.slowMa.Some?
    && p.macdFast.Some? && p.macdSlow.Some? && p.macdSignal.Some?
    && p.oversold.Some? && p.overbought.Some? && p.orderSizeUsd.Some? && p.orderPercent.Some?
    && p.qtyPrecision.Some? && p.threshold.Some? && p.minNotional.Some?
  }

  /** The default table's integer-valued entries. */
  lemma DefaultIntegers()
    ensures Get(Defaults, "RSI_PERIOD") == Num(14.0) && Get(Defaults, "RSI_CONFIRM") == Num(1.0)
    ensures Get(Defaults, "FAST_MA") == Num(9.0) && Get(Defaults, "SLOW_MA") == Num(21.0)
    ensures Get(Defaults, "QTY_PRECISION") == Num(6.0)
  {
  }

  /** The default table's MACD periods. */
  lemma DefaultMacdPeriods()
    ensures Get(Defaults, "MACD_FAST") == Num(12.0) && Get(Defaults, "MACD_SLOW") == Num(26.0)
    ensures Get(Defaults, "MACD_SIGNAL") == Num(9.0)
  {
  }

  /** The default table's thresholds and order sizing. */
  lemma DefaultThresholds()
    ensures Get(Defaults, "RSI_OVERSOLD") == Num(35.0) && Get(Defaults, "RSI_OVERBOUGHT") == Num(65.0)
    ensures Get(Defaults, "ORDER_PERCENT") == Num(5.0) && Get(Defaults, "ORDER_SIZE_USD") == Num(0.0)
    ensures Get(Defaults, "MACD_THRESHOLD") == Num(0.0) && Get(Defaults, "MIN_NOTIONAL") == Num(5.0)
  {
  }

  /** The default table converts cleanly. */
  lemma DefaultsComplete()
    ensures Complete(ParamsOf(Defaults))
  {
    DefaultIntegers();
    DefaultMacdPeriods();
    DefaultThresholds();
  }

  /** `{**DEFAULTS, **settings}[key]`, for a key whose default is `d`. */
  function SettingOr(settings: map<string, Value>, key: string, d: Value): Value {
    if key in settings then settings[key] else d
  }

  /** The parameters of one user's settings over DEFAULTS, each key read with its default written out. */
  function UserParams(settings: map<string, Value>): Params {
    Params(
      AsInt(SettingOr(settings, "RSI_PERIOD", Num(14.0))), AsInt(SettingOr(settings, "RSI_CONFIRM", Num(1.0))),
      AsInt(SettingOr(settings, "FAST_MA", Num(9.0))), AsInt(SettingOr(settings, "SLOW_MA", Num(21.0))),
      AsInt(SettingOr(settings, "MACD_FAST", Num(12.0))), AsInt(SettingOr(settings, "MACD_SLOW", Num(26.0))),
      AsInt(SettingOr(settings, "MACD_SIGNAL", Num(9.0))),
      AsFloat(SettingOr(settings, "RSI_OVERSOLD", Num(35.0))), AsFloat(SettingOr(settings, "RSI_OVERBOUGHT", Num(65.0))),
      AsFloat(SettingOr(settings, "ORDER_SIZE_USD", Num(0.0))),
      AsFloat(SettingOr(settings, "ORDER_PERCENT", Num(5.0))),
      AsInt(SettingOr(settings, "QTY_PRECISION", Num(6.0))), AsFloat(SettingOr(settings, "MACD_THRESHOLD", Num(0.0))),
      AsFloat(SettingOr(settings, "MIN_NOTIONAL", Num(5.0))))
  }

  /** Reading the merged table is reading each setting over its default. */
  lemma UserParamsMerged(settings: map<string, Value>)
    ensures ParamsOf(Merge(Defaults, settings)) == UserParams(settings)
  {
    DefaultIntegers();
    DefaultMacdPeriods();
    DefaultThresholds();
  }

  // ---------------------------------------------------------------------
  // The decision for one symbol

  /** What happens to a (user, symbol) position this cycle. */
  datatype Action = Hold | Open(qty: real) | Close(qty: real) | Clear

  /**
    The position state machine. Flat: open when the buy signal holds, the
    floored quantity is positive and its notional reaches `MIN_NOTIONAL`.
    Long: on a sell signal, close with the stored quantity when that is
    positive and reaches `MIN_NOTIONAL`, otherwise clear the position without
    a trade. Everything else holds. `MIN_NOTIONAL` is converted only where the
    source reads it; None is the exception its conversion raises.
  */
  function Decide(pos: Option<Position>, buyOk: bool, sellOk: bool, qty: real, price: real, minNotional: Option<real>): (r: Option<Action>)
    ensures (r.Some? && r.value.Open?) <==>
              pos.None? && buyOk && qty > 0.0 && minNotional.Some? && qty * price >= minNotional.value
    ensures (r.Some? && r.value.Close?) <==>
              pos.Some? && sellOk && minNotional.Some? && pos.value.qty > 0.0 && pos.value.qty * price >= minNotional.value
    ensures r == Some(Clear) <==>
              pos.Some? && sellOk && minNotional.Some? && !(pos.value.qty > 0.0 && pos.value.qty * price >= minNotional.value)
    ensures r.None? <==> minNotional.None? && ((pos.None? && buyOk && qty > 0.0) || (pos.Some? && sellOk))
    ensures r.Some? && r.value.Open? ==> r.value.qty == qty
    ensures r.Some? && r.value.Close? ==> r.value.qty == pos.value.qty
  {
    if pos.None? then
      if buyOk && qty > 0.0 then
        if minNotional.None? then None
        else if qty * price >= minNotional.value then Some(Open(qty))
        else Some(Hold)
      else Some(Hold)
    else if sellOk then
      if minNotional.None? then None
      else if pos.value.qty * price >= minNotional.value && pos.value.qty > 0.0 then Some(Close(pos.value.qty))
      else Some(Clear)
    else Some(Hold)
  }

  /**
    The per-symbol body after the candles arrived: RSI confirmation, sizing,
    signals and the state machine, converting each setting at the point the
    source does. None is an exception, which skips the symbol.
  */
  function Evaluate(p: Params, ind: Indicators, balance: real, pos: Option<Position>): Option<Action> {
    if !(p.rsiPeriod.Some? && p.fastMa.Some? && p.slowMa.Some? && p.macdFast.Some?
         && p.macdSlow.Some? && p.macdSignal.Some? && p.rsiConfirm.Some?) then None
    else
      var k := p.rsiConfirm.value;
      if WindowUsable(ind.rsi, k) && (p.oversold.None? || p.overbought.None?) then None
      else
        var c := RsiConfirm(ind.rsi, k, p.oversold.GetOr(0.0), p.overbought.GetOr(0.0));
        if p.orderSizeUsd.None? then None
        else if p.orderSizeUsd.value <= 0.0 && balance > 0.0 && p.orderPercent.None? then None
        else if p.qtyPrecision.None? then None
        else
          var usd := OrderUsd(p.orderSizeUsd.value, p.orderPercent.GetOr(0.0), balance);
          var qty := FloorQty(RawQty(usd, ind.price), p.qtyPrecision.value);
          if TrendUp(ind) && (c.buy || !c.sell) && p.threshold.None? then None
          else
            var thr := p.threshold.GetOr(0.0);
            Decide(pos, BuyOk(c, ind, thr), SellOk(c, ind, thr), qty, ind.price, p.minNotional)
  }

  /** The order quantity Evaluate computes from the settings, the balance and the price. */
  function SizedQty(p: Params, ind: Indicators, balance: real): real
    requires p.orderSizeUsd.Some? && p.qtyPrecision.Some?
  {
    FloorQty(RawQty(OrderUsd(p.orderSizeUsd.value, p.orderPercent.GetOr(0.0), balance), ind.price), p.qtyPrecision.value)
  }

  /** Fully converted settings never make the decision raise. */
  lemma CompleteNeverRaises(p: Params, ind: Indicators, balance: real, pos: Option<Position>)
    requires Complete(p)
    ensures Evaluate(p, ind, balance, pos).Some?
  {
  }

  /**
    What an Open or Close decision guarantees: the signal that justified it,
    a positive quantity whose notional reaches `MIN_NOTIONAL`, and for Open a
    flat position and the sized quantity.
  */
  lemma EvaluateSound(p: Params, ind: Indicators, balance: real, pos: Option<Position>)
    ensures Evaluate(p, ind, balance, pos).Some? && Evaluate(p, ind, balance, pos).value.Open? ==>
              var q := Evaluate(p, ind, balance, pos).value.qty;
              && pos.None? && p.threshold.Some? && p.minNotional.Some? && p.orderSizeUsd.Some? && p.qtyPrecision.Some?
              && BuyOk(RsiConfirm(ind.rsi, p.rsiConfirm.value, p.oversold.GetOr(0.0), p.overbought.GetOr(0.0)), ind, p.threshold.value)
              && q == SizedQty(p, ind, balance) && q > 0.0 && q * ind.price >= p.minNotional.value
    ensures Evaluate(p, ind, balance, pos).Some? && Evaluate(p, ind, balance, pos).value.Close? ==>
              var q := Evaluate(p, ind, balance, pos).value.qty;
              && pos.Some? && q == pos.value.qty && p.minNotional.Some?
              && SellOk(RsiConfirm(ind.rsi, p.rsiConfirm.value, p.oversold.GetOr(0.0), p.overbought.GetOr(0.0)), ind, p.threshold.GetOr(0.0))
              && q > 0.0 && q * ind.price >= p.minNotional.value
  {
  }

  /**
    With a positive balance and a percentage in [0, 100] (or a fixed size),
    an opened position never costs more than the balance.
  */
  lemma OpenFitsBalance(p: Params, ind: Indicators, balance: real, pos: Option<Position>, q: real)
    requires balance > 0.0 && ind.price > 0.0
    requires p.orderSizeUsd.Some? && p.orderPercent.Some?
    requires p.orderSizeUsd.value > 0.0 || 0.0 <= p.orderPercent.value <= 100.0
    requires Evaluate(p, ind, balance, pos) == Some(Open(q))
    ensures q * ind.price <= balance
  {
    EvaluateSound(p, ind, balance, pos);
    SizedQtyFits(p, ind, balance, q);
  }

  lemma SizedQtyFits(p: Params, ind: Indicators, balance: real, q: real)
    requires balance > 0.0 && ind.price > 0.0
    requires p.orderSizeUsd.Some? && p.orderPercent.Some? && p.qtyPrecision.Some?
    requires p.orderSizeUsd.value > 0.0 || 0.0 <= p.orderPercent.value <= 100.0
    requires q == SizedQty(p, ind, balance)
    ensures q * ind.price <= balance
  {
    FlooredOrderFitsBalance(p.orderSizeUsd.value, p.orderPercent.value, balance, ind.price, p.qtyPrecision.value);
  }

  /** A position stays open while the sell signal is absent, whatever the buy signal says. */
  lemma LongHoldsWithoutSell(p: Params, ind: Indicators, balance: real, pos: Option<Position>)
    requires pos.Some?
    requires Complete(p)
    requires !SellOk(RsiConfirm(ind.rsi, p.rsiConfirm.value, p.oversold.value, p.overbought.value), ind, p.threshold.value)
    ensures Evaluate(p, ind, balance, pos) == Some(Hold)
  {
  }

  // ---------------------------------------------------------------------
  // The book: one user's positions and the trade ledger

  datatype Market = Market(
    listed: (int, string) -> bool,
    indicators: (int, string) -> Option<Indicators>,
    balance: (int, string) -> real,
    order: (int, string, Side, real) -> OrderResp)

  datatype Book = Book(positions: map<string, Option<Position>>, ledger: seq<Trade>)

  /** `positions.get(symbol)` */
  function PositionOf(positions: map<string, Option<Position>>, symbol: string): Option<Position> {
    if symbol in positions then positions[symbol] else None
  }

  /** The `order_resp` a trade carries: none in a dry run, otherwise the exchange's reply or error. */
  function OrderFor(dryRun: bool, market: Market, uid: int, symbol: string, side: Side, qty: real): OrderResp {
    if dryRun then NotSent else market.order(uid, symbol, side, qty)
  }

  /** The shape of every trade one pass records for user `uid`. */
  predicate Recorded(t: Trade, uid: int, now: int, dryRun: bool) {
    t.userId == uid && t.ts == now && t.pnl == 0.0 && t.qty > 0.0 && (dryRun ==> t.order == NotSent)
  }

  /** Carries out a decision: a trade for Open and Close, a position update for all but Hold. */
  function Apply(b: Book, uid: int, symbol: string, act: Action, price: real, dryRun: bool, market: Market, now: int): Book {
    match act
    case Hold => b
    case Open(q) =>
      Book(b.positions[symbol := Some(Long(price, q, now))],
           b.ledger + [Trade(uid, symbol, Buy, price, q, 0.0, now, OrderFor(dryRun, market, uid, symbol, Buy, q))])
    case Close(q) =>
      Book(b.positions[symbol := None],
           b.ledger + [Trade(uid, symbol, Sell, price, q, 0.0, now, OrderFor(dryRun, market, uid, symbol, Sell, q))])
    case Clear => Book(b.positions[symbol := None], b.ledger)
  }

  /**
    One symbol of the pass: missing candles or an exception leave the book as
    it was; otherwise the decision is applied. At most one trade is appended,
    it has the shape Recorded describes, and no other symbol's position moves.
  */
  function StepSpec(b: Book, uid: int, symbol: string, p: Params, market: Market, dryRun: bool, now: int): (r: Book)
    ensures b.ledger <= r.ledger && |r.ledger| <= |b.ledger| + 1
    ensures forall t :: t in r.ledger[|b.ledger|..] ==> Recorded(t, uid, now, dryRun) && t.symbol == symbol
    ensures forall s :: s != symbol ==> PositionOf(r.positions, s) == PositionOf(b.positions, s)
  {
    match market.indicators(uid, symbol)
    case None => b
    case Some(ind) =>
      var act := Evaluate(p, ind, market.balance(uid, symbol), PositionOf(b.positions, symbol));
      match act
      case None => b
      case Some(a) =>
        EvaluateSound(p, ind, market.balance(uid, symbol), PositionOf(b.positions, symbol));
        Apply(b, uid, symbol, a, ind.price, dryRun, market, now)
  }

  /** The symbols of one user, in order, from the right so that a loop can extend it. */
  function RunSymbols(b: Book, uid: int, syms: seq<string>, p: Params, market: Market, dryRun: bool, now: int): (r: Book)
    ensures b.ledger <= r.ledger
    ensures forall t :: t in r.ledger[|b.ledger|..] ==> Recorded(t, uid, now, dryRun) && t.symbol in syms
    ensures forall s :: s !in syms ==> PositionOf(r.positions, s) == PositionOf(b.positions, s)
  {
    if syms == [] then b
    else
      var mid := RunSymbols(b, uid, syms[..|syms| - 1], p, market, dryRun, now);
      var r := StepSpec(mid, uid, syms[|syms| - 1], p, market, dryRun, now);
      assert forall t :: t in r.ledger[|b.ledger|..] ==> t in mid.ledger[|b.ledger|..] || t in r.ledger[|mid.ledger|..] by {
        assert r.ledger[|b.ledger|..] == mid.ledger[|b.ledger|..] + r.ledger[|mid.ledger|..];
      }
      r
  }

  // ---------------------------------------------------------------------
  // The position invariant

  /** The most recent trade of `uid` in `symbol`. */
  function LastTrade(ledger: seq<Trade>, uid: int, symbol: string): (r: Option<Trade>)
    ensures r.Some? ==> r.value in ledger && r.value.userId == uid && r.value.symbol == symbol
  {
    if ledger == [] then None
    else
      var t := ledger[|ledger| - 1];
      if t.userId == uid && t.symbol == symbol then Some(t)
      else LastTrade(ledger[..|ledger| - 1], uid, symbol)
  }

  /**
    Every open position of `uid` is backed by the ledger: the user's last
    trade in that symbol is the BUY that opened it, at its entry price, with
    its quantity and time, and the quantity is positive.
  */
  predicate Backed(b: Book, uid: int) {
    forall s :: s in b.positions && b.positions[s].Some? ==>
      var pos := b.positions[s].value;
      var last := LastTrade(b.ledger, uid, s);
      && pos.qty > 0.0
      && last.Some? && last.value.side == Buy && last.value.price == pos.entryPrice
      && last.value.qty == pos.qty && last.value.ts == pos.openedAt
  }

  lemma LastTradeAppend(ledger: seq<Trade>, t: Trade, uid: int, symbol: string)
    ensures LastTrade(ledger + [t], uid, symbol) ==
              if t.userId == uid && t.symbol == symbol then Some(t) else LastTrade(ledger, uid, symbol)
  {
    assert (ledger + [t])[..|ledger|] == ledger;
  }

  /** One step keeps every open position backed by the ledger. */
  lemma StepKeepsBacked(b: Book, uid: int, symbol: string, p: Params, market: Market, dryRun: bool, now: int)
    requires Backed(b, uid)
    ensures Backed(StepSpec(b, uid, symbol, p, market, dryRun, now), uid)
  {
    var r := StepSpec(b, uid, symbol, p, market, dryRun, now);
    if r != b {
      var ind := market.indicators(uid, symbol).value;
      var act := Evaluate(p, ind, market.balance(uid, symbol), PositionOf(b.positions, symbol)).value;
      assert r == Apply(b, uid, symbol, act, ind.price, dryRun, market, now);
      if act.Open? || act.Close? {
        var t := r.ledger[|b.ledger|];
        assert r.ledger == b.ledger + [t];
        forall s | s in r.positions && r.positions[s].Some?
          ensures LastTrade(r.ledger, uid, s) == if s == symbol then Some(t) else LastTrade(b.ledger, uid, s)
        {
          LastTradeAppend(b.ledger, t, uid, s);
        }
        if act.Open? {
          EvaluateSound(p, ind, market.balance(uid, symbol), PositionOf(b.positions, symbol));
        }
      }
    }
  }

  /** A whole user's pass keeps the invariant. */
  lemma {:induction false} RunSymbolsKeepsBacked(b: Book, uid: int, syms: seq<string>, p: Params, market: Market, dryRun: bool, now: int)
    requires Backed(b, uid)
    ensures Backed(RunSymbols(b, uid, syms, p, market, dryRun, now), uid)
  {
    if syms != [] {
      var init := syms[..|syms| - 1];
      RunSymbolsKeepsBacked(b, uid, init, p, market, dryRun, now);
      StepKeepsBacked(RunSymbols(b, uid, init, p, market, dryRun, now), uid, syms[|syms| - 1], p, market, dryRun, now);
    }
  }

  /** Another user's trades never change what backs this user's positions. */
  lemma OtherUsersKeepLastTrade(b: Book, uid: int, other: int, symbol: string, s: string, p: Params, market: Market, dryRun: bool, now: int)
    requires other != uid
    ensures LastTrade(StepSpec(b, uid, symbol, p, market, dryRun, now).ledger, other, s) == LastTrade(b.ledger, other, s)
  {
    var r := StepSpec(b, uid, symbol, p, market, dryRun, now);
    if |r.ledger| > |b.ledger| {
      var t := r.ledger[|b.ledger|];
      assert r.ledger == b.ledger + [t];
      LastTradeAppend(b.ledger, t, other, s);
    }
  }

  // ---------------------------------------------------------------------
  // Properties of one step

  /** Dry run and the order reply only touch the `order` field of the recorded trade. */
  lemma OrderOutcomeOnlyInOrderField(b: Book, uid: int, symbol: string, p: Params, m1: Market, m2: Market, d1: bool, d2: bool, now: int)
    requires m1.indicators == m2.indicators && m1.balance == m2.balance
    ensures StepSpec(b, uid, symbol, p, m1, d1, now).positions == StepSpec(b, uid, symbol, p, m2, d2, now).positions
    ensures |StepSpec(b, uid, symbol, p, m1, d1, now).ledger| == |StepSpec(b, uid, symbol, p, m2, d2, now).ledger|
    ensures forall i :: 0 <= i < |StepSpec(b, uid, symbol, p, m1, d1, now).ledger| ==>
              StepSpec(b, uid, symbol, p, m1, d1, now).ledger[i].(order := NotSent) ==
              StepSpec(b, uid, symbol, p, m2, d2, now).ledger[i].(order := NotSent)
  {
    var pos := PositionOf(b.positions, symbol);
    match m1.indicators(uid, symbol)
    case None =>
    case Some(ind) =>
      var act := Evaluate(p, ind, m1.balance(uid, symbol), pos);
      assert act == Evaluate(p, ind, m2.balance(uid, symbol), pos);
      if act.Some? {
        ApplyOrderOnly(b, uid, symbol, act.value, ind.price, d1, d2, m1, m2, now);
      }
  }

  /** Carrying out the same decision under two markets or modes differs only in the `order` field. */
  lemma ApplyOrderOnly(b: Book, uid: int, symbol: string, act: Action, price: real, d1: bool, d2: bool, m1: Market, m2: Market, now: int)
    ensures Apply(b, uid, symbol, act, price, d1, m1, now).positions == Apply(b, uid, symbol, act, price, d2, m2, now).positions
    ensures |Apply(b, uid, symbol, act, price, d1, m1, now).ledger| == |Apply(b, uid, symbol, act, price, d2, m2, now).ledger|
    ensures forall i :: 0 <= i < |Apply(b, uid, symbol, act, price, d1, m1, now).ledger| ==>
              Apply(b, uid, symbol, act, price, d1, m1, now).ledger[i].(order := NotSent) ==
              Apply(b, uid, symbol, act, price, d2, m2, now).ledger[i].(order := NotSent)
  {
  }

  /** A symbol whose candles are missing is inert. */
  lemma {:induction false} SkippedSymbolIsInert(b: Book, uid: int, syms: seq<string>, s: string, p: Params, market: Market, dryRun: bool, now: int)
    requires market.indicators(uid, s).None?
    ensures RunSymbols(b, uid, syms, p, market, dryRun, now) == RunSymbols(b, uid, Without(syms, s), p, market, dryRun, now)
  {
    if syms != [] {
      var init := syms[..|syms| - 1];
      var last := syms[|syms| - 1];
      SkippedSymbolIsInert(b, uid, init, s, p, market, dryRun, now);
      WithoutSnoc(init, last, s);
      assert syms == init + [last];
      if last != s {
        var w := Without(init, s) + [last];
        assert w[..|w| - 1] == Without(init, s) && w[|w| - 1] == last;
      } else {
        assert Without(init, s) + [] == Without(init, s);
        assert Without(syms, s) == Without(init, s);
        var mid := RunSymbols(b, uid, init, p, market, dryRun, now);
        assert RunSymbols(b, uid, syms, p, market, dryRun, now) == StepSpec(mid, uid, s, p, market, dryRun, now);
        assert StepSpec(mid, uid, s, p, market, dryRun, now) == mid;
      }
    }
  }

  /** `[x for x in xs if x != s]` */
  function Without(xs: seq<string>, s: string): (r: seq<string>)
    ensures s !in r
    ensures forall x :: x in r <==> x in xs && x != s
  {
    if xs == [] then []
    else (if xs[0] == s then [] else [xs[0]]) + Without(xs[1..], s)
  }

  lemma {:induction false} WithoutSnoc(xs: seq<string>, x: string, s: string)
    ensures Without(xs + [x], s) == Without(xs, s) + (if x == s then [] else [x])
  {
    if xs == [] {
      assert [] + [x] == [x];
    } else {
      assert (xs + [x])[1..] == xs[1..] + [x];
      WithoutSnoc(xs[1..], x, s);
    }
  }

  // ---------------------------------------------------------------------
  // Worked scenarios (`MIN_NOTIONAL` 5, `RSI_CONFIRM` 1, thresholds 35/65, `MACD_THRESHOLD` 0)

  /** When the candles are there and the decision is `act`, a step is exactly `act` applied. */
  lemma StepAppliesDecision(b: Book, uid: int, symbol: string, p: Params, market: Market, dryRun: bool, now: int, ind: Indicators, act: Action)
    requires market.indicators(uid, symbol) == Some(ind)
    requires Evaluate(p, ind, market.balance(uid, symbol), PositionOf(b.positions, symbol)) == Some(act)
    ensures StepSpec(b, uid, symbol, p, market, dryRun, now) == Apply(b, uid, symbol, act, ind.price, dryRun, market, now)
  {
  }

  /** A single reading confirms a buy below `oversold` and a sell above `overbought`. */
  lemma OneReading(x: real, oversold: real, overbought: real)
    ensures RsiConfirm([Some(x)], 1, oversold, overbought) == Confirm(x < oversold, x > overbought)
  {
    var rsi := [Some(x)];
    assert PyTail(rsi, 1) == rsi;
    assert WindowUsable(rsi, 1);
    assert AllBelow(rsi, oversold) == (x < oversold) by { assert rsi[0] == Some(x); }
    assert AllAbove(rsi, overbought) == (x > overbought) by { assert rsi[0] == Some(x); }
  }

  /** 10 % of the balance, `QTY_PRECISION` 3, otherwise the defaults. */
  function ScenarioParams(): Params {
    Params(Some(14), Some(1), Some(9), Some(21), Some(12), Some(26), Some(9),
           Some(35.0), Some(65.0), Some(0.0), Some(10.0), Some(3), Some(0.0), Some(5.0))
  }

  /** Trend up (fast EMA 2 over slow EMA 1), histogram 0.5, a single RSI reading. */
  function Readings(rsi: real, price: real): Indicators {
    Indicators([Some(rsi)], Some(2.0), Some(1.0), Some(0.5), price)
  }

  /**
    Flat, last RSI 30, balance 100, price 50: the order spends 10 and buys
    0.2, so one BUY of 0.2 at 50 is recorded and the position is LONG.
  */
  lemma ScenarioOpen(market: Market, uid: int, now: int)
    ensures Evaluate(ScenarioParams(), Readings(30.0, 50.0), 100.0, None) == Some(Open(0.2))
    ensures Apply(Book(map[], []), uid, "BTCUSDT", Open(0.2), 50.0, true, market, now)
              == Book(map["BTCUSDT" := Some(Long(50.0, 0.2, now))], [Trade(uid, "BTCUSDT", Buy, 50.0, 0.2, 0.0, now, NotSent)])
  {
    OneReading(30.0, 35.0, 65.0);
    assert OrderUsd(0.0, 10.0, 100.0) == 10.0;
    assert RawQty(10.0, 50.0) == 0.2;
    assert Pow10(3) == 1000.0;
    assert (0.2 * 1000.0).Floor == 200;
    assert FloorQty(0.2, 3) == 0.2;
  }

  /** Long 0.2, last RSI 70, price 55 (notional 11): one SELL of 0.2 at 55 and the position cleared. */
  lemma ScenarioClose(market: Market, uid: int, since: int, now: int)
    ensures Evaluate(ScenarioParams(), Readings(70.0, 55.0), 100.0, Some(Long(50.0, 0.2, since))) == Some(Close(0.2))
    ensures Apply(Book(map["BTCUSDT" := Some(Long(50.0, 0.2, since))], []), uid, "BTCUSDT", Close(0.2), 55.0, true, market, now)
              == Book(map["BTCUSDT" := None], [Trade(uid, "BTCUSDT", Sell, 55.0, 0.2, 0.0, now, NotSent)])
  {
    OneReading(70.0, 35.0, 65.0);
    assert map["BTCUSDT" := Some(Long(50.0, 0.2, since))]["BTCUSDT" := None] == map["BTCUSDT" := None];
  }

  /** Long 0.001 at price 50 (notional 0.05): the sell clears the position and records nothing. */
  lemma ScenarioSilentClear(since: int)
    ensures Evaluate(ScenarioParams(), Readings(70.0, 50.0), 100.0, Some(Long(50.0, 0.001, since))) == Some(Clear)
  {
    OneReading(70.0, 35.0, 65.0);
    assert Pow10(3) == 1000.0;
    assert (0.2 * 1000.0).Floor == 200;
    assert FloorQty(0.2, 3) == 0.2;
  }

  /**
    A cleared position leaves its BUY as the user's last trade in the symbol,
    so after a silent clear and a new open the ledger holds two BUYs in a row.
  */
  lemma ClearThenOpenRepeatsBuy(market: Market, uid: int, since: int, now: int)
    ensures var t0 := Trade(uid, "BTCUSDT", Buy, 50.0, 0.001, 0.0, since, NotSent);
            var b0 := Book(map["BTCUSDT" := Some(Long(50.0, 0.001, since))], [t0]);
            var b1 := Apply(b0, uid, "BTCUSDT", Clear, 50.0, true, market, now);
            var b2 := Apply(b1, uid, "BTCUSDT", Open(0.2), 50.0, true, market, now);
            && PositionOf(b1.positions, "BTCUSDT").None?
            && |b2.ledger| == 2 && b2.ledger[0].side == Buy && b2.ledger[1].side == Buy
  {
  }

  // ---------------------------------------------------------------------
  // The trader: one user's positions and the ledger, updated in place

  class Trader {
    const uid: int
    var positions: map<string, Option<Position>>
    var ledger: seq<Trade>

    function Snapshot(): Book
      reads this
    {
      Book(positions, ledger)
    }

    constructor (uid: int, positions: map<string, Option<Position>>, ledger: seq<Trade>)
      ensures this.uid == uid && this.positions == positions && this.ledger == ledger
    {
      this.uid := uid;
      this.positions := positions;
      this.ledger := ledger;
    }

    /** One symbol of `run_trading_iteration` (trading_core.py, the body of the symbol loop). */
    method Step(symbol: string, p: Params, market: Market, dryRun: bool, now: int)
      modifies this
      ensures Snapshot() == StepSpec(old(Snapshot()), uid, symbol, p, market, dryRun, now)
    {
      var fetched := market.indicators(uid, symbol);
      if fetched.None? {
        return;
      }
      var ind := fetched.value;
      var pos := PositionOf(positions, symbol);
      var verdict := Evaluate(p, ind, market.balance(uid, symbol), pos);
      if verdict.None? {
        return;
      }
      match verdict.value {
        case Hold =>
        case Open(q) =>
          var resp := OrderFor(dryRun, market, uid, symbol, Buy, q);
          ledger := ledger + [Trade(uid, symbol, Buy, ind.price, q, 0.0, now, resp)];
          positions := positions[symbol := Some(Long(ind.price, q, now))];
        case Close(q) =>
          var resp := OrderFor(dryRun, market, uid, symbol, Sell, q);
          ledger := ledger + [Trade(uid, symbol, Sell, ind.price, q, 0.0, now, resp)];
          positions := positions[symbol := None];
        case Clear =>
          positions := positions[symbol := None];
      }
    }

    /** The symbol loop of one user: `Step` for each symbol in order. */
    method Run(syms: seq<string>, p: Params, market: Market, dryRun: bool, now: int)
      modifies this
      ensures Snapshot() == RunSymbols(old(Snapshot()), uid, syms, p, market, dryRun, now)
    {
      ghost var start := Snapshot();
      for j := 0 to |syms|
        invariant Snapshot() == RunSymbols(start, uid, syms[..j], p, market, dryRun, now)
      {
        assert syms[..j + 1][..j] == syms[..j];
        Step(syms[j], p, market, dryRun, now);
      }
      assert syms[..|syms|] == syms;
    }
  }

  // ---------------------------------------------------------------------
  // Users and symbols of a pass

  /** The pass's subscription test: `sub_until` parses and `sub_until < now` is false. */
  predicate SubscriptionCurrent(u: User, now: int) {
    u.subUntil.At? && !(u.subUntil.t < now)
  }

  /**
    A user trades only with a `sub_until` that parses and is not earlier than
    `now`, and with both stored keys non-empty and decoding to non-empty
    text. `decode` stands for the base64 decoding; None is a decode error,
    which blanks both keys.
  */
  predicate Eligible(u: User, now: int, decode: string -> Option<string>) {
    && SubscriptionCurrent(u, now)
    && u.apiKey != [] && u.apiSecret != []
    && decode(u.apiKey).Some? && decode(u.apiSecret).Some?
    && decode(u.apiKey).value != [] && decode(u.apiSecret).value != []
  }

  /**
    `settings.get("symbols") or SYMBOLS_ENV`, split on commas when it is text.
    A truthy value that is neither text nor a list cannot be iterated: the
    TypeError escapes the pass, which is None here.
  */
  function SymbolsSetting(settings: map<string, Value>, env: seq<string>): (r: Option<seq<string>>)
    ensures !Truthy(Get(settings, "symbols")) ==> r == Some(env)
    ensures Get(settings, "symbols").Texts? && Truthy(Get(settings, "symbols")) ==> r == Some(Get(settings, "symbols").items)
    ensures r.None? <==> Truthy(Get(settings, "symbols")) && !Get(settings, "symbols").Text? && !Get(settings, "symbols").Texts?
  {
    var v := Get(settings, "symbols");
    if !Truthy(v) then Some(env)
    else match v
      case Texts(items) => Some(items)
      case Text(s) => Some(TrimmedPieces(Split(s, IsComma)))
      case _ => None
  }

  /** The normalised request, or a copy of `SYMBOLS_ENV` when nothing survives normalisation. */
  function Normalized(requested: seq<string>, env: seq<string>): seq<string> {
    if NormalizeAll(requested) == [] then env else NormalizeAll(requested)
  }

  /** `valid_syms if valid_syms else normalized` */
  function WorkingSet(valid: seq<string>, normalized: seq<string>): seq<string> {
    if valid != [] then valid else normalized
  }

  /** The symbols a user trades: the listed ones among the normalised request, else the normalised request. */
  function UserSymbols(requested: seq<string>, env: seq<string>, listed: string -> bool): seq<string> {
    var n := Normalized(requested, env);
    WorkingSet(Dedup(Screen(NormalizeAll(n), listed, true)), n)
  }

  /**
    When some requested symbol survives normalisation, every traded symbol is
    the normal form of a requested one: validated ones because normalisation
    is idempotent, and the fallback because it is the normalised request.
  */
  lemma WorkingSetFromRequest(requested: seq<string>, env: seq<string>, listed: string -> bool)
    requires NormalizeAll(requested) != []
    ensures forall s :: s in UserSymbols(requested, env, listed) ==> s in NormalizeAll(requested)
  {
    NormalizeAllTwice(requested);
  }

  /** With a non-empty `SYMBOLS_ENV`, every user has something to trade, whatever the exchange lists. */
  lemma UserSymbolsNonEmpty(requested: seq<string>, env: seq<string>, listed: string -> bool)
    requires env != []
    ensures UserSymbols(requested, env, listed) != []
  {
  }

  /** All keys are `str(int(key))`, as every key the store writes is. */
  predicate AllCanonical(users: map<string, User>) {
    forall k :: k in users ==> IsCanonicalKey(k)
  }

  /** A recorded trade of the pass: its user was in the snapshot and eligible. */
  predicate FromEligibleUser(t: Trade, snapshot: map<string, User>, now: int, dryRun: bool, decode: string -> Option<string>) {
    && Recorded(t, t.userId, now, dryRun)
    && exists k :: k in snapshot && ParseInt(k) == Some(t.userId) && Eligible(snapshot[k], now, decode)
  }

  /** The ledger so far: the old one, then only trades of eligible users of the snapshot. */
  predicate LedgerExtends(trades: seq<Trade>, base: seq<Trade>, snapshot: map<string, User>, now: int, dryRun: bool, decode: string -> Option<string>) {
    base <= trades && forall t :: t in trades[|base|..] ==> FromEligibleUser(t, snapshot, now, dryRun, decode)
  }

  /** A key written by the pass: present before, or `str(int(k0))` of a key `k0` present before. */
  predicate KnownKey(k: string, snapshot: map<string, User>) {
    k in snapshot || exists k0 :: k0 in snapshot && ParseInt(k0).Some? && KeyOf(ParseInt(k0).value) == k
  }

  /**
    With canonical keys, the users map differs from the snapshot only in the
    positions of eligible users.
  */
  predicate OnlyPositionsMoved(users: map<string, User>, snapshot: map<string, User>, now: int, decode: string -> Option<string>) {
    && users.Keys == snapshot.Keys
    && (forall k :: k in users ==> users[k] == snapshot[k].(positions := users[k].positions))
    && (forall k :: k in users && !Eligible(snapshot[k], now, decode) ==> users[k] == snapshot[k])
  }

  lemma LedgerGrows(trades: seq<Trade>, base: seq<Trade>, more: seq<Trade>, snapshot: map<string, User>, key: string, uid: int,
                    now: int, dryRun: bool, decode: string -> Option<string>)
    requires LedgerExtends(trades, base, snapshot, now, dryRun, decode)
    requires key in snapshot && ParseInt(key) == Some(uid) && Eligible(snapshot[key], now, decode)
    requires forall t :: t in more ==> Recorded(t, uid, now, dryRun)
    ensures LedgerExtends(trades + more, base, snapshot, now, dryRun, decode)
  {
    assert (trades + more)[|base|..] == trades[|base|..] + more;
  }

  lemma WriteBackOnlyMovesPositions(users: map<string, User>, snapshot: map<string, User>, key: string,
                                    positions: map<string, Option<Position>>, now: int, decode: string -> Option<string>)
    requires OnlyPositionsMoved(users, snapshot, now, decode)
    requires key in snapshot && Eligible(snapshot[key], now, decode)
    ensures OnlyPositionsMoved(users[key := snapshot[key].(positions := positions)], snapshot, now, decode)
  {
  }

  lemma WrittenKeyKnown(snapshot: map<string, User>, key: string, uid: int)
    requires key in snapshot && ParseInt(key) == Some(uid)
    ensures KnownKey(KeyOf(uid), snapshot)
    ensures AllCanonical(snapshot) ==> KeyOf(uid) == key
  {
    assert key in snapshot && ParseInt(key).Some? && KeyOf(ParseInt(key).value) == KeyOf(uid);
    if AllCanonical(snapshot) {
      assert IsCanonicalKey(key);
    }
  }

  /** The exchange's listing check through one user's client. */
  function ListedFor(market: Market, uid: int): string -> bool {
    s => market.listed(uid, s)
  }

  /**
    One eligible user's share of the pass, as a value: None for a malformed
    `symbols` setting, whose TypeError escapes the pass; otherwise the book
    after trading the user's symbols with the user's parameters, starting
    from the stored positions and `ledger`.
  */
  function UserPass(u: User, uid: int, cfg: Config, market: Market, ledger: seq<Trade>, now: int): (r: Option<Book>)
    ensures r.None? <==> SymbolsSetting(u.settings, cfg.symbolsEnv).None?
    ensures r.Some? ==> ledger <= r.value.ledger
    ensures r.Some? ==> forall t :: t in r.value.ledger[|ledger|..] ==> Recorded(t, uid, now, cfg.dryRun)
  {
    match SymbolsSetting(u.settings, cfg.symbolsEnv)
    case None => None
    case Some(requested) =>
      Some(RunSymbols(Book(u.positions, ledger), uid, UserSymbols(requested, cfg.symbolsEnv, ListedFor(market, uid)),
                      UserParams(u.settings), market, cfg.dryRun, now))
  }

  /** A user whose open positions are backed by the ledger stays so through the pass. */
  lemma UserPassKeepsBacked(u: User, uid: int, cfg: Config, market: Market, ledger: seq<Trade>, now: int)
    requires Backed(Book(u.positions, ledger), uid)
    ensures UserPass(u, uid, cfg, market, ledger, now).Some? ==> Backed(UserPass(u, uid, cfg, market, ledger, now).value, uid)
  {
    var requested := SymbolsSetting(u.settings, cfg.symbolsEnv);
    if requested.Some? {
      RunSymbolsKeepsBacked(Book(u.positions, ledger), uid, UserSymbols(requested.value, cfg.symbolsEnv, ListedFor(market, uid)),
                            UserParams(u.settings), market, cfg.dryRun, now);
    }
  }

  /**
    One user's share of the pass: the symbols to trade, then a fresh Trader
    stepping through them with the merged settings.
  */
  method TradeUser(u: User, uid: int, cfg: Config, market: Market, ledger: seq<Trade>, now: int) returns (finish: Option<Book>)
    ensures finish == UserPass(u, uid, cfg, market, ledger, now)
  {
    var requested := SymbolsSetting(u.settings, cfg.symbolsEnv);
    if requested.None? {
      return None;
    }
    var normalized := Normalized(requested.value, cfg.symbolsEnv);
    var valid, invalid := ValidateSymbols(normalized, ListedFor(market, uid));
    var syms := WorkingSet(valid, normalized);
    assert syms == UserSymbols(requested.value, cfg.symbolsEnv, ListedFor(market, uid));
    var p := ParamsOf(Merge(Defaults, u.settings));
    UserParamsMerged(u.settings);
    var trader := new Trader(uid, u.positions, ledger);
    trader.Run(syms, p, market, cfg.dryRun, now);
    return Some(trader.Snapshot());
  }

  /**
    One eligible user's trading followed by the write-back: the ledger becomes
    the one the user's run produced, and the record from the snapshot is
    stored under `str(uid)` with the new positions. `aborted` is a malformed
    `symbols` setting, which leaves the store as it was.
  */
  method PersistUser(store: Store, u: User, uid: int, cfg: Config, market: Market, now: int) returns (aborted: bool)
    modifies store
    ensures aborted <==> UserPass(u, uid, cfg, market, old(store.trades), now).None?
    ensures aborted ==> store.users == old(store.users) && store.trades == old(store.trades)
    ensures !aborted ==>
              && store.trades == UserPass(u, uid, cfg, market, old(store.trades), now).value.ledger
              && store.users == old(store.users)[KeyOf(uid) := u.(positions := UserPass(u, uid, cfg, market, old(store.trades), now).value.positions)]
  {
    var finish := TradeUser(u, uid, cfg, market, store.trades, now);
    if finish.None? {
      return true;
    }
    store.trades := finish.value.ledger;
    store.users := store.users[KeyOf(uid) := u.(positions := finish.value.positions)];
    return false;
  }

  /** The store as the pass leaves it so far, and whether the pass is still running. */
  datatype PassState = PassState(users: map<string, User>, trades: seq<Trade>, running: bool)

  /**
    One key of the pass, as a value: a key that does not parse or a user not
    eligible in the snapshot is skipped; a malformed `symbols` setting stops
    the pass with the store as it was; otherwise the ledger is the user's run
    and the snapshot record is written under `str(uid)` with the new positions.
  */
  function VisitSpec(st: PassState, snapshot: map<string, User>, key: string, cfg: Config, market: Market,
                     decode: string -> Option<string>, now: int): PassState
    requires key in snapshot
  {
    if ParseInt(key).None? || !Eligible(snapshot[key], now, decode) then st
    else
      var uid := ParseInt(key).value;
      match UserPass(snapshot[key], uid, cfg, market, st.trades, now)
      case None => st.(running := false)
      case Some(b) => PassState(st.users[KeyOf(uid) := snapshot[key].(positions := b.positions)], b.ledger, st.running)
  }

  /** The pass over `keys` in order, from the snapshot and the ledger `trades`, up to the first abort. */
  function PassSpec(snapshot: map<string, User>, trades: seq<Trade>, keys: seq<string>, cfg: Config, market: Market,
                    decode: string -> Option<string>, now: int): PassState
    requires forall k :: k in keys ==> k in snapshot
  {
    if keys == [] then PassState(snapshot, trades, true)
    else
      var st := PassSpec(snapshot, trades, keys[..|keys| - 1], cfg, market, decode, now);
      if st.running then VisitSpec(st, snapshot, keys[|keys| - 1], cfg, market, decode, now) else st
  }

  /** Once the pass has stopped, the remaining keys change nothing. */
  lemma {:induction false} PassStopped(snapshot: map<string, User>, trades: seq<Trade>, keys: seq<string>, j: nat,
                                       cfg: Config, market: Market, decode: string -> Option<string>, now: int)
    requires forall k :: k in keys ==> k in snapshot
    requires j <= |keys|
    requires !PassSpec(snapshot, trades, keys[..j], cfg, market, decode, now).running
    ensures PassSpec(snapshot, trades, keys, cfg, market, decode, now) == PassSpec(snapshot, trades, keys[..j], cfg, market, decode, now)
    decreases |keys|
  {
    if j == |keys| {
      assert keys[..j] == keys;
    } else {
      var init := keys[..|keys| - 1];
      assert init[..j] == keys[..j];
      PassStopped(snapshot, trades, init, j, cfg, market, decode, now);
    }
  }

  /** A user whose turn aborts the pass: parsable key, eligible, malformed `symbols`. */
  predicate Aborts(snapshot: map<string, User>, key: string, env: seq<string>, now: int, decode: string -> Option<string>)
    requires key in snapshot
  {
    ParseInt(key).Some? && Eligible(snapshot[key], now, decode) && SymbolsSetting(snapshot[key].settings, env).None?
  }

  /** The pass completes exactly when no key it visits belongs to a user whose turn aborts. */
  lemma {:induction false} PassCompletes(snapshot: map<string, User>, trades: seq<Trade>, keys: seq<string>,
                                         cfg: Config, market: Market, decode: string -> Option<string>, now: int)
    requires forall k :: k in keys ==> k in snapshot
    ensures PassSpec(snapshot, trades, keys, cfg, market, decode, now).running <==>
              forall k :: k in keys ==> !Aborts(snapshot, k, cfg.symbolsEnv, now, decode)
    decreases |keys|
  {
    if keys != [] {
      var init, last := keys[..|keys| - 1], keys[|keys| - 1];
      assert keys == init + [last];
      PassCompletes(snapshot, trades, init, cfg, market, decode, now);
    }
  }

  /** What the pass keeps true of the store it writes, measured against the snapshot and the ledger it started from. */
  predicate PassInvariant(st: PassState, snapshot: map<string, User>, base: seq<Trade>, dryRun: bool, now: int,
                          decode: string -> Option<string>) {
    && LedgerExtends(st.trades, base, snapshot, now, dryRun, decode)
    && (forall k :: k in st.users ==> KnownKey(k, snapshot))
    && (AllCanonical(snapshot) ==> OnlyPositionsMoved(st.users, snapshot, now, decode))
  }

  /** Writing back one eligible user's run keeps the invariant. */
  lemma WriteBackKeepsInvariant(st: PassState, snapshot: map<string, User>, base: seq<Trade>, key: string, uid: int, b: Book,
                                dryRun: bool, now: int, decode: string -> Option<string>)
    requires key in snapshot && ParseInt(key) == Some(uid) && Eligible(snapshot[key], now, decode)
    requires st.trades <= b.ledger && forall t :: t in b.ledger[|st.trades|..] ==> Recorded(t, uid, now, dryRun)
    requires PassInvariant(st, snapshot, base, dryRun, now, decode)
    ensures PassInvariant(PassState(st.users[KeyOf(uid) := snapshot[key].(positions := b.positions)], b.ledger, st.running),
                          snapshot, base, dryRun, now, decode)
  {
    var more := b.ledger[|st.trades|..];
    var users := st.users[KeyOf(uid) := snapshot[key].(positions := b.positions)];
    assert b.ledger == st.trades + more;
    LedgerGrows(st.trades, base, more, snapshot, key, uid, now, dryRun, decode);
    WrittenKeyKnown(snapshot, key, uid);
    assert forall k :: k in users ==> KnownKey(k, snapshot) by {
      forall k | k in users
        ensures KnownKey(k, snapshot)
      {
        if k != KeyOf(uid) {
          assert k in st.users;
        }
      }
    }
    if AllCanonical(snapshot) {
      assert users == st.users[key := snapshot[key].(positions := b.positions)];
      WriteBackOnlyMovesPositions(st.users, snapshot, key, b.positions, now, decode);
    }
  }

  lemma VisitKeepsInvariant(st: PassState, snapshot: map<string, User>, base: seq<Trade>, key: string, cfg: Config,
                            market: Market, decode: string -> Option<string>, now: int)
    requires key in snapshot
    requires PassInvariant(st, snapshot, base, cfg.dryRun, now, decode)
    ensures PassInvariant(VisitSpec(st, snapshot, key, cfg, market, decode, now), snapshot, base, cfg.dryRun, now, decode)
  {
    var v := VisitSpec(st, snapshot, key, cfg, market, decode, now);
    if ParseInt(key).Some? && Eligible(snapshot[key], now, decode) {
      var uid := ParseInt(key).value;
      var r := UserPass(snapshot[key], uid, cfg, market, st.trades, now);
      if r.Some? {
        assert v == PassState(st.users[KeyOf(uid) := snapshot[key].(positions := r.value.positions)], r.value.ledger, st.running);
        WriteBackKeepsInvariant(st, snapshot, base, key, uid, r.value, cfg.dryRun, now, decode);
      } else {
        assert v == st.(running := false);
      }
    } else {
      assert v == st;
    }
  }

  /**
    Over the whole pass the ledger only grows, and only with trades of users
    eligible in the snapshot; no unknown key is written; with canonical keys
    only eligible users' positions change.
  */
  lemma {:induction false} PassKeepsInvariant(snapshot: map<string, User>, base: seq<Trade>, keys: seq<string>,
                                              cfg: Config, market: Market, decode: string -> Option<string>, now: int)
    requires forall k :: k in keys ==> k in snapshot
    ensures PassInvariant(PassSpec(snapshot, base, keys, cfg, market, decode, now), snapshot, base, cfg.dryRun, now, decode)
    decreases |keys|
  {
    if keys == [] {
      assert base[|base|..] == [];
    } else {
      var init := keys[..|keys| - 1];
      assert forall k :: k in init ==> k in keys;
      PassKeepsInvariant(snapshot, base, init, cfg, market, decode, now);
      var st := PassSpec(snapshot, base, init, cfg, market, decode, now);
      if st.running {
        VisitKeepsInvariant(st, snapshot, base, keys[|keys| - 1], cfg, market, decode, now);
      }
    }
  }

  /** One user key of the pass, on the store, as VisitSpec says. */
  method VisitUser(store: Store, cfg: Config, market: Market, decode: string -> Option<string>,
                   snapshot: map<string, User>, key: string, now: int) returns (aborted: bool)
    requires key in snapshot
    modifies store
    ensures PassState(store.users, store.trades, !aborted) ==
              VisitSpec(PassState(old(store.users), old(store.trades), true), snapshot, key, cfg, market, decode, now)
  {
    aborted := false;
    var parsed := ParseInt(key);
    if parsed.None? || !Eligible(snapshot[key], now, decode) {
      return;
    }
    aborted := PersistUser(store, snapshot[key], parsed.value, cfg, market, now);
  }

  /**
    `run_trading_iteration`. Users are visited in `order` (the store's key
    order) over a snapshot taken at the start; the store ends as PassSpec
    says, and `completed` is false when a malformed `symbols` setting
    aborted the pass, with what was written before it kept.
  */
  method RunIteration(store: Store, cfg: Config, market: Market, decode: string -> Option<string>, order: seq<string>, now: int)
    returns (completed: bool)
    requires forall k :: k in order <==> k in store.users
    modifies store
    ensures PassState(store.users, store.trades, completed) ==
              PassSpec(old(store.users), old(store.trades), order, cfg, market, decode, now)
    ensures completed <==> forall k :: k in order ==> !Aborts(old(store.users), k, cfg.symbolsEnv, now, decode)
    ensures LedgerExtends(store.trades, old(store.trades), old(store.users), now, cfg.dryRun, decode)
    ensures forall k :: k in store.users ==> KnownKey(k, old(store.users))
    ensures AllCanonical(old(store.users)) ==> OnlyPositionsMoved(store.users, old(store.users), now, decode)
  {
    var snapshot := store.users;
    var base := store.trades;
    completed := true;
    var i := 0;
    while i < |order|
      invariant 0 <= i <= |order|
      invariant snapshot == old(store.users) && base == old(store.trades)
      invariant PassSpec(snapshot, base, order[..i], cfg, market, decode, now) == PassState(store.users, store.trades, true)
    {
      assert order[..i + 1][..i] == order[..i];
      var aborted := VisitUser(store, cfg, market, decode, snapshot, order[i], now);
      if aborted {
        completed := false;
        PassStopped(snapshot, base, order, i + 1, cfg, market, decode, now);
        break;
      }
      i := i + 1;
    }
    if completed {
      assert order[..i] == order;
    }
    PassCompletes(snapshot, base, order, cfg, market, decode, now);
    PassKeepsInvariant(snapshot, base, order, cfg, market, decode, now);
  }
}
