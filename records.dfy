/**
  The records the JSON store keeps and the trading core reads and writes:
  setting values, positions, trade records and user records.
*/
module Records {
  import opened Wrappers

  /** A setting value as the JSON store holds it. */
  datatype Value = Null | Flag(b: bool) | Num(x: real) | Text(s: string) | Texts(items: seq<string>)

  /** Python truthiness of a setting value (`not v` is false). */
  predicate Truthy(v: Value) {
    match v
    case Null => false
    case Flag(b) => b
    case Num(x) => x != 0.0
    case Text(s) => s != []
    case Texts(items) => items != []
  }

  /**
    A user's `sub_until`: missing, `None` or empty; an ISO timestamp (as
    seconds); or text that `datetime.fromisoformat` rejects.
  */
  datatype Stamp = Unset | At(t: int) | Malformed

  /** An open position; a flat (user, symbol) pair has no position. */
  datatype Position = Long(entryPrice: real, qty: real, openedAt: int)

  datatype Side = Buy | Sell

  /** `order_resp` of a trade: absent (dry run), the exchange's reply, or `{"error": ...}`. */
  datatype OrderResp = NotSent | Reply(payload: string) | Error(message: string)

  /** One entry of the append-only trade ledger. */
  datatype Trade = Trade(
    userId: int,
    symbol: string,
    side: Side,
    price: real,
    qty: real,
    pnl: real,
    ts: int,
    order: OrderResp)

  /** A user record; `positions` is the `_positions` map the trading core keeps in it. */
  datatype User = User(
    username: Option<string>,
    apiKey: string,
    apiSecret: string,
    subUntil: Stamp,
    settings: map<string, Value>,
    positions: map<string, Option<Position>>)

  /** The settings a newly created user record starts with. */
  const DefaultUserSettings: map<string, Value> := map[
    "RSI_PERIOD" := Num(14.0), "RSI_OVERSOLD" := Num(40.0), "RSI_OVERBOUGHT" := Num(60.0),
    "FAST_MA" := Num(50.0), "SLOW_MA" := Num(200.0),
    "MACD_FAST" := Num(8.0), "MACD_SLOW" := Num(21.0), "MACD_SIGNAL" := Num(5.0),
    "ORDER_PERCENT" := Num(10.0), "ORDER_SIZE_USD" := Num(0.0),
    "TP_PCT" := Num(1.0), "SL_PCT" := Num(0.5)]

  /** A new user: no keys, no subscription, default settings, no positions. */
  function DefaultUser(username: Option<string>): User {
    User(username, "", "", Unset, DefaultUserSettings, map[])
  }
}
