# JamesTradeBot core in Dafny

This project models the core of JamesTradeBot, a Telegram-controlled spot
trading bot for the Bybit exchange, and proves properties of that model.
The bot keeps its users and its trade ledger in two JSON files. A
background loop (`run_trading_iteration`) visits every subscribed user who
has exchange keys, works out which symbols that user trades, and for each
symbol:

- reads RSI, EMA and MACD indicators;
- sizes an order from the user's balance and settings;
- moves the (user, symbol) position between FLAT and LONG, appending BUY
  and SELL records to the ledger.

The chat front end lets users pick pairs, switch trading on and off, and
lets the admin grant subscriptions.

Modules, one per file:

| file | module | what it holds |
|---|---|---|
| `wrappers.dfy` | `Wrappers` | `Option`, used where the source returns `None` or raises |
| `text.dfy` | `Text` | Python string semantics: `isspace`, `strip`, `upper`/`lower`, `split(sep)`, `split()`, `str(int)`, `int(str)` |
| `records.dfy` | `Records` | setting values, positions, trade and user records, the default user |
| `slices.dfy` | `Slices` | Python's `xs[-n:]` |
| `store.dfy` | `Store` | `db_json.py`: the user map and trade ledger as a class updated in place |
| `symbols.dfy` | `Symbols` | symbol normalisation, order-preserving `uniq`, the valid/invalid split |
| `sizing.dfy` | `Sizing` | `floor_qty`, order sizing |
| `signals.dfy` | `Signals` | RSI confirmation, `buy_ok` and `sell_ok` |
| `engine.dfy` | `Engine` | settings merge and conversion, the per-symbol decision, the `Trader` class with its `Step` method, user and symbol selection, one whole pass |
| `frontend.dfy` | `FrontEnd` | `tg_app.py`: notification rate limiter, trading switch, pair toggle, pair-list parser, `/give_sub` |

Outside inputs become parameters:

- The exchange is a `Market` value with four functions: whether a symbol is listed, the indicator values of a symbol (`None` when the candles are missing or have no `close` column), the quote balance, and the reply to an order.
- Key decoding is a function `decode`, where `None` stands for a decode error.
- The key check when trading is switched on is a predicate `keysValid`.
- Time is an integer `now`, in seconds.

Prices, quantities and balances are exact reals. An exception that the
source catches and recovers from is an `Option` or an outcome value in the
model.

How the pieces fit:

- **One symbol.** `Engine.Evaluate` converts each setting exactly where
  the source does, so a malformed setting skips the symbol only when the
  source would actually read it. `Engine.Decide` is the FLAT/LONG state
  machine.
- **One user.** `Engine.Trader.Step` performs one symbol on the trader's
  positions and ledger, and is proved equal to the function
  `Engine.StepSpec`. `Engine.Trader.Run` loops `Step` over a symbol
  list and is proved equal to the fold `Engine.RunSymbols`. `Engine.TradeUser`
  picks the user's symbols and settings and runs the trader on them; it is
  proved equal to the function `Engine.UserPass`. `Engine.PersistUser`
  writes the result back to the store.
- **One pass.** `Engine.RunIteration` visits the users in the store's key
  order over a snapshot taken at the start, as the source does. It is
  proved equal to the fold `Engine.PassSpec` of `Engine.VisitSpec`, which
  stops at the first user whose `symbols` setting raises. Lemmas about that
  fold give three more facts:
  - the ledger only grows, and only with trades of eligible users;
  - no new user key appears except `str(int(key))` of an existing one;
  - with canonical keys, only the positions of eligible users change.

## Model

| member | source | states |
|---|---|---|
| `Sizing.FloorQty` | trading_core.py:110-117 | `floor_qty`: 0 for a non-positive quantity, else the quantity rounded down to `prec` decimals. Its facts are stated by `Sizing.FloorQtyBounds`, `Sizing.FloorQtyIsGreatestStep`, `Sizing.FloorQtyOnStep` and `Sizing.FloorQtyExample`. |
| `Sizing.FloorQtyBounds` | trading_core.py:110-117 | A non-positive quantity floors to 0. A positive one floors to a value r with 0 ≤ r ≤ qty and qty − r < 10^-prec, for any integer precision. |
| `Sizing.FloorQtyIsGreatestStep` | trading_core.py:110-117 | Every multiple of the step 10^-prec that fits under qty is at most the result, so flooring never undershoots. |
| `Sizing.FloorQtyOnStep` | trading_core.py:110-117 | The result times 10^prec is exactly floor(qty · 10^prec): a whole number of steps. |
| `Sizing.FloorQtyExample` | trading_core.py:110-117 | floor_qty(1.23456, 2) = 1.23. |
| `Sizing.OrderUsd` | trading_core.py:333-337 | A positive ORDER_SIZE_USD spends exactly that amount when the balance is not positive. With a positive balance it spends the smaller of the two (the result is one of them and at most both). Otherwise a positive balance spends exactly percent/100 of itself, which stays within the balance for a percentage in [0, 100]. Otherwise nothing is spent. |
| `Sizing.RawQty` | trading_core.py:339 | For a positive price, the quantity times the price is the order amount; otherwise the quantity is 0. |
| `Sizing.FlooredOrderFitsBalance` | trading_core.py:332-341 | With a positive balance and price, the floored order's notional lies between 0 and the balance. |
| `Symbols.KeepSymbolChars` | trading_core.py:120-125 | Removing every character outside `[A-Z0-9]` keeps exactly the characters inside that class. Order and multiplicity are fixed by the two lemmas below. |
| `Symbols.KeepSymbolCharsAppend` | trading_core.py:120-125 | The substitution distributes over concatenation: the kept characters of `a + b` are those of `a` followed by those of `b`. |
| `Symbols.KeepSymbolCharsOne` | trading_core.py:120-125 | One character is kept iff it is in `[A-Z0-9]`. |
| `Symbols.KeepAroundSeparator` | trading_core.py:120-125 | Two symbols joined by a character outside `[A-Z0-9]` lose that character and keep both symbols, in order. |
| `Symbols.NormalizeExample` | trading_core.py:119-126 | `normalize_symbol("btc/usdt") == "BTCUSDT"`. |
| `Symbols.Normalize` | trading_core.py:120-126 | The normal form of a symbol contains only `A-Z` and `0-9`, and empty input stays empty. |
| `Symbols.NormalizeFixesSymbol` | trading_core.py:120-126 | Text already in `[A-Z0-9]*` is its own normal form. |
| `Symbols.NormalizeIdempotent` | trading_core.py:120-126 | Normalising twice equals normalising once. |
| `Symbols.FrontEndNormalize` | tg_app.py:374-380 | The front end's normal form also contains only `A-Z` and `0-9`. |
| `Symbols.FrontEndNormalizeAgrees` | tg_app.py:374-380 | The front end (strip, then upper-case) and the trading core (upper-case, then strip) normalise every input identically. |
| `Symbols.NormalizeAll` | trading_core.py:263 | The kept items are exactly the non-empty normal forms of the inputs. Their order is fixed by the two lemmas below. |
| `Symbols.NormalizeAllAppend` | trading_core.py:263 | The comprehension keeps input order: the list for `a + b` is the list for `a` followed by the list for `b`. |
| `Symbols.NormalizeAllOne` | trading_core.py:263 | One input contributes its normal form iff that is non-empty. |
| `Symbols.NormalizeAllTwice` | trading_core.py:263 | Normalising an already normalised list gives back the same list. |
| `Symbols.NormalizeAllSymbols` | trading_core.py:263 | Every kept item is a non-empty `[A-Z0-9]` symbol. |
| `Symbols.Screen` | trading_core.py:173-176 | An item is in the `listed == want` part exactly when it is an input and the oracle answers `want` for it. Its order is fixed by the two lemmas below. |
| `Symbols.ScreenAppend` | trading_core.py:173-176 | The split keeps input order: screening `a + b` gives the screen of `a` followed by the screen of `b`. |
| `Symbols.ScreenOne` | trading_core.py:173-176 | One item is kept iff the oracle answers `want` for it. |
| `Symbols.ScreenAll` | trading_core.py:173-176 | When the oracle answers `want` for every item, the screen keeps the whole list in order. |
| `Symbols.Dedup` | trading_core.py:178-186 | The result is duplicate-free and has exactly the input's elements. |
| `Symbols.DedupKeepsFirstOccurrenceOrder` | trading_core.py:178-186 | The result lists the elements in the order of their first occurrence in the input. |
| `Symbols.Uniq` | tg_app.py:457-465 | The `seen`-set loop returns exactly `Dedup` of its input. |
| `Symbols.ValidateSymbols` | trading_core.py:129-186 | Inputs that normalise to "" are dropped. A normal form is in `valid` iff the exchange lists it and in `invalid` iff it does not. Both lists are duplicate-free and in first-occurrence order. The front end's `validate_symbols` (tg_app.py:383-465) is the same loop. |
| `Text.TrimmedPieces` | trading_core.py:261 | `[s.strip() for s in xs if s.strip()]` holds exactly the non-empty stripped inputs, each already stripped, never more than there were. Its order is fixed by the two lemmas below. |
| `Text.TrimmedPiecesAppend` | trading_core.py:261 | The comprehension keeps input order: the pieces of `a + b` are those of `a` followed by those of `b`. |
| `Text.TrimmedPiecesOne` | trading_core.py:261 | One input contributes its stripped text iff that is non-empty. |
| `Text.TrimmedPiecesFixed` | trading_core.py:261 | Inputs that are already non-empty and stripped come back unchanged. |
| `Text.MapNonEmptyAppend` | trading_core.py:263 | `[f(s) for s in a + b if f(s)]` is the comprehension over `a` followed by the one over `b`, for every `f`. |
| `Text.SplitAppend` | trading_core.py:261 | `(a + c + b).split(c)` is `a.split(c)` followed by `b.split(c)`. |
| `Text.SplitPiecesHaveNoSep` | trading_core.py:261 | No piece of `s.split(c)` holds the separator. |
| `Text.ShowIntTrimmed` | trading_core.py:216 | `str(n)` has no surrounding whitespace. |
| `Text.ParseInt` | trading_core.py:216 | `int(s)` of text: surrounding whitespace, one optional sign, ASCII digits; anything else raises. `Text.ParseShowInt` states that it reads back `str(n)`; the accepted syntax is narrower than Python's, as "## Left out" says. |
| `Text.ParseShowInt` | trading_core.py:216 | `int(str(n)) == n` for every integer, so the store key of a user id parses back to that id. |
| `Text.WordsJoin` | tg_app.py:1083 | `" ".join(xs).split() == xs` for non-empty words without whitespace. |
| `Engine.UpperAll` | trading_core.py:39 | Each item is the upper-cased input item, in order. |
| `Engine.SymbolsEnvFrom` | trading_core.py:39 | `SYMBOLS_ENV` holds no empty entry. Its entries are fixed by the three lemmas below. |
| `Engine.SymbolsEnvAppend` | trading_core.py:39 | The entries of `a,b` are the entries of `a` followed by those of `b`. |
| `Engine.SymbolsEnvPiece` | trading_core.py:39 | Text without a comma gives no entry when blank, else one entry: the text stripped and upper-cased. |
| `Engine.SymbolsEnvJoin` | trading_core.py:39 | A comma-joined list of non-empty symbols reads back as exactly that list, in order. |
| `Engine.DryRunFrom` | trading_core.py:38 | `DRY_RUN` is on iff the variable, defaulting to `true`, lower-cases to `true`. `Engine.DryRunSpellings` states which spellings turn it on and off. |
| `Engine.DryRunSpellings` | trading_core.py:38 | Dry run is on when `DRY_RUN` is unset, `TRUE` or `True`, and off for `false`, `1` or ` true` (the comparison ignores case but not surrounding spaces). |
| `Engine.Merge` | trading_core.py:272 | The merged settings have every default and user key. A key the user set has the user's value; every other key has the default. |
| `Engine.Trunc` | trading_core.py:314 | `int()` of a float rounds toward zero. |
| `Engine.DefaultsComplete` | trading_core.py:53-70 | Every entry of the default table converts without raising. |
| `Engine.ParamsOf` | trading_core.py:296-343 | Each setting of the merged map converted with `int()` or `float()` as the source does, None where the conversion raises. `Engine.DefaultsComplete` states that every default converts. |
| `Engine.UserParams` | trading_core.py:272-343 | Each setting read over its DEFAULTS entry and converted. `Engine.UserParamsMerged` states that it equals `Engine.ParamsOf` of `{**DEFAULTS, **settings}`. |
| `Engine.UserParamsMerged` | trading_core.py:272 | Converting `{**DEFAULTS, **settings}` gives the same parameters as reading each setting over its own DEFAULTS entry. |
| `Signals.RsiConfirm` | trading_core.py:313-321 | The buy and sell confirmations over the last RSI_CONFIRM readings, both false when the window is unusable. `Signals.BuyConfirmedIff`, `Signals.SellConfirmedIff`, `Signals.ConfirmExclusive` and `Signals.EmptyWindowConfirmsBoth` state its facts. |
| `Signals.BuyOk` | trading_core.py:343 | `buy_ok`: buy confirmed, trend up and the histogram above the threshold. `Signals.BuySellExclusive`, `Signals.SignalsExclusive` and `Signals.NoTrendSells` state its facts. |
| `Signals.SellOk` | trading_core.py:344 | `sell_ok`: sell confirmed, or trend not up, or the histogram below minus the threshold. The same lemmas as `Signals.BuyOk` state its facts. |
| `Signals.BuyConfirmedIff` | trading_core.py:313-321 | For RSI_CONFIRM ≥ 1, a buy is confirmed iff there are at least RSI_CONFIRM readings and each of the last RSI_CONFIRM is present and below the oversold threshold. |
| `Signals.SellConfirmedIff` | trading_core.py:313-321 | For RSI_CONFIRM ≥ 1, a sell is confirmed iff there are at least RSI_CONFIRM readings and each of the last RSI_CONFIRM is present and above the overbought threshold. |
| `Signals.ConfirmExclusive` | trading_core.py:313-321 | On a non-empty window with oversold ≤ overbought, buy and sell are never both confirmed. |
| `Signals.EmptyWindowConfirmsBoth` | trading_core.py:317-321 | An empty window confirms both sides: RSI_CONFIRM 0 on an empty series, or a negative RSI_CONFIRM at least as long as the series. |
| `Signals.BuySellExclusive` | trading_core.py:343-344 | When the confirmations exclude each other and the MACD threshold is not negative, `buy_ok` and `sell_ok` are never both true. |
| `Signals.SignalsExclusive` | trading_core.py:313-344 | With oversold ≤ overbought, a threshold ≥ 0 and a non-empty window, no symbol is both a buy and a sell. |
| `Signals.NoTrendSells` | trading_core.py:343-344 | Without an up-trend (including a missing EMA), `sell_ok` holds and `buy_ok` does not. |
| `Engine.Evaluate` | trading_core.py:296-355 | The per-symbol body after the candles arrive: each setting converted where the source reads it, then sizing, signals and `Engine.Decide`; None where a conversion raises. `Engine.CompleteNeverRaises`, `Engine.EvaluateSound`, `Engine.OpenFitsBalance`, `Engine.LongHoldsWithoutSell` and the `Engine.Scenario*` lemmas state its facts. |
| `Engine.SizedQty` | trading_core.py:332-341 | The floored order quantity from ORDER_SIZE_USD, ORDER_PERCENT, the balance and the price. `Sizing.OrderUsd`, `Sizing.RawQty`, `Sizing.FlooredOrderFitsBalance` and `Engine.OpenFitsBalance` state its facts. |
| `Engine.Decide` | trading_core.py:352-404 | FLAT opens with the sized quantity iff `buy_ok`, qty > 0 and qty·price ≥ MIN_NOTIONAL. LONG closes with the stored quantity iff `sell_ok`, stored qty > 0 and stored qty·price ≥ MIN_NOTIONAL. LONG with `sell_ok` otherwise clears without a trade. MIN_NOTIONAL failing to convert raises exactly on the two paths that read it. Everything else holds. |
| `Engine.CompleteNeverRaises` | trading_core.py:296-355 | When every setting converts, the per-symbol decision never raises. |
| `Engine.EvaluateSound` | trading_core.py:296-404 | An Open decision implies a flat position, `buy_ok`, the sized quantity, qty > 0 and notional ≥ MIN_NOTIONAL. A Close decision implies `sell_ok`, the stored quantity, qty > 0 and notional ≥ MIN_NOTIONAL. |
| `Engine.OpenFitsBalance` | trading_core.py:332-355 | With a positive balance and a sane percentage, an Open decision's quantity times the price never exceeds the balance. |
| `Engine.LongHoldsWithoutSell` | trading_core.py:378 | An open position without `sell_ok` is held, whatever the buy signal says. |
| `Engine.StepSpec` | trading_core.py:273-411 | One symbol appends at most one trade, leaves the old ledger as a prefix, and moves no other symbol's position. The new trade is for this user and symbol, at `now`, with pnl 0 and positive qty, and has no order reply in a dry run. Missing candles or an exception leave the book unchanged. |
| `Engine.RunSymbols` | trading_core.py:273-411 | A user's symbols in order extend the ledger only with that user's trades, each in one of the traded symbols. They leave every other symbol's position as it was. |
| `Engine.Trader.Step` | trading_core.py:273-411 | The loop body, updating the positions and ledger in place, leaves exactly `StepSpec` of the old state. |
| `Engine.Trader.Run` | trading_core.py:273-411 | The symbol loop leaves exactly `RunSymbols` of the old state over the symbols in order. |
| `Engine.Trader.constructor` | trading_core.py:348-350 | A trader starts from the user's stored positions and the current ledger. |
| `Engine.StepKeepsBacked` | trading_core.py:354-404 | Invariant kept by one step: every open position has a positive qty, and the user's last trade in that symbol is the BUY that opened it (same price, qty and time). |
| `Engine.RunSymbolsKeepsBacked` | trading_core.py:273-411 | A whole user's pass keeps that invariant. |
| `Engine.OtherUsersKeepLastTrade` | trading_core.py:356-372 | One user's step never changes another user's last trade in any symbol. |
| `Engine.OrderOutcomeOnlyInOrderField` | trading_core.py:365-372 | Dry run and the order reply or error change only the trade's `order_resp`. The transition and every other trade field are unaffected. |
| `Engine.ApplyOrderOnly` | trading_core.py:365-372 | Carrying out one decision under two markets or modes gives the same positions and the same trades apart from `order_resp`. |
| `Engine.SkippedSymbolIsInert` | trading_core.py:289-291 | A symbol without candle data can be removed from the list without changing the outcome of the pass. |
| `Engine.StepAppliesDecision` | trading_core.py:354-404 | With candles present, a step is exactly its decision applied to the book. |
| `Engine.OneReading` | trading_core.py:317-321 | With one reading, a buy is confirmed iff it is below oversold and a sell iff it is above overbought. |
| `Engine.ScenarioOpen` | trading_core.py:354-374 | Flat, RSI 30, balance 100 at 10 %, price 50, precision 3: the decision is Open(0.2). It records one BUY of 0.2 at 50 and opens LONG(50, 0.2). |
| `Engine.ScenarioClose` | trading_core.py:378-400 | LONG 0.2, RSI 70, price 55: the decision is Close(0.2). It records one SELL of 0.2 at 55 and clears the position. |
| `Engine.ScenarioSilentClear` | trading_core.py:402-404 | LONG 0.001 at price 50 (notional 0.05 < 5): the decision is Clear, which records no trade. |
| `Engine.ClearThenOpenRepeatsBuy` | trading_core.py:402-404 | After a silent clear and a new open, the ledger holds two BUYs in a row for the symbol. |
| `Engine.SubscriptionCurrent` | trading_core.py:220-228 | The pass trades when `sub_until` parses and is not earlier than now. `FrontEnd.SubscriptionChecksDiffer` states how it differs from the front end's test. |
| `Engine.Eligible` | trading_core.py:220-245 | A current subscription and both stored keys non-empty and decoding to non-empty text. `Engine.PassKeepsInvariant` states that only eligible users add trades to the ledger. |
| `Engine.SymbolsSetting` | trading_core.py:258-261 | A falsy `symbols` setting gives `SYMBOLS_ENV`. A list gives its items. Text is split on commas. Any other truthy value raises. |
| `Engine.WorkingSetFromRequest` | trading_core.py:263-269 | When the request normalises to something, every traded symbol is the normal form of a requested one. |
| `Engine.UserSymbolsNonEmpty` | trading_core.py:263-269 | With a non-empty `SYMBOLS_ENV`, no user's working set is empty, however validation goes. |
| `Engine.WorkingSet` | trading_core.py:269 | The validated symbols when there are any, else the normalised request. `Engine.WorkingSetFromRequest` and `Engine.UserSymbolsNonEmpty` state its facts. |
| `Engine.UserSymbols` | trading_core.py:263-269 | The request normalised (falling back to SYMBOLS_ENV), validated, and the working set chosen. `Engine.WorkingSetFromRequest` and `Engine.UserSymbolsNonEmpty` state its facts. |
| `Engine.UserPass` | trading_core.py:257-411 | One user's run aborts exactly on a malformed `symbols` setting. Otherwise the old ledger stays a prefix and every new trade is recorded for this user at `now`. |
| `Engine.UserPassKeepsBacked` | trading_core.py:257-411 | If every open position of the user is backed by its opening BUY before the run, this still holds after it. |
| `Engine.TradeUser` | trading_core.py:257-411 | The symbol selection followed by the Trader loop gives exactly `UserPass`: an abort on a malformed `symbols` setting, otherwise `RunSymbols` over the validated-or-fallback symbols with the merged settings. |
| `Engine.PersistUser` | trading_core.py:413-426 | It aborts iff `UserPass` does, and an abort leaves the store as it was. Otherwise the ledger becomes exactly the ledger of `UserPass`. The one record written, under `str(uid)`, is the snapshot record with exactly the positions of `UserPass`. |
| `Engine.WrittenKeyKnown` | trading_core.py:414-417 | The record is written under `str(int(key))`. That key is the original key whenever keys are canonical. |
| `Engine.WriteBackOnlyMovesPositions` | trading_core.py:414-417 | Writing an eligible user's record back changes only that record's positions. |
| `Engine.WriteBackKeepsInvariant` | trading_core.py:413-417 | Writing one eligible user's run back keeps the pass invariant: the ledger grows only with trades of eligible users, written keys are known, and with canonical keys only eligible users' positions move. |
| `Engine.VisitKeepsInvariant` | trading_core.py:214-426 | Visiting one key keeps that invariant, whether the key is skipped, aborts or trades. |
| `Engine.PassKeepsInvariant` | trading_core.py:208-426 | The whole pass keeps that invariant, from the snapshot and ledger it starts with. |
| `Engine.PassStopped` | trading_core.py:214-426 | Once a user's turn has aborted the pass, the remaining keys change nothing. |
| `Engine.PassCompletes` | trading_core.py:214-426 | The pass completes iff no key in the order is a parsable, eligible user with a malformed `symbols` setting. |
| `Engine.VisitUser` | trading_core.py:214-426 | One key on the store gives exactly `VisitSpec`. A key that does not parse or an ineligible user changes nothing. An abort changes nothing and stops the pass. Otherwise the ledger and the user's record are those of `UserPass`. |
| `Engine.RunIteration` | trading_core.py:208-426 | The store and `completed` end exactly as the fold `PassSpec` over the key order says. `completed` holds iff no visited user aborts. The ledger only grows, and only with trades of users who were eligible in the snapshot. No unknown key is written. With canonical keys, only eligible users' positions change. |
| `Store.KeysDistinct` | db_json.py:54-55 | Distinct user ids never share a record key. |
| `Store.KeyOfIsCanonical` | db_json.py:54-55 | The key of an id is canonical and parses back to the id. |
| `Store.Store.constructor` | db_json.py:15-21 | A new store has no users and no trades. |
| `Store.Store.GetUser` | db_json.py:54-55 | The result is present iff `str(uid)` is stored, and is then that record. |
| `Store.WithDefaultUser` | db_json.py:57-75 | The default record is added only when the key is absent, and existing records are untouched. |
| `Store.CreateDefaultUserIdempotent` | db_json.py:57-75 | Creating the default user twice equals creating it once. |
| `Store.Store.CreateDefaultUser` | db_json.py:57-75 | Inserts the default record only if absent, and returns the stored record. Trades are untouched. |
| `Store.Store.SetApiKeys` | db_json.py:77-84 | For a stored user, only `api_key` and `api_secret` change. For an unknown user, the default record is inserted and the call fails. |
| `Store.SubscriptionEnd` | db_json.py:91 | `utcnow() + timedelta(days)` is defined iff the delta is within a billion days and the date is within years 1 to 9999. It is then exactly `days` days after now. |
| `Store.Store.SetSubscription` | db_json.py:86-92 | For a stored user with a representable end date, only `sub_until` changes, to now + days. A date past year 9999 raises before saving and changes nothing. For an unknown user, the default record is inserted and the call fails. |
| `Store.Store.UpdateSetting` | db_json.py:103-109 | For a stored user, only `settings[name]` changes. For an unknown user, the default record is inserted and the call fails. |
| `Store.Store.AppendTrade` | db_json.py:111-116 | The ledger grows by exactly this record at its end; users are untouched. |
| `Store.UserTrades` | db_json.py:118-121 | An item is kept iff it is in the ledger and belongs to the user. |
| `Store.UserTradesAppend` | db_json.py:120 | The user's trades in `a + b` are those in `a` followed by those in `b`, so the filter keeps ledger order. |
| `Store.UserTradesSnoc` | db_json.py:120 | An appended trade goes at the end of its own user's list and into no other user's list. |
| `Store.Store.GetTradesForUser` | db_json.py:118-122 | Returns a suffix of the user's trades in ledger order, all of that user. Its length is min(limit, count) for limit > 0; limit 0 returns all of them. |
| `Slices.PyTail` | db_json.py:122 | `xs[-n:]` is a suffix: the last min(n, len) items for n > 0, everything for n = 0, and all but the first \|n\| for n < 0. |
| `FrontEnd.Notifier.constructor` | tg_app.py:90 | The rate-limit table starts empty. |
| `FrontEnd.Notifier.ShouldNotify` | tg_app.py:92-98 | Fires iff more than 300 s passed since the key's last notification (0 when never). Records `now` for that key only when it fires. |
| `FrontEnd.NotificationsSpacedOut` | tg_app.py:92-98 | After firing for a key at t, the key fires again iff now > t + 300. Other keys are unaffected. |
| `FrontEnd.HasActiveSub` | tg_app.py:521-532 | The user exists and `sub_until` parses to a time strictly after now. `FrontEnd.SubscriptionChecksDiffer`, `FrontEnd.ToggleBot` and `FrontEnd.ApplyGiveSub` state its facts. |
| `FrontEnd.SubscriptionChecksDiffer` | tg_app.py:521-532 | An active subscription (strictly after now) is also current for the trading pass. The two tests disagree exactly when `sub_until` equals now. |
| `FrontEnd.IsTradingActive` | tg_app.py:534-539 | The user exists and the `active` setting is truthy. `FrontEnd.ToggleBot` states how a toggle changes it. |
| `FrontEnd.ToggleBot` | tg_app.py:696-728 | Each outcome happens exactly under its condition: off and no active subscription asks for one; off, subscribed and a missing key asks for keys; off, subscribed, both keys and failed validation rejects them; off, subscribed, both keys and passing validation turns on; on turns off. Trading ends on iff the outcome is turning on. Turning off and a rejected key both write `active = False`. A missing subscription or keys writes nothing beyond the created default user. |
| `FrontEnd.Flip` | tg_app.py:822-825 | Only the pressed symbol changes membership. |
| `FrontEnd.FlipTwice` | tg_app.py:822-825 | Flipping the same symbol twice restores the set. |
| `FrontEnd.ListOf` | tg_app.py:827 | `list(s)` holds each element of the set exactly once. |
| `FrontEnd.StoredPairs` | tg_app.py:820-821 | `settings.get("symbols", SYMBOLS_ENV)` as something to iterate: a list, the characters of a string, or None where iterating raises. `FrontEnd.PairsToggle` states its use. |
| `FrontEnd.PairsToggle` | tg_app.py:810-829 | The stored pairs become the upper-cased old set with only the upper-cased symbol flipped, stored as a duplicate-free list. A stored value that cannot be iterated raises after the user was created. |
| `FrontEnd.ToggleTwiceRestores` | tg_app.py:821-827 | Pressing the same pair twice gives back the upper-cased set the user had. |
| `FrontEnd.ExtractTokens` | tg_app.py:854-861 | A blank part gives no tokens. A part is split on whitespace only when the raw text has no `,` `;` or newline and the part holds a space. Otherwise the part is kept whole. |
| `FrontEnd.TokensOfParts` | tg_app.py:853-861 | The tokenizer loop collects exactly the parts' tokens in order. |
| `FrontEnd.SplitPairs` | tg_app.py:851-861 | The text is split on every separator, and words are split only when there is none. The tokens are those of the parts, in order. |
| `FrontEnd.PartTokensOfSymbol` | tg_app.py:854-861 | A non-empty `[A-Z0-9]` symbol is a part whose only token is itself. |
| `FrontEnd.PairTokens` | tg_app.py:847-862 | The tokens of the pair text, normalised, blanks dropped. `FrontEnd.PairTokensAreSymbols`, `FrontEnd.PairTokensJoin` and `FrontEnd.TokenizePairs` state its facts. |
| `FrontEnd.TokenizePairs` | tg_app.py:847-862 | The tokens are the collected ones normalised, with blanks dropped. |
| `FrontEnd.PairTokensAreSymbols` | tg_app.py:862 | Every token is a non-empty `[A-Z0-9]` symbol, and normalising the tokens again changes nothing. |
| `FrontEnd.PairTokensJoin` | tg_app.py:851-862 | A comma-separated list of symbols parses back to exactly that list, in order. |
| `FrontEnd.ListedTokens` | tg_app.py:866-876 | Something is kept iff some token is listed. When none is, the rejected list is every token once, in order. |
| `FrontEnd.ProcessPairsInput` | tg_app.py:847-876 | No tokens iff the text yields none: nothing saved. A save is attempted iff some token is listed. `symbols` then becomes exactly the listed tokens, duplicate-free, in first-occurrence order, and the reply lists the unlisted ones the same way. All tokens unlisted iff there are tokens and none is listed: nothing saved, every token reported once. An unknown user makes the store insert the default record and fail. |
| `FrontEnd.ParseGiveSub` | tg_app.py:1080-1102 | A sender is refused iff it is not the admin. The usage reply comes iff there are fewer than three words, and the bad-id reply iff the second word is not an integer. A grant reads its target from the second word and its days from the third: 36500 for `forever` in any case, otherwise the integer that word reads as, which is positive. Every other admin command, a days word that is not an integer or not positive, is refused with the bad-days reply. |
| `FrontEnd.ParseGiveSubGrant` | tg_app.py:1080-1102 | Three words or more whose second reads as `target` under `int()` (so `7`, `007` and `+7` alike) grant to that target, for `forever` in any case or for the positive integer the third word reads as; further words are ignored. |
| `FrontEnd.GiveSubRoundTrip` | tg_app.py:1083-1102 | `/give_sub <id> <days>` written by the admin with days > 0 parses back to that id and those days. |
| `FrontEnd.GiveSubForever` | tg_app.py:1093-1095 | `forever` grants 36500 days. |
| `FrontEnd.ApplyGiveSub` | tg_app.py:1103-1114 | A grant succeeds iff the target is stored and the end date is representable. It then sets only `sub_until`, to now + days, and a positive grant leaves the subscription active. An unknown target gets the default record and nothing is granted. An overflowing date or any other command leaves the store alone. |
| `FrontEnd.CmdGiveSub` | tg_app.py:1079-1114 | A valid command for a stored user with a representable end date sets its `sub_until` to now + days, leaves the subscription active and changes nothing else. A failed parse or an overflowing date changes nothing. An unknown target gets the default record and the grant fails. |

## Left out

- The exchange client (`client.py`): HTTP, request signing and reply parsing. Listing, candles, balance and order placement are the `Market` oracle. A missing client folds into it (no candles, balance 0, no order reply).
- Indicator computation (`rsi_series_custom`, `ta`'s EMA, `calc_macd_hist_series`, pandas): the RSI series, the last EMAs and the last MACD histogram arrive as values. A missing reading is `None`. The empty-series `macd_hist = 0.0` fallback and the unused `rsi_now` are the oracle's business.
- `RSI_PERIOD` and the MACD periods: they are converted (a value that does not convert skips the symbol), but they only feed the indicator computation, which is out of scope.
- The `FAST_MA`/`SLOW_MA` retry in the `except` branch: it repeats the same `int()` conversions, so it is modelled as one conversion that skips the symbol when it raises.
- IEEE floating point: prices, quantities and balances are exact reals. There is no NaN price, no infinity, and no overflow in `floor_qty`.
- `float()` of text: only integer literals convert. Decimal, exponent, `inf`/`nan` and underscore spellings are not parsed; they fail to convert in the model.
- Text.ParseInt: `int()` of text accepts surrounding whitespace, one sign and ASCII digits only. Python also accepts single underscores between digits (`1_000`) and non-ASCII decimal digits. The model rejects those, which affects user keys, `/give_sub` arguments and integer settings given as text.
- Dates: `sub_until` is an integer timestamp, a missing value or a malformed one. ISO parsing, time zones and `utcnow` are replaced by `now`, whole seconds from the Unix epoch in UTC, and the trade `ts` and position `ts` are both `now`. The year range of `datetime` is kept where it can raise, in `Store.SubscriptionEnd`.
- Environment overrides of `DEFAULTS`, `TESTNET`, `TIMEFRAME`, `CANDLE_LIMIT` and the sleep loop: the defaults table is the one with no overrides. `DRY_RUN` and `SYMBOLS` are modelled as parsers of the raw variable.
- Key decoding (base64 and Fernet) and `validate_user_keys` (a network call): these are the oracles `decode` and `keysValid`.
- Telegram I/O, keyboards, locale strings, CryptoPay invoices, `main.py` and the asyncio workers: presentation, network and process management.
- File I/O and the lock in `db_json.py`: the store is one object with a users map and a trade sequence. Concurrent writers (the front end and the trading loop at once) are not modelled.
- `db_json.is_subscribed` is not used by the core and is not modelled.
- Ledger writes: the source appends each trade to the file when it happens. The model writes a user's new trades into the store when that user's symbols are done. Without concurrent writers the stored ledger is the same at every user boundary.
- Store contents: setting values are null, booleans, numbers, text or lists of text. Nested objects and lists of non-strings in `symbols` are not modelled. A stored position always holds its entry price and qty, so the `pos.get("entry_price", price)` and `pos.get("qty", qty)` fallbacks (trading_core.py:379-380) are not modelled.
- Case mapping: only ASCII letters change case in `upper()` and `lower()`.
- KeepSymbolChars: its own contract states only which characters are kept and a length bound. Order and multiplicity are stated by `Symbols.KeepSymbolCharsAppend` and `Symbols.KeepSymbolCharsOne`, which together determine the result.
- NormalizeAll: its own contract states membership only. Input order is stated by `Symbols.NormalizeAllAppend` and `Symbols.NormalizeAllOne`.
- Screen: its own contract states membership only. Input order is stated by `Symbols.ScreenAppend` and `Symbols.ScreenOne`.
- TrimmedPieces: its own contract states membership, shape and a length bound. Input order is stated by `Text.TrimmedPiecesAppend` and `Text.TrimmedPiecesOne`.
- SymbolsEnvFrom: its own contract states only that no entry is empty. The entries and their order are stated by `Engine.SymbolsEnvAppend`, `Engine.SymbolsEnvPiece` and `Engine.SymbolsEnvJoin`.
- `FrontEnd.ListOf`: Python's set iteration order is not modelled. The list holds the set's elements once each, in an order the model leaves open.
- `FrontEnd.ProcessPairsInput`: tokens are split on each separator character rather than on runs of them. The extra empty parts are dropped by the blank check, so the tokens are the same.
- `FrontEnd.ToggleBot` and `FrontEnd.PairsToggle`: the replies, the admin notification on a failed key check and the menu refresh are presentation and are left out.
