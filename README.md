# Backtester core in Dafny

This project models the in-memory core of a stock-strategy backtester. The backtester
replays historical one-minute bars as if a market-data socket were delivering them live.
A strategy registers callbacks and places orders against a simulated cash-and-positions
portfolio.

The model has five modules:

- `Wrappers` (`wrappers.dfy`): `Option` and `Result`.
- `Securities` (`securities.dfy`): the records of `src/Security/Security.js` and
  `src/Position/Position.js`.
  - A `Bar` is one minute's open, high, low, close and volume.
  - A `Security` is a symbol, its current price and its bar series.
  - A `Position` is a symbol and the quantity held.
- `Market` (`market.dfy`): the market-data registry and simulated clock of
  `src/MarketData/MarketData.js`, as the class `MarketData`.
  - `AddSecurity` registers a series.
  - `SimulateMinute` reveals the bar at index `time` of every series long enough to
    have one. It sets that security's price to the bar's close, returns one `AM.<symbol>`
    event per revealed bar, and advances the clock.
  - `HasData` says whether the clock is still before `maxTime`.
  - `GetPrice` reads a current price.
  - The replay of one security over many minutes is specified by the functions
    `Reveal`, `RevealRun` and `Deliveries`. One minute over the whole registry is
    specified by `Advance` and the predicate `EventsOfTick`.
- `Ledger` (`ledger.dfy`): the portfolio of `src/Portfolio/Portfolio.js`.
  - Order validation, execution and the position-list operations are functions on
    values. `ApplyOrder` is `createOrder` on an `Account` (cash and positions).
  - Lemmas prove what an order does:
    - the exact amounts it moves;
    - the ledger invariants it keeps (unique symbols, non-negative quantities, open
      positions);
    - from non-negative cash and at non-negative prices, cash never goes negative;
    - value is conserved at the current prices.
  - The class `Portfolio` is the mutable object. Its methods are proved against those
    functions.
- `Replay` (`replay.dfy`): the replay driver of `src/Websocket/Websocket.js`, as the
  class `Websocket`.
  - It covers the callback setters, `subscribeForBars`, `loadData` (given the fetched
    series), `runSimulation`, `connect`, and the channel-name prefix strip.
  - Callbacks are identifiers. The field `calls` records every callback invocation in
    order, so hook order and bar delivery are stated as equalities on that trace.
  - The replay's deliveries are specified minute by minute by `MinuteByMinute`. The
    deliveries split into one block per replayed minute, in turn. Block m holds exactly
    minute t0 + m's bars: each registered symbol's bar at that index if it has one, and
    nothing else (`MinuteDelivery`). So every payload of one minute precedes every payload
    of the next. The per-symbol view `ReplayDelivery` follows from it: the payloads about
    each registered symbol are exactly its bars for the replayed minutes, in series order.

Prices and cash are integers (cents). The return on investment is a `real`.

## Model

| member | source | states |
|---|---|---|
| Market.FreshSecurityReplay | src/Security/Security.js:5-9 | A new security keeps its symbol and series, is priced 0 until its first bar is revealed, then takes the close of the last revealed bar. Once at least K minutes have run, its K bars have been delivered in order. |
| Ledger.FindOrCreateKeepsQuantities | src/Portfolio/Portfolio.js:38-46 | Finding or creating a position changes no quantity held. The position yielded holds what was held of the symbol, so a newly created position has the default quantity 0. |
| Market.MarketData.constructor | src/MarketData/MarketData.js:12-16 | A new registry has no securities, time 0 and maxTime 0, and satisfies its invariant. |
| Market.MarketData.AddSecurity | src/MarketData/MarketData.js:24-28 | Registers or replaces only `symbol`'s entry, with price 0 and exactly the given series. maxTime becomes max(old maxTime, series length), so it never decreases. Time is untouched and the invariant is kept. |
| Market.MarketData.SimulateMinute | src/MarketData/MarketData.js:36-52 | Time advances by exactly 1 and maxTime is unchanged. Every security with a bar at the old time takes that bar's close; every other security is unchanged (`Advance`). The events are one per revealed symbol and none for any other, each with subject `AM.<symbol>` and payload = bar + `ev: "AM"` + symbol (`EventsOfTick`). |
| Market.EventsOfTickCount | src/MarketData/MarketData.js:37-48 | A minute returns exactly as many events as there are securities with a bar at that index. |
| Market.RevealRunPrice | src/MarketData/MarketData.js:37-39 | After any number of minutes a security keeps its symbol and series. Its price is the close of the last bar revealed, and stays frozen once the series is exhausted. |
| Market.DeliveriesAt | src/MarketData/MarketData.js:37-48 | Over a run of minutes, a series produces one payload per bar index in range, in series order, and nothing else. |
| Market.MarketData.HasData | src/MarketData/MarketData.js:59-61 | True exactly when time < maxTime. When false, every series is exhausted. |
| Market.MarketData.GetPrice | src/MarketData/MarketData.js:69-72 | The stored price of a registered symbol. None exactly when the symbol is not registered (where the source crashes on a missing entry; see Left out for inherited property names). |
| Ledger.Validate | src/Portfolio/Portfolio.js:60-68 | Accepts exactly when a non-empty symbol, a qty ≥ 1 and a side of "buy" or "sell" are given. Otherwise the first failing check, in source order, names the error. An accepted order carries the given symbol, qty and side. |
| Ledger.IndexOf | src/Portfolio/Portfolio.js:28-30 | The first index whose position has the symbol; None exactly when no position has it. |
| Ledger.FindOrCreate | src/Portfolio/Portfolio.js:38-46 | The returned index lies in the returned list and holds a position for the symbol. |
| Ledger.Portfolio.constructor | src/Portfolio/Portfolio.js:15-20 | A new portfolio has cash = startValue, no positions and the given market data, and satisfies its invariant. |
| Ledger.Portfolio.GetPosition | src/Portfolio/Portfolio.js:28-30 | Some exactly when a position has the symbol. The result is one of the positions, for that symbol, holding that symbol's quantity. |
| Ledger.Portfolio.FindOrCreatePosition | src/Portfolio/Portfolio.js:38-46 | Returns the existing position and leaves the list unchanged, or appends a quantity-0 position for the symbol and returns it. Cash is unchanged and symbols stay unique. |
| Ledger.Execute | src/Portfolio/Portfolio.js:72-94 | A validated order either executes or changes nothing. When it does not execute, the outcome is a warning. |
| Ledger.ExecutedWhen | src/Portfolio/Portfolio.js:72-94 | An order executes if and only if it is covered: for a sell, the quantity held is ≥ qty; for a buy, cash ≥ qty × price. |
| Ledger.ExecutedAmounts | src/Portfolio/Portfolio.js:72-94 | An executed order moves cash by exactly qty × price (in for a sell, out for a buy) and the symbol's quantity by exactly qty the other way. Every other symbol's quantity is unchanged. |
| Ledger.SoldAmounts | src/Portfolio/Portfolio.js:74-80 | An executed sell adds qty × price to cash and takes qty from the symbol's quantity, and from no other symbol's. |
| Ledger.BoughtAmounts | src/Portfolio/Portfolio.js:89-93 | An executed buy takes qty × price from cash and adds qty to the symbol's quantity, and to no other symbol's. |
| Ledger.ExecuteKeepsBooks | src/Portfolio/Portfolio.js:72-94 | Executing keeps position symbols unique and quantities non-negative. If every position was open (quantity ≥ 1), every position stays open. |
| Ledger.SellKeepsBooks | src/Portfolio/Portfolio.js:72-84 | The sell branch keeps the same three invariants. |
| Ledger.BuyKeepsBooks | src/Portfolio/Portfolio.js:86-93 | The buy branch keeps the same three invariants. |
| Ledger.ExecuteKeepsCash | src/Portfolio/Portfolio.js:72-94 | With cash ≥ 0 and a price ≥ 0, cash stays ≥ 0 after any order. |
| Ledger.ExecuteKeepsValue | src/Portfolio/Portfolio.js:72-94 | An order leaves cash + Σ quantity × price unchanged at the prices it was priced at, and every held symbol stays priced. |
| Ledger.SellKeepsValue | src/Portfolio/Portfolio.js:72-84 | A sell conserves the account's value. |
| Ledger.BuyKeepsValue | src/Portfolio/Portfolio.js:86-93 | A buy conserves the account's value. |
| Ledger.RemoveClosedMembers | src/Portfolio/Portfolio.js:78-80 | Removing closed positions keeps only positions of the original list, all with non-zero quantity. |
| Ledger.RemoveClosedKeeps | src/Portfolio/Portfolio.js:78-80 | Removing closed positions keeps every symbol's quantity and keeps symbols unique. |
| Ledger.RemoveOnlyClosed | src/Portfolio/Portfolio.js:78-80 | When only one position is closed, removal drops exactly that one and keeps the others in order. |
| Ledger.HeldIffPositive | src/Portfolio/Portfolio.js:72-80 | Among open positions, a symbol has a position exactly when its quantity held is ≥ 1. |
| Ledger.ShrinkQuantities | src/Portfolio/Portfolio.js:74-80 | Lowering one position by qty (and dropping closed positions if it reaches 0) takes qty from that symbol's quantity and leaves every other symbol's quantity unchanged. |
| Ledger.ShrinkClosesIffEmptied | src/Portfolio/Portfolio.js:74-80 | Lowering one position by qty leaves no position for its symbol exactly when qty was its whole quantity. |
| Ledger.SellClosesIffEmptied | src/Portfolio/Portfolio.js:74-80 | An executed sell removes the symbol's position exactly when the whole quantity held was sold, whether or not other closed positions were held. |
| Ledger.ApplyOrder | src/Portfolio/Portfolio.js:59-95 | The order executes or nothing changes. It fails exactly when validation fails or the symbol has no price. |
| Ledger.ApplyOrderKeepsBooks | src/Portfolio/Portfolio.js:59-95 | Any order keeps unique symbols, non-negative quantities and all-open positions. At non-negative prices, cash never goes negative. |
| Ledger.OrderExamples | src/Portfolio/Portfolio.js:59-95 | Worked cases, all starting from 100000 cash. Buying 10 at 50 leaves 99500 and a position of 10, worth 100100 in total at a price of 60. Selling 5 of an unheld symbol is declined and changes nothing. A quantity of 0 fails with the quantity error. |
| Ledger.Portfolio.CreateOrder | src/Portfolio/Portfolio.js:59-95 | The outcome, the new cash and the new positions are exactly `ApplyOrder` at the market's current prices. It keeps the portfolio invariant and all-open positions, and keeps cash ≥ 0 when cash and all prices were ≥ 0. |
| Ledger.Portfolio.SellShares | src/Portfolio/Portfolio.js:72-84 | The sell branch in place: the outcome and the new cash and positions are exactly `ExecuteSell`. |
| Ledger.Portfolio.BuyShares | src/Portfolio/Portfolio.js:86-93 | The buy branch in place: the outcome and the new cash and positions are exactly `ExecuteBuy`. |
| Ledger.Portfolio.GetValue | src/Portfolio/Portfolio.js:102-110 | cash + Σ price × quantity over the positions. None exactly when a held symbol is not registered (where the source crashes on a missing entry; see Left out for inherited property names). |
| Ledger.Portfolio.GetStats | src/Portfolio/Portfolio.js:117-126 | startValue, endValue = GetValue(), and a roi with (roi + 1) × startValue = endValue. None exactly when GetValue is None. |
| Replay.Websocket.constructor | src/Websocket/Websocket.js:17-22 | Stores the market data. No callback, no channels and no calls yet. |
| Replay.Websocket.OnConnect | src/Websocket/Websocket.js:29-31 | Sets the connect callback and no other field. |
| Replay.Websocket.OnDisconnect | src/Websocket/Websocket.js:38-40 | Sets the disconnect callback and no other field. |
| Replay.Websocket.OnError | src/Websocket/Websocket.js:47-49 | Sets the error callback and no other field. |
| Replay.Websocket.OnStockBar | src/Websocket/Websocket.js:57-59 | Sets the bar callback and no other field. |
| Replay.Websocket.SubscribeForBars | src/Websocket/Websocket.js:67-69 | Stores the channel list as given and no other field. |
| Replay.FirstOccurrence | src/Websocket/Websocket.js:124 | The first position at or after `from` where the pattern occurs; None exactly when it occurs nowhere from there. |
| Replay.StripChannelPrefix | src/Websocket/Websocket.js:124 | When the prefix `alpacadatav1/AM.` occurs in the channel, the result is 16 characters shorter, and putting the prefix back at its first occurrence restores the channel. Otherwise the result is the channel itself. |
| Replay.StripPrefixed | src/Websocket/Websocket.js:181 | `alpacadatav1/AM.` + symbol maps to the symbol. |
| Replay.StripUnprefixed | src/Websocket/Websocket.js:124 | A channel without the prefix is returned unchanged. |
| Replay.StripBareChannel | src/Websocket/Websocket.js:181 | The bare channel `AM.SPY` is not stripped. |
| Replay.Websocket.LoadData | src/Websocket/Websocket.js:241-247 | The securities become the old ones overridden by a fresh security for each fetched symbol. Time is unchanged. maxTime never decreases, covers every fetched series, and is either unchanged or the length of one of them. |
| Replay.TickForSymbol | src/Websocket/Websocket.js:259-262 | Within one minute, the payloads delivered about a registered symbol are its bar of that minute if it has one, and nothing otherwise. |
| Replay.MinuteOfReplay | src/Websocket/Websocket.js:259-262 | The payloads of minute t0 + n's events, read against the series the replay started from, are exactly that minute's block: each registered symbol's bar at index t0 + n if it has one, and nothing about any other symbol. |
| Replay.MinuteAppend | src/Websocket/Websocket.js:258-263 | Appending the next minute's block keeps a delivery minute by minute, with one block more. |
| Replay.ByMinuteStep | src/Websocket/Websocket.js:258-263 | One more simulated minute advances every series by one more minute and extends the minute-by-minute deliveries by one block: the payloads of that minute's events. |
| Replay.AdvanceStep | src/Websocket/Websocket.js:259 | Simulating minute t0 + n of a registry advanced n minutes leaves it advanced n + 1 minutes. |
| Replay.MinuteBlocks | src/Websocket/Websocket.js:258-263 | A delivery made minute by minute is its blocks one after the other, and block m is exactly minute t0 + m's bars. |
| Replay.MinuteByMinuteReplays | src/Websocket/Websocket.js:258-263 | A delivery made minute by minute over n minutes is a replay delivery of n minutes: per registered symbol, exactly its bars for those minutes in order, and nothing about other symbols. |
| Replay.DeliveryExtend | src/Websocket/Websocket.js:258-263 | A replay delivery of n minutes followed by minute t0 + n's block is a replay delivery of n + 1 minutes. |
| Replay.ByMinuteReplayed | src/Websocket/Websocket.js:258-263 | A replay made minute by minute (registry advanced, deliveries in blocks) is a replay of that many minutes. |
| Replay.FullReplay | src/Websocket/Websocket.js:253-264 | Replaying from minute 0 for at least a series' length delivers that series whole and in order, and leaves its price at its last close. |
| Replay.FreshLoadReplay | src/Websocket/Websocket.js:269-284 | After loading on a registry at minute 0 and replaying to the end, every loaded series was delivered whole and in order, and priced at its last close (0 if empty). |
| Replay.Websocket.RunSimulation | src/Websocket/Websocket.js:253-264 | Without a bar callback, nothing changes. Otherwise it runs until HasData is false, ending at time max(old time, maxTime), i.e. maxTime − time minutes when started below maxTime. Every security has advanced by exactly those minutes. The calls added are one bar call per delivered payload. The deliveries are made minute by minute: ghost blocks `minutes`, with one block per minute run (|minutes| = ticks), delivered one after the other; block m is exactly minute old time + m's bars (each registered symbol's bar at that index if any, nothing else). They are therefore also a replay delivery of those minutes. |
| Replay.Websocket.SimulateAndDeliver | src/Websocket/Websocket.js:259-262 | One loop pass: simulates the next minute and calls the bar callback once per event payload. The replay made minute by minute gains one block, `minute`, which is exactly what was delivered. |
| Replay.Websocket.SimulateReplayed | src/Websocket/Websocket.js:259 | One simulated minute extends the registry's minute-by-minute replay by one block: its events' payloads. |
| Replay.Websocket.Deliver | src/Websocket/Websocket.js:260-262 | Appends one bar call per event, with that event's payload, in the events' order. |
| Replay.Websocket.Connect | src/Websocket/Websocket.js:269-284 | The calls added are: the connect hook if set, then the replay's bar calls if a bar callback is set, then the disconnect hook if set, then the error hook if set. maxTime ends as in `LoadData`: it never decreases, covers every loaded series, and is either unchanged or the length of one of them. The securities are the loaded ones. When a bar callback is set, they are replayed to the end: `ticks` minutes, from the old time to max(old time, maxTime), ending with no data left, with the deliveries made minute by minute over the loaded registry (the same blocks as `RunSimulation`). From a registry at minute 0, every loaded series is delivered whole and in order. |

## Left out

- The data fetch (`getStockData`, `getStockDataTwelveData`, `getStockDataAlpaca`) is not part of this model. It is network I/O selected by an environment variable, with date formatting and number parsing. `LoadData` takes the fetched map from symbol to bar series as its input, so `channels` is stored by `SubscribeForBars` but never read. The prefix strip those functions apply is modelled on its own as `StripChannelPrefix`.
- The providers build bars with a `ClosePrice` field, but `simulateMinute` reads `closePrice`. Since the fetch is left out, the model takes bars whose close field is the one `simulateMinute` reads.
- The asynchronous sequencing of `connect` and `loadData` is modelled as plain sequencing.
- The `Websocket` constructor's provider client and start/end dates are used only by the fetch, so they are left out.
- Floating point: prices, cash and quantities are integers (prices in cents). Fractional quantities, which the source does not reject, are not modelled.
- The texts of the thrown errors and of the console warnings are not modelled. An outcome names which check failed: `Failed` with an `OrderError`, or `Warned` with a `Warning`. `UnknownSymbol` stands for the crash of the failed price lookup, which has no message of its own.
- What callbacks do is not modelled: a callback is an identifier, and its invocation is recorded in `calls`. In particular, orders a strategy places from inside the bar callback are not modelled.
- Aliasing: securities and positions are values stored in a map and a sequence, not shared objects. A caller holding a `Position` returned by `GetPosition` does not see later updates.
- Market.MarketData.SimulateMinute: the order of events within a minute is left unspecified. The source follows the registry's key order, and the model picks registered symbols in an arbitrary order. Likewise, within one minute's block, how the payloads of different symbols are ordered is left open. The order of the minutes themselves is fixed.
- Market.MarketData.GetPrice: where the source throws on an unregistered symbol, the model returns None. `CreateOrder` reports it as `Failed(UnknownSymbol)` and changes nothing; `GetValue` and `GetStats` return None.
- Market.MarketData.GetPrice: the registry is modelled as a true map from symbol to security. In the source it is a plain object (src/MarketData/MarketData.js:26, :70). A symbol that names an inherited property (`constructor`, `toString`, `__proto__`) finds that property rather than no entry. The lookup then yields an undefined price instead of throwing, and a buy at that price turns cash into NaN. Also, `addSecurity("__proto__")` replaces the object's prototype instead of adding an entry. None of this is modelled.
- Ledger.Portfolio.GetStats: requires startValue ≠ 0; the source would divide by zero.
- Market.MarketData.Valid: maxTime is the largest length of every series ever added, including series later replaced by shorter ones. So the invariant is that every series is at most maxTime long, not that maxTime equals the longest current series. A replay can therefore run minutes after every current series is exhausted; the code does this, and the model follows the code.
- The JavaScript classes `Security` and `Position` have no behaviour beyond their constructors. They are the records `Security`/`NewSecurity` and `Position`/`NewPosition`.
- `src/index.js` (wiring) and `src/Security.js` (an unused duplicate) are not part of this model.
