/**
 * The market data registry and simulated clock (src/MarketData/MarketData.js).
 *
 * The registry maps each symbol to its Security. Every simulated minute reveals
 * the bar at index `time` of each series long enough to have one: the security's
 * price becomes that bar's close and one event is produced for it. Series that
 * are already exhausted keep their price and produce nothing.
 */
module Market {
  import opened Wrappers
  import opened Securities

  /** The payload of a minute-aggregate event: the bar's fields plus `ev: 'AM'` and the symbol. */
  datatype BarPayload = BarPayload(bar: Bar, ev: string, symbol: string)

  /** One event of a simulated minute: its subject `AM.<symbol>` and its payload. */
  datatype Event = Event(subject: string, data: BarPayload)

  function Min(a: int, b: int): int
  {
    if a <= b then a else b
  }

  function Max(a: int, b: int): int
  {
    if a <= b then b else a
  }

  function PayloadOf(s: Security, t: nat): BarPayload
    requires t < |s.data|
  {
    BarPayload(s.data[t], "AM", s.symbol)
  }

  function EventOf(s: Security, t: nat): Event
    requires t < |s.data|
  {
    Event("AM." + s.symbol, PayloadOf(s, t))
  }

  // ---------------------------------------------------------------------------
  // One security across simulated minutes
  // ---------------------------------------------------------------------------

  /** What minute `t` does to one security. */
  function Reveal(s: Security, t: nat): Security
  {
    if t < |s.data| then s.(price := s.data[t].closePrice) else s
  }

  /** The security after the minutes t0, t0 + 1, ..., t0 + n - 1. */
  function RevealRun(s: Security, t0: nat, n: nat): Security
    decreases n
  {
    if n == 0 then s else Reveal(RevealRun(s, t0, n - 1), t0 + n - 1)
  }

  /** The payloads one security produces over the minutes t0, ..., t0 + n - 1, in order. */
  function Deliveries(s: Security, t0: nat, n: nat): seq<BarPayload>
    decreases n
  {
    if n == 0 then []
    else Deliveries(s, t0, n - 1) + (if t0 + n - 1 < |s.data| then [PayloadOf(s, t0 + n - 1)] else [])
  }

  /**
   * Replaying minutes keeps a security's symbol and series; its price is the close of
   * the last bar revealed, and stays frozen once the series is exhausted. When no bar
   * of the series falls in the replayed minutes the price is untouched.
   */
  lemma {:induction false} RevealRunPrice(s: Security, t0: nat, n: nat)
    ensures RevealRun(s, t0, n).symbol == s.symbol
    ensures RevealRun(s, t0, n).data == s.data
    ensures RevealRun(s, t0, n).price ==
      if n > 0 && t0 < |s.data| then s.data[Min(t0 + n, |s.data|) - 1].closePrice else s.price
  {
    if n > 0 {
      RevealRunPrice(s, t0, n - 1);
    }
  }

  /**
   * Over the minutes t0, ..., t0 + n - 1 a series produces exactly one payload per bar
   * whose index falls in that range, in the order of the series.
   */
  lemma {:induction false} DeliveriesAt(s: Security, t0: nat, n: nat)
    ensures |Deliveries(s, t0, n)| == if t0 < |s.data| then Min(t0 + n, |s.data|) - t0 else 0
    ensures forall j :: 0 <= j < |Deliveries(s, t0, n)| ==>
      t0 + j < |s.data| && Deliveries(s, t0, n)[j] == PayloadOf(s, t0 + j)
  {
    if n > 0 {
      DeliveriesAt(s, t0, n - 1);
    }
  }

  /**
   * A freshly registered series of K bars: its price is 0 until its first bar is revealed,
   * then the close of the last revealed bar, frozen at the K-th close afterwards; it keeps
   * the given symbol and series; and once at least K minutes have run it has produced
   * exactly its K bars as payloads, in order.
   */
  lemma FreshSecurityReplay(symbol: string, data: seq<Bar>, n: nat)
    ensures RevealRun(NewSecurity(symbol, data), 0, n).symbol == symbol
    ensures RevealRun(NewSecurity(symbol, data), 0, n).data == data
    ensures RevealRun(NewSecurity(symbol, data), 0, n).price ==
      if n == 0 || |data| == 0 then 0 else data[Min(n, |data|) - 1].closePrice
    ensures |Deliveries(NewSecurity(symbol, data), 0, n)| == Min(n, |data|)
    ensures n >= |data| ==> forall j :: 0 <= j < |data| ==>
      Deliveries(NewSecurity(symbol, data), 0, n)[j] == BarPayload(data[j], "AM", symbol)
  {
    RevealRunPrice(NewSecurity(symbol, data), 0, n);
    DeliveriesAt(NewSecurity(symbol, data), 0, n);
  }

  // ---------------------------------------------------------------------------
  // The whole registry across one simulated minute
  // ---------------------------------------------------------------------------

  /** The securities after minute `t`. */
  function Advance(secs: map<string, Security>, t: nat): map<string, Security>
  {
    map k | k in secs :: Reveal(secs[k], t)
  }

  /** The symbols that have a bar at minute `t`. */
  function Revealed(secs: map<string, Security>, t: nat): set<string>
  {
    set k | k in secs && t < |secs[k].data|
  }

  function Symbols(events: seq<Event>): set<string>
  {
    set i | 0 <= i < |events| :: events[i].data.symbol
  }

  predicate DistinctSymbols(events: seq<Event>)
  {
    forall i, j :: 0 <= i < j < |events| ==> events[i].data.symbol != events[j].data.symbol
  }

  lemma SymbolsAppend(events: seq<Event>, e: Event)
    ensures Symbols(events + [e]) == Symbols(events) + {e.data.symbol}
  {
    var all := events + [e];
    assert all[|events|] == e;
    forall x | x in Symbols(events)
      ensures x in Symbols(all)
    {
      var i :| 0 <= i < |events| && events[i].data.symbol == x;
      assert all[i] == events[i];
    }
  }

  /**
   * `events` is what minute `t` returns for `secs`: one event per symbol with a bar at
   * index `t`, none for any other symbol, in some order.
   */
  ghost predicate EventsOfTick(events: seq<Event>, secs: map<string, Security>, t: nat)
  {
    && DistinctSymbols(events)
    && Symbols(events) == Revealed(secs, t)
    && forall i :: 0 <= i < |events| ==>
         && events[i].data.symbol in secs
         && t < |secs[events[i].data.symbol].data|
         && events[i] == EventOf(secs[events[i].data.symbol], t)
  }

  /**
   * Part way through minute `t`, with the symbols in `todo` still to visit: `events` holds
   * one event for each visited symbol that has a bar at `t`, and nothing else.
   */
  ghost predicate EventsSoFar(events: seq<Event>, secs: map<string, Security>, t: nat, todo: set<string>)
  {
    && DistinctSymbols(events)
    && Symbols(events) == Revealed(secs, t) - todo
    && forall i :: 0 <= i < |events| ==>
         && events[i].data.symbol in secs
         && t < |secs[events[i].data.symbol].data|
         && events[i] == EventOf(secs[events[i].data.symbol], t)
  }

  /** Visiting one more symbol adds its event exactly when it has a bar at `t`. */
  lemma EventsStep(events: seq<Event>, secs: map<string, Security>, t: nat, todo: set<string>, symbol: string)
    requires EventsSoFar(events, secs, t, todo)
    requires symbol in todo && symbol in secs && secs[symbol].symbol == symbol
    ensures t < |secs[symbol].data| ==>
      EventsSoFar(events + [EventOf(secs[symbol], t)], secs, t, todo - {symbol})
    ensures t >= |secs[symbol].data| ==> EventsSoFar(events, secs, t, todo - {symbol})
  {
    if t < |secs[symbol].data| {
      SymbolsAppend(events, EventOf(secs[symbol], t));
    }
  }

  /** The returned events of one minute number exactly the symbols that have a bar then. */
  lemma EventsOfTickCount(events: seq<Event>, secs: map<string, Security>, t: nat)
    requires EventsOfTick(events, secs, t)
    ensures |events| == |Revealed(secs, t)|
  {
    DistinctCount(events);
  }

  lemma {:induction false} DistinctCount(events: seq<Event>)
    requires DistinctSymbols(events)
    ensures |Symbols(events)| == |events|
  {
    if events != [] {
      var last := |events| - 1;
      DistinctCount(events[..last]);
      assert Symbols(events) == Symbols(events[..last]) + {events[last].data.symbol};
      assert events[last].data.symbol !in Symbols(events[..last]);
    }
  }

  // ---------------------------------------------------------------------------
  // The registry object
  // ---------------------------------------------------------------------------

  class MarketData {
    var securities: map<string, Security>
    var time: nat
    var maxTime: nat

    /**
     * Each security is filed under its own symbol, and no series is longer than maxTime.
     * maxTime is the largest length of every series ever added, including ones later
     * overwritten, so it can exceed the longest series currently held.
     */
    ghost predicate Valid()
      reads this
    {
      forall k :: k in securities ==> securities[k].symbol == k && |securities[k].data| <= maxTime
    }

    constructor ()
      ensures Valid()
      ensures securities == map[] && time == 0 && maxTime == 0
    {
      securities := map[];
      time := 0;
      maxTime := 0;
    }

    /** Registers (or replaces) the series of `symbol`; maxTime never decreases. */
    method AddSecurity(symbol: string, data: seq<Bar>)
      requires Valid()
      modifies this
      ensures Valid()
      ensures securities == old(securities)[symbol := NewSecurity(symbol, data)]
      ensures maxTime == Max(old(maxTime), |data|)
      ensures time == old(time)
    {
      securities := securities[symbol := NewSecurity(symbol, data)];
      maxTime := Max(|data|, maxTime);
    }

    /**
     * Reveals minute `time`: every security with a bar at that index takes the bar's
     * close as its price and yields one event; the clock then advances by one.
     */
    method SimulateMinute() returns (events: seq<Event>)
      requires Valid()
      modifies this
      ensures Valid()
      ensures time == old(time) + 1 && maxTime == old(maxTime)
      ensures securities == Advance(old(securities), old(time))
      ensures EventsOfTick(events, old(securities), old(time))
    {
      ghost var secs, t := securities, time;
      var todo := securities.Keys;
      events := [];
      while todo != {}
        invariant todo <= securities.Keys == secs.Keys
        invariant time == t && maxTime == old(maxTime)
        invariant forall k :: k in securities ==>
          securities[k] == if k in todo then secs[k] else Reveal(secs[k], t)
        invariant EventsSoFar(events, secs, t, todo)
        decreases todo
      {
        var symbol :| symbol in todo;
        var security := securities[symbol];
        EventsStep(events, secs, t, todo, symbol);
        if time < |security.data| {
          events := events + [EventOf(security, time)];
          securities := securities[symbol := security.(price := security.data[time].closePrice)];
        }
        todo := todo - {symbol};
      }
      assert Revealed(secs, t) - {} == Revealed(secs, t);
      time := time + 1;
    }

    /** Whether the clock is still before the end of the longest series ever added. */
    function HasData(): (more: bool)
      requires Valid()
      reads this
      ensures more <==> time < maxTime
      ensures !more ==> forall k :: k in securities ==> |securities[k].data| <= time
    {
      time < maxTime
    }

    /** The current price of `symbol`; None where the source fails on an unregistered symbol. */
    function GetPrice(symbol: string): (price: Option<int>)
      reads this
      ensures price.Some? <==> symbol in securities
      ensures price.Some? ==> price.value == securities[symbol].price
    {
      if symbol in securities then Some(securities[symbol].price) else None
    }

    /** The current price of every registered symbol. */
    function Prices(): (prices: map<string, int>)
      reads this
      ensures prices.Keys == securities.Keys
      ensures forall k :: k in prices ==> GetPrice(k) == Some(prices[k])
    {
      map k | k in securities :: securities[k].price
    }
  }
}
