/**
 * The replay driver (src/Websocket/Websocket.js): a stand-in for a market-data socket.
 *
 * It stores the callbacks a strategy registers, loads already-fetched bar series into
 * the market data, and replays them minute by minute, handing every event's payload to
 * the bar callback. Callbacks are opaque to this model: each is an identifier, and the
 * field `calls` records, in order, every callback invocation the driver makes.
 */
module Replay {
  import opened Wrappers
  import opened Securities
  import opened Market

  /** The identity of a callback registered by the strategy. */
  type Callback = nat

  datatype Hook = ConnectHook | DisconnectHook | ErrorHook

  /** One invocation of a registered callback. */
  datatype Call = HookCall(hook: Hook, callback: Callback) | BarCall(callback: Callback, payload: BarPayload)

  /** The call a hook makes when it is set, none when it is not. */
  function Fired(hook: Hook, callback: Option<Callback>): seq<Call>
  {
    if callback.Some? then [HookCall(hook, callback.value)] else []
  }

  function BarCalls(callback: Callback, ps: seq<BarPayload>): seq<Call>
  {
    seq(|ps|, i requires 0 <= i < |ps| => BarCall(callback, ps[i]))
  }

  function Payloads(events: seq<Event>): seq<BarPayload>
  {
    seq(|events|, i requires 0 <= i < |events| => events[i].data)
  }

  // ---------------------------------------------------------------------------
  // Channel names
  // ---------------------------------------------------------------------------

  const ChannelPrefix: string := "alpacadatav1/AM."

  predicate OccursAt(s: string, pattern: string, i: nat)
  {
    i + |pattern| <= |s| && s[i..i + |pattern|] == pattern
  }

  /** The first index at or after `from` where `pattern` occurs in `s`. */
  function FirstOccurrence(s: string, pattern: string, from: nat): (r: Option<nat>)
    decreases |s| - from
    ensures r.Some? ==> from <= r.value && OccursAt(s, pattern, r.value)
    ensures r.Some? ==> forall j :: from <= j < r.value ==> !OccursAt(s, pattern, j)
    ensures r.None? <==> forall j :: from <= j ==> !OccursAt(s, pattern, j)
  {
    if from + |pattern| > |s| then None
    else if s[from..from + |pattern|] == pattern then assert OccursAt(s, pattern, from); Some(from)
    else FirstOccurrence(s, pattern, from + 1)
  }

  /**
   * The channel name with the provider prefix replaced by nothing: like a string replace
   * with a string pattern, this removes the first occurrence of the prefix, wherever it
   * stands, and nothing else.
   */
  function StripChannelPrefix(channel: string): (symbol: string)
    ensures |symbol| == if FirstOccurrence(channel, ChannelPrefix, 0).Some? then |channel| - |ChannelPrefix| else |channel|
    ensures FirstOccurrence(channel, ChannelPrefix, 0).None? ==> symbol == channel
    ensures FirstOccurrence(channel, ChannelPrefix, 0).Some? ==>
      var i := FirstOccurrence(channel, ChannelPrefix, 0).value;
      i <= |symbol| && channel == symbol[..i] + ChannelPrefix + symbol[i..]
  {
    match FirstOccurrence(channel, ChannelPrefix, 0)
    case None => channel
    case Some(i) =>
      var symbol := channel[..i] + channel[i + |ChannelPrefix|..];
      assert symbol[..i] == channel[..i] && symbol[i..] == channel[i + |ChannelPrefix|..];
      assert channel == channel[..i] + channel[i..i + |ChannelPrefix|] + channel[i + |ChannelPrefix|..];
      symbol
  }

  /** A channel named with the prefix maps to the bare symbol after it. */
  lemma StripPrefixed(symbol: string)
    ensures StripChannelPrefix(ChannelPrefix + symbol) == symbol
  {
    var channel := ChannelPrefix + symbol;
    assert OccursAt(channel, ChannelPrefix, 0);
    assert channel[|ChannelPrefix|..] == symbol;
  }

  /** A channel that does not contain the prefix, such as `AM.SPY`, is left as it is. */
  lemma StripUnprefixed(channel: string)
    requires forall j :: !OccursAt(channel, ChannelPrefix, j)
    ensures StripChannelPrefix(channel) == channel
  {
  }

  lemma StripBareChannel()
    ensures StripChannelPrefix("AM.SPY") == "AM.SPY"
  {
    StripUnprefixed("AM.SPY");
  }

  // ---------------------------------------------------------------------------
  // What a replay delivers
  // ---------------------------------------------------------------------------

  /** The payloads about `symbol`, in the order delivered. */
  function ForSymbol(ps: seq<BarPayload>, symbol: string): seq<BarPayload>
  {
    if |ps| == 0 then []
    else (if ps[0].symbol == symbol then [ps[0]] else []) + ForSymbol(ps[1..], symbol)
  }

  /**
   * `d` is what replaying `n` minutes from minute `t0` delivers for `secs`: for every
   * registered symbol, the payloads about it are its bars at indices t0 .. t0 + n - 1,
   * in series order; and nothing is delivered about an unregistered symbol. How the
   * payloads of different symbols interleave is left open.
   */
  ghost predicate ReplayDelivery(d: seq<BarPayload>, secs: map<string, Security>, t0: nat, n: nat)
  {
    && (forall k :: k in secs ==> ForSymbol(d, k) == Deliveries(secs[k], t0, n))
    && (forall i :: 0 <= i < |d| ==> d[i].symbol in secs)
  }

  /** The series registered by loading `channelData`. */
  function Registered(channelData: map<string, seq<Bar>>): map<string, Security>
  {
    map s | s in channelData :: NewSecurity(s, channelData[s])
  }

  lemma {:induction false} ForSymbolAppend(a: seq<BarPayload>, b: seq<BarPayload>, symbol: string)
    ensures ForSymbol(a + b, symbol) == ForSymbol(a, symbol) + ForSymbol(b, symbol)
  {
    if |a| > 0 {
      assert (a + b)[1..] == a[1..] + b;
      ForSymbolAppend(a[1..], b, symbol);
    } else {
      assert a + b == b;
    }
  }

  lemma {:induction false} ForSymbolNone(ps: seq<BarPayload>, symbol: string)
    requires forall i :: 0 <= i < |ps| ==> ps[i].symbol != symbol
    ensures ForSymbol(ps, symbol) == []
  {
    if |ps| > 0 {
      ForSymbolNone(ps[1..], symbol);
    }
  }

  lemma {:induction false} ForSymbolOne(ps: seq<BarPayload>, i: nat, symbol: string)
    requires i < |ps| && ps[i].symbol == symbol
    requires forall j :: 0 <= j < |ps| && j != i ==> ps[j].symbol != symbol
    ensures ForSymbol(ps, symbol) == [ps[i]]
  {
    if i == 0 {
      ForSymbolNone(ps[1..], symbol);
    } else {
      ForSymbolOne(ps[1..], i - 1, symbol);
    }
  }

  /**
   * Within one minute, the payloads about a registered symbol are its bar of that minute
   * when it has one, and nothing otherwise.
   */
  lemma TickForSymbol(events: seq<Event>, secs: map<string, Security>, t: nat, symbol: string)
    requires EventsOfTick(events, secs, t)
    requires symbol in secs
    ensures ForSymbol(Payloads(events), symbol) ==
      if t < |secs[symbol].data| then [PayloadOf(secs[symbol], t)] else []
  {
    var ps := Payloads(events);
    if t < |secs[symbol].data| {
      assert symbol in Revealed(secs, t);
      var i :| 0 <= i < |events| && events[i].data.symbol == symbol;
      ForSymbolOne(ps, i, symbol);
    } else {
      assert symbol !in Symbols(events);
      ForSymbolNone(ps, symbol);
    }
  }

  /** `current` is the registry `secs0` with every series advanced by `n` minutes from `t0`. */
  ghost predicate Advanced(secs0: map<string, Security>, t0: nat, n: nat, current: map<string, Security>)
  {
    && current.Keys == secs0.Keys
    && forall k :: k in secs0 ==> current[k] == RevealRun(secs0[k], t0, n)
  }

  /** Simulating minute t0 + n of an advanced registry advances it by one minute more. */
  lemma AdvanceStep(secs0: map<string, Security>, t0: nat, n: nat, current: map<string, Security>)
    requires Advanced(secs0, t0, n, current)
    ensures Advanced(secs0, t0, n + 1, Advance(current, t0 + n))
  {
  }

  /**
   * `current` and `d` are the registry and the deliveries after replaying `n` minutes from
   * `t0` on `secs0`: every series has advanced by those minutes, and `d` is a replay
   * delivery of them.
   */
  ghost predicate Replayed(secs0: map<string, Security>, t0: nat, n: nat, current: map<string, Security>, d: seq<BarPayload>)
  {
    Advanced(secs0, t0, n, current) && ReplayDelivery(d, secs0, t0, n)
  }

  /** The payload a series delivers at minute `t`: its bar at that index, if it has one. */
  function BarAt(s: Security, t: nat): seq<BarPayload>
  {
    if t < |s.data| then [PayloadOf(s, t)] else []
  }

  /**
   * `p` is what minute `t` delivers for `secs`: each registered symbol's bar at that
   * index, if it has one, and nothing about any other symbol.
   */
  ghost predicate MinuteDelivery(p: seq<BarPayload>, secs: map<string, Security>, t: nat)
  {
    && (forall k {:trigger ForSymbol(p, k)} :: k in secs ==> ForSymbol(p, k) == BarAt(secs[k], t))
    && (forall i :: 0 <= i < |p| ==> p[i].symbol in secs)
  }

  /** The blocks of payloads, one after the other. */
  function Concat(blocks: seq<seq<BarPayload>>): seq<BarPayload>
  {
    if blocks == [] then [] else Concat(blocks[..|blocks| - 1]) + blocks[|blocks| - 1]
  }

  /**
   * `d` was delivered minute by minute from `t0`, in the blocks `minutes`: it ends with the
   * last block, which is exactly what minute t0 + |minutes| - 1 delivers for `secs`, and
   * what comes before it was delivered minute by minute in the earlier blocks.
   */
  ghost predicate MinuteByMinute(d: seq<BarPayload>, minutes: seq<seq<BarPayload>>, secs: map<string, Security>, t0: nat)
    decreases |minutes|
  {
    if minutes == [] then d == []
    else
      var n := |minutes| - 1;
      && |minutes[n]| <= |d|
      && d[|d| - |minutes[n]|..] == minutes[n]
      && MinuteDelivery(minutes[n], secs, t0 + n)
      && MinuteByMinute(d[..|d| - |minutes[n]|], minutes[..n], secs, t0)
  }

  /**
   * A delivery made minute by minute is its blocks one after the other, and block m is
   * exactly what minute t0 + m delivers: every payload of a minute precedes every payload
   * of the next.
   */
  lemma {:induction false} MinuteBlocks(d: seq<BarPayload>, minutes: seq<seq<BarPayload>>,
                                        secs: map<string, Security>, t0: nat)
    requires MinuteByMinute(d, minutes, secs, t0)
    ensures d == Concat(minutes)
    ensures forall m :: 0 <= m < |minutes| ==> MinuteDelivery(minutes[m], secs, t0 + m)
    decreases |minutes|
  {
    if minutes != [] {
      var n := |minutes| - 1;
      var earlier := minutes[..n];
      var before := d[..|d| - |minutes[n]|];
      MinuteBlocks(before, earlier, secs, t0);
      assert d == before + minutes[n];
      forall m | 0 <= m < |minutes|
        ensures MinuteDelivery(minutes[m], secs, t0 + m)
      {
        if m < n {
          assert minutes[m] == earlier[m];
        }
      }
    }
  }

  /** A delivery made minute by minute is a replay delivery of that many minutes. */
  lemma {:induction false} MinuteByMinuteReplays(d: seq<BarPayload>, minutes: seq<seq<BarPayload>>,
                                                 secs: map<string, Security>, t0: nat)
    requires MinuteByMinute(d, minutes, secs, t0)
    ensures ReplayDelivery(d, secs, t0, |minutes|)
    decreases |minutes|
  {
    if minutes != [] {
      var n := |minutes| - 1;
      var before := d[..|d| - |minutes[n]|];
      MinuteByMinuteReplays(before, minutes[..n], secs, t0);
      assert d == before + minutes[n];
      DeliveryExtend(before, minutes[n], secs, t0, n);
    }
  }

  /** A replay delivery of n minutes followed by what minute t0 + n delivers is one of n + 1 minutes. */
  lemma DeliveryExtend(d: seq<BarPayload>, minute: seq<BarPayload>, secs: map<string, Security>, t0: nat, n: nat)
    requires ReplayDelivery(d, secs, t0, n)
    requires MinuteDelivery(minute, secs, t0 + n)
    ensures ReplayDelivery(d + minute, secs, t0, n + 1)
  {
    forall k | k in secs
      ensures ForSymbol(d + minute, k) == Deliveries(secs[k], t0, n + 1)
    {
      ForSymbolAppend(d, minute, k);
    }
    forall i | 0 <= i < |d + minute|
      ensures (d + minute)[i].symbol in secs
    {
      if i >= |d| {
        assert (d + minute)[i] == minute[i - |d|];
      }
    }
  }

  /** A replay of |minutes| minutes whose deliveries were made minute by minute, as `minutes`. */
  ghost predicate ReplayedByMinute(secs0: map<string, Security>, t0: nat, current: map<string, Security>,
                                   d: seq<BarPayload>, minutes: seq<seq<BarPayload>>)
  {
    Advanced(secs0, t0, |minutes|, current) && MinuteByMinute(d, minutes, secs0, t0)
  }

  /** A replay made minute by minute is a replay of that many minutes. */
  lemma ByMinuteReplayed(secs0: map<string, Security>, t0: nat, current: map<string, Security>,
                         d: seq<BarPayload>, minutes: seq<seq<BarPayload>>)
    requires ReplayedByMinute(secs0, t0, current, d, minutes)
    ensures Replayed(secs0, t0, |minutes|, current, d)
  {
    MinuteByMinuteReplays(d, minutes, secs0, t0);
  }

  /** One more simulated minute extends a replay made minute by minute by one block: its payloads. */
  lemma ByMinuteStep(secs0: map<string, Security>, t0: nat, current: map<string, Security>,
                     d: seq<BarPayload>, minutes: seq<seq<BarPayload>>, events: seq<Event>)
    requires ReplayedByMinute(secs0, t0, current, d, minutes)
    requires EventsOfTick(events, current, t0 + |minutes|)
    ensures ReplayedByMinute(secs0, t0, Advance(current, t0 + |minutes|), d + Payloads(events),
                             minutes + [Payloads(events)])
  {
    var minute := Payloads(events);
    MinuteOfReplay(secs0, t0, |minutes|, current, events);
    AdvanceStep(secs0, t0, |minutes|, current);
    MinuteAppend(d, minutes, secs0, t0, minute);
    assert |minutes + [minute]| == |minutes| + 1;
  }

  /** Appending the block of the next minute keeps a delivery minute by minute. */
  lemma MinuteAppend(d: seq<BarPayload>, minutes: seq<seq<BarPayload>>, secs: map<string, Security>, t0: nat,
                     minute: seq<BarPayload>)
    requires MinuteByMinute(d, minutes, secs, t0)
    requires MinuteDelivery(minute, secs, t0 + |minutes|)
    ensures MinuteByMinute(d + minute, minutes + [minute], secs, t0)
  {
    var all := minutes + [minute];
    assert all[|minutes|] == minute && all[..|minutes|] == minutes;
    assert (d + minute)[|d|..] == minute && (d + minute)[..|d|] == d;
  }

  /**
   * The events of minute t0 + n of a replay, read against the series it started from:
   * each registered symbol's bar at that index, if it has one, and nothing else.
   */
  lemma MinuteOfReplay(secs: map<string, Security>, t0: nat, n: nat, current: map<string, Security>,
                       events: seq<Event>)
    requires Advanced(secs, t0, n, current)
    requires EventsOfTick(events, current, t0 + n)
    ensures MinuteDelivery(Payloads(events), secs, t0 + n)
  {
    var p := Payloads(events);
    forall k | k in secs
      ensures ForSymbol(p, k) == BarAt(secs[k], t0 + n)
    {
      RevealRunPrice(secs[k], t0, n);
      TickForSymbol(events, current, t0 + n, k);
      if t0 + n < |secs[k].data| {
        assert PayloadOf(current[k], t0 + n) == PayloadOf(secs[k], t0 + n);
      }
    }
    forall i | 0 <= i < |p|
      ensures p[i].symbol in secs
    {
      assert p[i] == events[i].data;
    }
  }

  /**
   * Replaying every minute from minute 0 delivers each series whole: a series of K bars
   * yields exactly its K payloads, in order, and its price ends at its last close.
   */
  lemma FullReplay(d: seq<BarPayload>, secs: map<string, Security>, n: nat, symbol: string)
    requires ReplayDelivery(d, secs, 0, n)
    requires symbol in secs && |secs[symbol].data| <= n
    ensures |ForSymbol(d, symbol)| == |secs[symbol].data|
    ensures forall j :: 0 <= j < |secs[symbol].data| ==>
      ForSymbol(d, symbol)[j] == BarPayload(secs[symbol].data[j], "AM", secs[symbol].symbol)
    ensures RevealRun(secs[symbol], 0, n).price ==
      if |secs[symbol].data| == 0 then secs[symbol].price
      else secs[symbol].data[|secs[symbol].data| - 1].closePrice
  {
    var s := secs[symbol];
    DeliveriesAt(s, 0, n);
    RevealRunPrice(s, 0, n);
    assert Min(0 + n, |s.data|) == |s.data|;
    assert ForSymbol(d, symbol) == Deliveries(s, 0, n);
  }

  lemma RegisteredStep(base: map<string, Security>, channelData: map<string, seq<Bar>>, todo: set<string>, symbol: string)
    requires symbol in todo && symbol in channelData
    ensures (base + Registered(channelData - todo))[symbol := NewSecurity(symbol, channelData[symbol])]
      == base + Registered(channelData - (todo - {symbol}))
  {
  }

  lemma BarCallsAppend(callback: Callback, a: seq<BarPayload>, b: seq<BarPayload>)
    ensures BarCalls(callback, a + b) == BarCalls(callback, a) + BarCalls(callback, b)
  {
  }


  /**
   * Every series of `channelData` has been delivered whole: its payloads in `d` are its
   * bars, in order, and its security in `final` is priced at its last close (0 for an
   * empty series).
   */
  ghost predicate DeliveredWhole(d: seq<BarPayload>, channelData: map<string, seq<Bar>>, final: map<string, Security>)
  {
    forall s :: s in channelData ==>
      && |ForSymbol(d, s)| == |channelData[s]|
      && (forall j :: 0 <= j < |channelData[s]| ==> ForSymbol(d, s)[j] == BarPayload(channelData[s][j], "AM", s))
      && s in final
      && final[s].price == if |channelData[s]| == 0 then 0 else channelData[s][|channelData[s]| - 1].closePrice
  }

  /**
   * After loading `channelData` on a registry whose clock is at 0 and replaying at least
   * as many minutes as the longest series, each loaded series has been delivered whole,
   * in order, and its price is its last close (0 for an empty series).
   */
  lemma FreshLoadReplay(delivered: seq<BarPayload>, base: map<string, Security>, channelData: map<string, seq<Bar>>,
                        ticks: nat, final: map<string, Security>)
    requires Replayed(base + Registered(channelData), 0, ticks, final, delivered)
    requires forall s :: s in channelData ==> |channelData[s]| <= ticks
    ensures DeliveredWhole(delivered, channelData, final)
  {
    var loaded := base + Registered(channelData);
    forall s | s in channelData
      ensures |ForSymbol(delivered, s)| == |channelData[s]|
      ensures forall j :: 0 <= j < |channelData[s]| ==>
            ForSymbol(delivered, s)[j] == BarPayload(channelData[s][j], "AM", s)
      ensures final[s].price == if |channelData[s]| == 0 then 0 else channelData[s][|channelData[s]| - 1].closePrice
    {
      assert loaded[s] == NewSecurity(s, channelData[s]);
      FullReplay(delivered, loaded, ticks, s);
    }
  }

  // ---------------------------------------------------------------------------
  // The driver object
  // ---------------------------------------------------------------------------

  class Websocket {
    const marketData: MarketData
    var connectCallback: Option<Callback>
    var disconnectCallback: Option<Callback>
    var errorCallback: Option<Callback>
    var stockAggMinCallback: Option<Callback>
    var channels: Option<seq<string>>
    /** Every callback invocation so far, oldest first. */
    var calls: seq<Call>

    constructor (marketData: MarketData)
      ensures this.marketData == marketData
      ensures connectCallback == disconnectCallback == errorCallback == stockAggMinCallback == None
      ensures channels == None && calls == []
    {
      this.marketData := marketData;
      connectCallback, disconnectCallback, errorCallback, stockAggMinCallback := None, None, None, None;
      channels := None;
      calls := [];
    }

    method OnConnect(callback: Option<Callback>)
      modifies this`connectCallback
      ensures connectCallback == callback
    {
      connectCallback := callback;
    }

    method OnDisconnect(callback: Option<Callback>)
      modifies this`disconnectCallback
      ensures disconnectCallback == callback
    {
      disconnectCallback := callback;
    }

    method OnError(callback: Option<Callback>)
      modifies this`errorCallback
      ensures errorCallback == callback
    {
      errorCallback := callback;
    }

    method OnStockBar(callback: Option<Callback>)
      modifies this`stockAggMinCallback
      ensures stockAggMinCallback == callback
    {
      stockAggMinCallback := callback;
    }

    method SubscribeForBars(channels: seq<string>)
      modifies this`channels
      ensures this.channels == Some(channels)
    {
      this.channels := Some(channels);
    }

    /**
     * Registers every fetched series under its symbol, through AddSecurity, one symbol
     * at a time; the fetch itself is not part of this model.
     */
    method LoadData(channelData: map<string, seq<Bar>>)
      requires marketData.Valid()
      modifies marketData
      ensures marketData.Valid()
      ensures marketData.securities == old(marketData.securities) + Registered(channelData)
      ensures marketData.time == old(marketData.time)
      ensures old(marketData.maxTime) <= marketData.maxTime
      ensures forall s :: s in channelData ==> |channelData[s]| <= marketData.maxTime
      ensures marketData.maxTime == old(marketData.maxTime) ||
        exists s :: s in channelData && marketData.maxTime == |channelData[s]|
    {
      var todo := channelData.Keys;
      ghost var longest: Option<string> := None;
      while todo != {}
        invariant todo <= channelData.Keys
        invariant marketData.Valid()
        invariant marketData.securities ==
          old(marketData.securities) + Registered(channelData - todo)
        invariant marketData.time == old(marketData.time)
        invariant old(marketData.maxTime) <= marketData.maxTime
        invariant forall s :: s in channelData && s !in todo ==> |channelData[s]| <= marketData.maxTime
        invariant longest.None? ==> marketData.maxTime == old(marketData.maxTime)
        invariant longest.Some? ==>
          longest.value in channelData && marketData.maxTime == |channelData[longest.value]|
        decreases todo
      {
        var symbol :| symbol in todo;
        RegisteredStep(old(marketData.securities), channelData, todo, symbol);
        ghost var before := marketData.maxTime;
        marketData.AddSecurity(symbol, channelData[symbol]);
        if before < |channelData[symbol]| {
          longest := Some(symbol);
        }
        todo := todo - {symbol};
      }
      assert channelData - {} == channelData;
    }

    /**
     * Without a bar callback, does nothing. Otherwise simulates minutes while the market
     * data has any, handing each event's payload to the bar callback in the order the
     * minute returned them. It runs `ticks` minutes, maxTime - time of them when time
     * started below maxTime, and ends with no data left. The deliveries come in one block
     * per minute, `minutes`, each exactly that minute's bars.
     */
    method RunSimulation() returns (ghost ticks: nat, ghost delivered: seq<BarPayload>,
                                    ghost minutes: seq<seq<BarPayload>>)
      requires marketData.Valid()
      modifies this`calls, marketData
      ensures marketData.Valid()
      ensures stockAggMinCallback.None? ==> ticks == 0 && delivered == [] && minutes == [] && calls == old(calls)
      ensures stockAggMinCallback.None? ==> unchanged(marketData)
      ensures stockAggMinCallback.Some? ==> marketData.time == Max(old(marketData.time), marketData.maxTime)
      ensures stockAggMinCallback.Some? ==> marketData.time == old(marketData.time) + ticks
      ensures stockAggMinCallback.Some? ==> !marketData.HasData()
      ensures marketData.maxTime == old(marketData.maxTime)
      ensures stockAggMinCallback.Some? ==>
        Replayed(old(marketData.securities), old(marketData.time), ticks, marketData.securities, delivered)
      ensures stockAggMinCallback.Some? ==>
        |minutes| == ticks && MinuteByMinute(delivered, minutes, old(marketData.securities), old(marketData.time))
      ensures stockAggMinCallback.Some? ==> calls == old(calls) + BarCalls(stockAggMinCallback.value, delivered)
    {
      ticks, delivered, minutes := 0, [], [];
      if stockAggMinCallback.None? {
        return;
      }
      var callback := stockAggMinCallback.value;
      ghost var t0 := marketData.time;
      ghost var secs0 := marketData.securities;
      ghost var end := Max(t0, marketData.maxTime);
      while marketData.HasData()
        invariant stockAggMinCallback == Some(callback)
        invariant marketData.Valid()
        invariant marketData.maxTime == old(marketData.maxTime)
        invariant marketData.time == t0 + ticks
        invariant marketData.time <= end
        invariant |minutes| == ticks
        invariant ReplayedByMinute(secs0, t0, marketData.securities, delivered, minutes)
        invariant calls == old(calls) + BarCalls(callback, delivered)
        decreases end - marketData.time
      {
        ghost var minute := SimulateAndDeliver(callback, secs0, t0, delivered, minutes);
        BarCallsAppend(callback, delivered, minute);
        delivered, minutes := delivered + minute, minutes + [minute];
        ticks := ticks + 1;
      }
      ByMinuteReplayed(secs0, t0, marketData.securities, delivered, minutes);
    }

    /**
     * One pass of the replay loop: simulates the next minute and hands its payloads to
     * the bar callback. Given a replay of |minutes| minutes from `t0`, it yields a replay
     * of one minute more, whose last block `minute` is what it delivered.
     */
    method SimulateAndDeliver(callback: Callback, ghost secs0: map<string, Security>, ghost t0: nat,
                              ghost delivered: seq<BarPayload>, ghost minutes: seq<seq<BarPayload>>)
      returns (ghost minute: seq<BarPayload>)
      requires marketData.Valid()
      requires marketData.time == t0 + |minutes|
      requires ReplayedByMinute(secs0, t0, marketData.securities, delivered, minutes)
      modifies this`calls, marketData
      ensures marketData.Valid()
      ensures marketData.time == t0 + |minutes| + 1 && marketData.maxTime == old(marketData.maxTime)
      ensures ReplayedByMinute(secs0, t0, marketData.securities, delivered + minute, minutes + [minute])
      ensures calls == old(calls) + BarCalls(callback, minute)
    {
      var events := SimulateReplayed(secs0, t0, delivered, minutes);
      Deliver(callback, events);
      minute := Payloads(events);
    }

    /**
     * Simulates the next minute of a replay: given a replay of |minutes| minutes from `t0`,
     * it leaves a replay of one minute more, extended by the block of the minute's events.
     */
    method SimulateReplayed(ghost secs0: map<string, Security>, ghost t0: nat,
                            ghost delivered: seq<BarPayload>, ghost minutes: seq<seq<BarPayload>>)
      returns (events: seq<Event>)
      requires marketData.Valid()
      requires marketData.time == t0 + |minutes|
      requires ReplayedByMinute(secs0, t0, marketData.securities, delivered, minutes)
      modifies marketData
      ensures marketData.Valid()
      ensures marketData.time == t0 + |minutes| + 1 && marketData.maxTime == old(marketData.maxTime)
      ensures ReplayedByMinute(secs0, t0, marketData.securities, delivered + Payloads(events),
                               minutes + [Payloads(events)])
    {
      ghost var current := marketData.securities;
      events := marketData.SimulateMinute();
      assert marketData.securities == Advance(current, t0 + |minutes|);
      ByMinuteStep(secs0, t0, current, delivered, minutes, events);
    }

    /** Hands each event's payload to the bar callback, in the order given. */
    method Deliver(callback: Callback, events: seq<Event>)
      modifies this`calls
      ensures calls == old(calls) + BarCalls(callback, Payloads(events))
    {
      var i := 0;
      while i < |events|
        invariant 0 <= i <= |events|
        invariant calls == old(calls) + BarCalls(callback, Payloads(events)[..i])
      {
        assert Payloads(events)[..i + 1] == Payloads(events)[..i] + [events[i].data];
        BarCallsAppend(callback, Payloads(events)[..i], [events[i].data]);
        calls := calls + [BarCall(callback, events[i].data)];
        i := i + 1;
      }
      assert Payloads(events)[..i] == Payloads(events);
    }

    /**
     * Fires the connect hook, loads the fetched series, runs the simulation, then fires
     * the disconnect hook and the error hook, each hook only when it is set. With a bar
     * callback, the replay runs from the current minute to the end of the loaded data.
     */
    method Connect(channelData: map<string, seq<Bar>>)
      returns (ghost ticks: nat, ghost delivered: seq<BarPayload>, ghost minutes: seq<seq<BarPayload>>)
      requires marketData.Valid()
      modifies this`calls, marketData
      ensures marketData.Valid()
      ensures calls == old(calls)
        + Fired(ConnectHook, connectCallback)
        + (if stockAggMinCallback.Some? then BarCalls(stockAggMinCallback.value, delivered) else [])
        + Fired(DisconnectHook, disconnectCallback)
        + Fired(ErrorHook, errorCallback)
      ensures stockAggMinCallback.None? ==>
        && delivered == [] && minutes == []
        && marketData.securities == old(marketData.securities) + Registered(channelData)
        && marketData.time == old(marketData.time)
      ensures old(marketData.maxTime) <= marketData.maxTime
      ensures forall s :: s in channelData ==> |channelData[s]| <= marketData.maxTime
      ensures marketData.maxTime == old(marketData.maxTime) ||
        exists s :: s in channelData && marketData.maxTime == |channelData[s]|
      ensures stockAggMinCallback.Some? ==>
        && marketData.time == old(marketData.time) + ticks
        && marketData.time == Max(old(marketData.time), marketData.maxTime)
        && !marketData.HasData()
        && Replayed(old(marketData.securities) + Registered(channelData), old(marketData.time), ticks,
                    marketData.securities, delivered)
        && |minutes| == ticks
        && MinuteByMinute(delivered, minutes, old(marketData.securities) + Registered(channelData), old(marketData.time))
      ensures stockAggMinCallback.Some? && old(marketData.time) == 0 ==>
        DeliveredWhole(delivered, channelData, marketData.securities)
    {
      if connectCallback.Some? {
        calls := calls + [HookCall(ConnectHook, connectCallback.value)];
      }
      ghost var afterConnect := calls;
      assert afterConnect == old(calls) + Fired(ConnectHook, connectCallback);
      LoadData(channelData);
      assert connectCallback == old(connectCallback) && stockAggMinCallback == old(stockAggMinCallback);
      ghost var t0 := marketData.time;
      ticks, delivered, minutes := RunSimulation();
      assert connectCallback == old(connectCallback) && stockAggMinCallback == old(stockAggMinCallback);
      assert disconnectCallback == old(disconnectCallback) && errorCallback == old(errorCallback);
      ghost var replayed := if stockAggMinCallback.Some? then BarCalls(stockAggMinCallback.value, delivered) else [];
      assert calls == afterConnect + replayed;
      if stockAggMinCallback.Some? && t0 == 0 {
        FreshLoadReplay(delivered, old(marketData.securities), channelData, ticks, marketData.securities);
      }
      ghost var afterReplay := calls;
      if disconnectCallback.Some? {
        calls := calls + [HookCall(DisconnectHook, disconnectCallback.value)];
      }
      assert calls == afterReplay + Fired(DisconnectHook, disconnectCallback);
      if errorCallback.Some? {
        calls := calls + [HookCall(ErrorHook, errorCallback.value)];
      }
    }
  }
}
