/** The push channel and its fallback: the WebSocket (`ws`), its keepalive
    timer (`wsPingTimer`), the poll timer (`pollTimer`), the reconnect delay
    (`wsBackoffMs`) and a pending reconnect timer, with `closeWS`,
    `stopPolling`, `startPolling`, `connectWS` and the socket's `onopen` and
    `onclose` handlers as steps. */
module Channel {
  import opened Wrappers

  /** A live socket: still connecting, or open. */
  datatype Socket = Connecting | Open

  /** `reconnect` is the delay of a pending `setTimeout(connectWS, …)`. */
  datatype Transport = Transport(
    gameId: string,
    socket: Option<Socket>,
    ping: bool,
    polling: bool,
    backoff: int,
    reconnect: Option<int>)

  /** The state before `init` runs: no game id, nothing running, delay 500. */
  const Initial := Transport("", None, false, false, 500, None)

  /** The delay after which the client stops reconnecting and polls instead. */
  const PollThreshold := 4000

  /** The growth of the reconnect delay on a close, `min(8000, floor(b * 1.6))`
      in integer arithmetic: it grows by at least half of its first step from
      500 on, and never passes 8000. */
  function Grow(b: int): (r: int)
    ensures r <= 8000
    ensures 500 <= b < 5000 ==> b + b / 2 <= r
    ensures b >= 0 ==> r >= 0
  {
    if b * 8 / 5 < 8000 then b * 8 / 5 else 8000
  }

  /** The integer growth agrees with the source's `Math.floor(b * 1.6)`, read
      over exact rationals, for every non-negative delay. */
  lemma GrowIsFloorOfTimesOnePointSix(b: int)
    requires b >= 0
    ensures Grow(b) == if (b as real * 1.6).Floor < 8000 then (b as real * 1.6).Floor else 8000
  {
    var k := b * 8 / 5;
    assert k * 5 <= b * 8 < k * 5 + 5;
    assert k as real <= b as real * 1.6 < k as real + 1.0;
  }

  /** `closeWS()`: the socket and its keepalive are gone; nothing else changes. */
  function CloseWS(t: Transport): (r: Transport)
    ensures r.socket.None? && !r.ping
    ensures r.polling == t.polling && r.backoff == t.backoff && r.reconnect == t.reconnect && r.gameId == t.gameId
  {
    t.(socket := None, ping := false)
  }

  /** `stopPolling()`: the poll timer is gone; nothing else changes. */
  function StopPolling(t: Transport): (r: Transport)
    ensures !r.polling && r == t.(polling := false)
  {
    t.(polling := false)
  }

  /** `startPolling()`: the poll timer runs afterwards; a running one is kept,
      so starting twice is starting once. */
  function StartPolling(t: Transport): (r: Transport)
    ensures r.polling && r == t.(polling := true)
    ensures t.polling ==> r == t
  {
    if t.polling then t else t.(polling := true)
  }

  /** `connectWS()`. Without a game id nothing happens. Otherwise the old
      socket and the poll timer are stopped first; then a new socket is
      connecting, or, when `constructed` is false (the `WebSocket`
      constructor threw), polling starts at once. */
  function ConnectWS(t: Transport, constructed: bool): (r: Transport)
    ensures t.gameId == "" ==> r == t
    ensures t.gameId != "" && constructed ==> r.socket == Some(Connecting) && !r.polling && !r.ping
    ensures t.gameId != "" && !constructed ==> r.socket.None? && r.polling && !r.ping
    ensures r.gameId == t.gameId && r.backoff == t.backoff && r.reconnect == t.reconnect
  {
    if t.gameId == "" then t
    else
      var stopped := StopPolling(CloseWS(t));
      if constructed then stopped.(socket := Some(Connecting)) else StartPolling(stopped)
  }

  /** `ws.onopen`: the delay is reset to 500 and the keepalive starts. */
  function OnOpen(t: Transport): (r: Transport)
    ensures t.socket == Some(Connecting) ==> r.socket == Some(Open) && r.backoff == 500 && r.ping
    ensures t.socket == Some(Connecting) ==> r.polling == t.polling && r.reconnect == t.reconnect && r.gameId == t.gameId
    ensures t.socket != Some(Connecting) ==> r == t
  {
    if t.socket == Some(Connecting) then t.(socket := Some(Open), backoff := 500, ping := true) else t
  }

  /** `ws.onclose` for the live socket: the socket is closed, the delay grows;
      from 4000 on polling starts and no reconnect is scheduled, below it a
      reconnect is scheduled after the new delay. Without a live socket there
      is no handler to run. */
  function OnClose(t: Transport): (r: Transport)
    ensures t.socket.None? ==> r == t
    ensures t.socket.Some? ==> r.socket.None? && !r.ping && r.backoff == Grow(t.backoff) && r.gameId == t.gameId
    ensures t.socket.Some? && Grow(t.backoff) >= PollThreshold ==> r.polling && r.reconnect == t.reconnect
    ensures t.socket.Some? && Grow(t.backoff) < PollThreshold ==> r.polling == t.polling && r.reconnect == Some(Grow(t.backoff))
  {
    if t.socket.None? then t
    else
      var closed := CloseWS(t).(backoff := Grow(t.backoff));
      if closed.backoff >= PollThreshold then StartPolling(closed) else closed.(reconnect := Some(closed.backoff))
  }

  /** The pending reconnect timer fires and calls `connectWS`. */
  function ReconnectFired(t: Transport, constructed: bool): (r: Transport)
    ensures t.reconnect.None? ==> r == t
    ensures t.reconnect.Some? ==> r.reconnect.None? && r == ConnectWS(t.(reconnect := None), constructed)
  {
    if t.reconnect.None? then t else ConnectWS(t.(reconnect := None), constructed)
  }

  /** What can happen to the channel: the socket opens, the socket closes, or
      the reconnect timer fires (with whether the constructor succeeds). */
  datatype Signal = Opened | Closed | Reconnect(constructed: bool)

  function Step(t: Transport, sig: Signal): Transport
  {
    match sig
    case Opened => OnOpen(t)
    case Closed => OnClose(t)
    case Reconnect(constructed) => ReconnectFired(t, constructed)
  }

  /** The delays a client can hold: 500 and the values reached from it by
      closes that still reconnect, plus the one that switches to polling. */
  const Delays: set<int> := {500, 800, 1280, 2048, 3276, 5241}

  /** The channel invariant. The delay is one of `Delays`. The socket and the
      poll timer never run together. The keepalive runs only on an open
      socket. A pending reconnect means nothing else runs and its delay is the
      current one, below the threshold. A live socket means the threshold has
      not been reached, and reaching it means polling. With a game id,
      something is always running or scheduled. */
  predicate Inv(t: Transport)
  {
    && t.backoff in Delays
    && !(t.socket.Some? && t.polling)
    && (t.ping ==> t.socket == Some(Open))
    && (t.reconnect.Some? ==> t.socket.None? && !t.polling && t.reconnect.value == t.backoff)
    && (t.socket.Some? || t.reconnect.Some? ==> t.backoff < PollThreshold)
    && (t.backoff >= PollThreshold ==> t.polling)
    && (t.gameId != "" ==> t.socket.Some? || t.polling || t.reconnect.Some?)
  }

  /** Each close that still reconnects moves the delay to the next element of `Delays`. */
  lemma GrowWithinDelays(b: int)
    requires b in Delays && b < PollThreshold
    ensures Grow(b) in Delays
    ensures Grow(b) < PollThreshold <==> b <= 2048
  {
  }

  /** Every signal keeps the invariant. */
  lemma StepKeepsInv(t: Transport, sig: Signal)
    requires Inv(t)
    ensures Inv(Step(t, sig))
  {
    if sig.Closed? && t.socket.Some? {
      GrowWithinDelays(t.backoff);
    }
  }

  /** The signals in order. */
  function Run(t: Transport, sigs: seq<Signal>): Transport
    decreases |sigs|
  {
    if |sigs| == 0 then t else Run(Step(t, sigs[0]), sigs[1..])
  }

  /** Any sequence of signals keeps the invariant. */
  lemma {:induction false} RunKeepsInv(t: Transport, sigs: seq<Signal>)
    requires Inv(t)
    ensures Inv(Run(t, sigs))
    decreases |sigs|
  {
    if |sigs| > 0 {
      StepKeepsInv(t, sigs[0]);
      RunKeepsInv(Step(t, sigs[0]), sigs[1..]);
    }
  }

  /** Polling is for good: once the poll timer runs, no signal changes anything. */
  lemma {:induction false} PollingIsFinal(t: Transport, sigs: seq<Signal>)
    requires Inv(t) && t.polling
    ensures Run(t, sigs) == t
    decreases |sigs|
  {
    if |sigs| > 0 {
      assert Step(t, sigs[0]) == t;
      PollingIsFinal(t, sigs[1..]);
    }
  }

  /** A connecting socket that fails five times in a row, each reconnect
      constructing a new socket that never opens: the delay runs through
      800, 1280, 2048 and 3276 with a reconnect after each, and the fifth
      close, at 5241, switches to polling with nothing scheduled. */
  lemma FifthCloseSwitchesToPolling(gameId: string)
    requires gameId != ""
    ensures var t0 := Transport(gameId, Some(Connecting), false, false, 500, None);
      && OnClose(t0).reconnect == Some(800)
      && Run(t0, [Closed, Reconnect(true)]).backoff == 800
      && Run(t0, [Closed, Reconnect(true), Closed]).reconnect == Some(1280)
      && Run(t0, [Closed, Reconnect(true), Closed, Reconnect(true), Closed]).reconnect == Some(2048)
      && Run(t0, [Closed, Reconnect(true), Closed, Reconnect(true), Closed, Reconnect(true), Closed]).reconnect == Some(3276)
      && Run(t0, [Closed, Reconnect(true), Closed, Reconnect(true), Closed, Reconnect(true), Closed, Reconnect(true), Closed])
           == Transport(gameId, None, false, true, 5241, None)
  {
  }

  /** An open after any number of failures resets the delay, so the count of
      closes before polling starts over. */
  lemma OpenResetsDelay(t: Transport)
    requires Inv(t) && t.socket == Some(Connecting)
    ensures Step(t, Opened).backoff == 500 && Inv(Step(t, Opened))
    ensures OnClose(Step(t, Opened)).reconnect == Some(800)
  {
  }
}
