/** The whole client: the session of the game mirror and selection, and the
    transport, driven by clicks, push messages, poll answers and socket
    signals, each handled as one atomic step. */
module Client {
  import opened Wrappers
  import opened Board
  import opened SelectionState
  import opened Snapshot
  import opened Interaction
  import opened Channel

  datatype ClientState = ClientState(session: Session, transport: Transport)

  /** One handled event, with the client second at which it is handled. */
  datatype Event =
    | SquareClicked(sq: Square, mutation: Answer<Option<Game>>, targets: Answer<seq<Square>>, now: int)
    | ShopClicked(piece: string, targets: Answer<seq<Square>>)
    | Pushed(msg: Message, now: int)
    | PollFired(answer: Answer<Option<Game>>, now: int)
    | Net(sig: Signal)

  /** The two invariants together: the selection invariant and the channel invariant. */
  predicate Inv(c: ClientState)
  {
    ValidSession(c.session) && Channel.Inv(c.transport)
  }

  /** The tail of `init()` once the game lookup has answered at client second
      `now`. Without a usable answer or without a game nothing is set up. A
      game is applied. The redraw that ends the application parses the
      placement field, and when that throws `init` stops with the mirror
      updated and no game id. A game without an id stops there too. Otherwise
      its id is kept; a viewer of unknown side polls, any other connects the
      socket (`constructed` tells whether the constructor succeeds). */
  function Init(answer: Answer<Option<Game>>, now: int, constructed: bool): (c: ClientState)
    ensures Inv(c)
    ensures !(answer.Ok? && answer.value.Some?) ==> c == ClientState(Start, Initial)
    ensures answer.Ok? && answer.value.Some? ==> c.session == ApplySnapshot(Start, answer.value, now)
    ensures answer.Ok? && answer.value.Some? && FenToMap(answer.value.value.fen).None? ==> c.transport == Initial
    ensures answer.Ok? && answer.value.Some? && FenToMap(answer.value.value.fen).Some? ==>
              c.transport.gameId == answer.value.value.gameId
    ensures c.transport.gameId != "" && c.session.mySide.None? ==> c.transport.polling && c.transport.socket.None?
    ensures c.transport.gameId != "" && c.session.mySide.Some? && constructed ==>
              c.transport.socket == Some(Connecting) && !c.transport.polling
  {
    match answer
    case Ok(Some(g)) =>
      var session := ApplySnapshot(Start, Some(g), now);
      if FenToMap(g.fen).None? || g.gameId == "" then ClientState(session, Initial)
      else
        var t := Initial.(gameId := g.gameId);
        if session.mySide.None? then ClientState(session, StartPolling(t))
        else ClientState(session, ConnectWS(t, constructed))
    case _ => ClientState(Start, Initial)
  }

  /** One event. Clicks go to their handlers. A push message is handled only
      while the socket is open. A poll answer is handled only while the poll
      timer runs and a game id is known, and applies the snapshot of an `ok`
      answer that carries one. Socket signals go to the transport. */
  function Step(c: ClientState, e: Event): (r: ClientState)
    ensures !e.Net? ==> r.transport == c.transport
    ensures e.Net? ==> r.session == c.session && r.transport == Channel.Step(c.transport, e.sig)
    ensures e.Pushed? && c.transport.socket != Some(Open) ==> r == c
    ensures e.PollFired? && !(c.transport.polling && c.transport.gameId != "") ==> r == c
    ensures e.PollFired? && c.transport.polling && c.transport.gameId != "" && e.answer.Ok? ==>
              r.session == ApplySnapshot(c.session, e.answer.value, e.now)
  {
    match e
    case SquareClicked(sq, mutation, targets, now) =>
      c.(session := SquareClick(c.session, sq, mutation, targets, now))
    case ShopClicked(piece, targets) =>
      c.(session := ShopClick(c.session, piece, targets))
    case Pushed(msg, now) =>
      if c.transport.socket == Some(Open) then c.(session := OnMessage(c.session, msg, now)) else c
    case PollFired(answer, now) =>
      if c.transport.polling && c.transport.gameId != "" && answer.Ok? then
        c.(session := ApplySnapshot(c.session, answer.value, now))
      else c
    case Net(sig) => c.(transport := Channel.Step(c.transport, sig))
  }

  /** Every event keeps both invariants. */
  lemma StepKeepsInv(c: ClientState, e: Event)
    requires Inv(c)
    ensures Inv(Step(c, e))
  {
    match e
    case SquareClicked(sq, mutation, targets, now) =>
      SquareClickKeepsValid(c.session, sq, mutation, targets, now);
    case Net(sig) =>
      Channel.StepKeepsInv(c.transport, sig);
    case _ =>
  }

  /** The events in order. */
  function Run(c: ClientState, events: seq<Event>): ClientState
    decreases |events|
  {
    if |events| == 0 then c else Run(Step(c, events[0]), events[1..])
  }

  /** Any run keeps both invariants; in particular the socket and the poll
      timer never run together, and the reconnect delay stays between 500
      and 5241. */
  lemma {:induction false} RunKeepsInv(c: ClientState, events: seq<Event>)
    requires Inv(c)
    ensures Inv(Run(c, events))
    ensures !(Run(c, events).transport.socket.Some? && Run(c, events).transport.polling)
    ensures 500 <= Run(c, events).transport.backoff <= 5241
    decreases |events|
  {
    if |events| > 0 {
      StepKeepsInv(c, events[0]);
      RunKeepsInv(Step(c, events[0]), events[1..]);
    }
  }

  /** Once the viewer's side is known it never changes, whatever arrives. */
  lemma {:induction false} SideStaysFixed(c: ClientState, events: seq<Event>)
    requires c.session.mySide.Some?
    ensures Run(c, events).session.mySide == c.session.mySide
    decreases |events|
  {
    if |events| > 0 {
      SideStaysFixed(Step(c, events[0]), events[1..]);
    }
  }

  /** The game id the transport was set up with never changes. */
  lemma {:induction false} GameIdStaysFixed(c: ClientState, events: seq<Event>)
    ensures Run(c, events).transport.gameId == c.transport.gameId
    decreases |events|
  {
    if |events| > 0 {
      GameIdStaysFixed(Step(c, events[0]), events[1..]);
    }
  }
}
