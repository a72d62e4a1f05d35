/** The local mirror of the server's game (`GAME`), the viewer's side
    (`MY_SIDE`), the clock offset (`serverOffset`) and the selection, with the
    two ways the mirror changes: `applySnapshot`, and the push channel's
    message dispatch (`ws.onmessage`). */
module Snapshot {
  import opened Wrappers
  import opened Board
  import opened SelectionState

  datatype Status = Active | Finished

  /** The result payload of a finished game (shown to the user, otherwise opaque). */
  datatype Outcome = Outcome(reason: string, winner: string)

  /** One game snapshot as the server sends it. `serverTs` is `None` when the
      payload's `server_ts` is not a number; `you` is `None` when absent. */
  datatype Game = Game(
    gameId: string,
    status: Status,
    turn: Side,
    fen: string,
    coinsW: int,
    coinsB: int,
    clockW: int,
    clockB: int,
    globalEnd: int,
    serverTs: Option<int>,
    you: Option<Side>,
    inCheckStart: int,
    buyLocked: int,
    result: Option<Outcome>)

  /** The client's session state: `GAME`, `MY_SIDE`, `serverOffset` and the selection. */
  datatype Session = Session(game: Option<Game>, mySide: Option<Side>, offset: int, sel: Selection)

  const Start := Session(None, None, 0, NoSelection)

  /** `isMyTurn()`: a game is loaded, it is active, and the side to move is
      the viewer's; so it is never the turn of a viewer whose side is unknown. */
  predicate IsMyTurn(s: Session)
    ensures IsMyTurn(s) ==> s.mySide.Some? && s.game.Some? && s.game.value.status == Active
    ensures s.mySide.None? ==> !IsMyTurn(s)
  {
    s.game.Some? && s.game.value.status == Active && s.mySide == Some(s.game.value.turn)
  }

  /** `myCoins()`: no game means zero; otherwise White's coins when the viewer
      is White, and Black's in every other case, an unknown side included. */
  function MyCoins(s: Session): (c: int)
    ensures s.game.None? ==> c == 0
    ensures s.game.Some? && s.mySide == Some(White) ==> c == s.game.value.coinsW
    ensures s.game.Some? && s.mySide != Some(White) ==> c == s.game.value.coinsB
  {
    if s.game.None? then 0
    else if s.mySide == Some(White) then s.game.value.coinsW
    else s.game.value.coinsB
  }

  /** The resolve-check rule that forbids buying: `in_check_start === 1 && buy_locked === 1`. */
  predicate BuyLocked(g: Game)
  {
    g.inCheckStart == 1 && g.buyLocked == 1
  }

  /** `applySnapshot(newGame)` at client second `nowClient`. A missing
      snapshot changes nothing. Any other snapshot replaces the mirror, with
      no comparison of timestamps; a snapshot without `you` gets the known
      side; the side is taken from the snapshot only while it is unknown; the
      offset is resampled when the snapshot carries a timestamp; and the
      selection is cleared. */
  function ApplySnapshot(s: Session, incoming: Option<Game>, nowClient: int): (r: Session)
    ensures incoming.None? ==> r == s
    ensures incoming.Some? ==> r.game.Some? && r.game.value == incoming.value.(you := r.game.value.you)
    ensures incoming.Some? && incoming.value.you.Some? ==> r.game.value.you == incoming.value.you
    ensures incoming.Some? && incoming.value.you.None? ==> r.game.value.you == s.mySide
    ensures s.mySide.Some? ==> r.mySide == s.mySide
    ensures incoming.Some? && s.mySide.None? ==> r.mySide == incoming.value.you
    ensures incoming.Some? ==> r.mySide == r.game.value.you || (r.mySide.Some? && r.mySide == s.mySide)
    ensures incoming.Some? && incoming.value.serverTs.Some? ==> r.offset + nowClient == incoming.value.serverTs.value
    ensures incoming.Some? && incoming.value.serverTs.None? ==> r.offset == s.offset
    ensures incoming.Some? ==> r.sel == NoSelection
  {
    match incoming
    case None => s
    case Some(g) =>
      var g' := if g.you.None? && s.mySide.Some? then g.(you := s.mySide) else g;
      var side := if s.mySide.None? && g'.you.Some? then g'.you else s.mySide;
      var offset := if g'.serverTs.Some? then g'.serverTs.value - nowClient else s.offset;
      Session(Some(g'), side, offset, ClearAll(s.sel))
  }

  /** Applying the same snapshot twice in the same second is the same as once. */
  lemma ApplyIdempotent(s: Session, g: Game, nowClient: int)
    ensures ApplySnapshot(ApplySnapshot(s, Some(g), nowClient), Some(g), nowClient) == ApplySnapshot(s, Some(g), nowClient)
  {
  }

  /** The mirror follows the code, not a newest-wins rule: a snapshot older
      than the current one still replaces it (a poll answer stamped 900
      arriving after a push stamped 950 wins). */
  lemma StaleSnapshotReplaces(s: Session, g: Game, nowClient: int)
    requires s.game.Some? && s.game.value.serverTs == Some(950)
    requires g.serverTs == Some(900)
    ensures ApplySnapshot(s, Some(g), nowClient).game.value.serverTs == Some(900)
    ensures ApplySnapshot(s, Some(g), nowClient).offset == 900 - nowClient
  {
  }

  /** A decoded push message. `Garbled` stands for a frame that is not valid
      JSON (or not an object), `Other` for a JSON object of an unknown type. */
  datatype Message =
    | Pong
    | Garbled
    | StateMsg(game: Option<Game>)
    | FinishedMsg(outcome: Option<Outcome>)
    | Other

  /** `ws.onmessage`: "pong", unparseable and unknown messages are ignored; a
      state message is applied when it carries data; a finished message marks
      the current game finished and records its result, touching nothing else. */
  function OnMessage(s: Session, msg: Message, nowClient: int): (r: Session)
    ensures msg.Pong? || msg.Garbled? || msg.Other? ==> r == s
    ensures msg.StateMsg? ==> r == ApplySnapshot(s, msg.game, nowClient)
    ensures msg.FinishedMsg? && s.game.None? ==> r == s
    ensures msg.FinishedMsg? ==> r.mySide == s.mySide && r.offset == s.offset && r.sel == s.sel
    ensures msg.FinishedMsg? && s.game.Some? ==>
              && r.game.Some? && r.game.value.status == Finished && r.game.value.result == msg.outcome
              && r.game.value.(status := s.game.value.status, result := s.game.value.result) == s.game.value
  {
    match msg
    case StateMsg(data) => ApplySnapshot(s, data, nowClient)
    case FinishedMsg(data) =>
      if s.game.Some? then s.(game := Some(s.game.value.(status := Finished, result := data))) else s
    case _ => s
  }
}
