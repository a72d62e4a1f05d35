/** The clock projection `tickTimers`: the last snapshot, the clock offset
    and the local time give three countdowns, shown as `MM:SS` texts. */
module Timers {
  import opened Wrappers
  import opened Board
  import opened Snapshot
  import opened Format

  /** Seconds left on the game deadline and on each side's clock. */
  datatype Clocks = Clocks(global: int, white: int, black: int)

  /** The three texts `tickTimers` writes. */
  datatype Display = Display(global: string, white: string, black: string)

  /** The estimate of the server's clock: the local second plus the offset. */
  function NowServer(offset: int, nowClient: int): int
  {
    nowClient + offset
  }

  /** Seconds since the snapshot was stamped, in server time; a snapshot
      without a stamp counts as stamped now, and a stamp in the future
      counts as no time at all. */
  function Elapsed(g: Game, nowServer: int): (e: int)
    ensures e >= 0
    ensures g.serverTs.None? ==> e == 0
    ensures g.serverTs.Some? ==> e >= nowServer - g.serverTs.value
    ensures g.serverTs.Some? && e > 0 ==> e == nowServer - g.serverTs.value
  {
    var snapTs := if g.serverTs.Some? then g.serverTs.value else nowServer;
    if nowServer - snapTs < 0 then 0 else nowServer - snapTs
  }

  /** Whether the clock of `side` runs: only the side to move, and only in an active game. */
  predicate Runs(g: Game, side: Side)
  {
    g.status == Active && g.turn == side
  }

  /** The countdowns `tickTimers` computes before formatting them. The global
      countdown is the deadline minus the server's now, floored at zero. A
      running clock loses the time elapsed since the snapshot, floored at zero;
      a clock that does not run is shown as the snapshot has it. */
  function Countdown(g: Game, offset: int, nowClient: int): (c: Clocks)
    ensures c.global >= 0 && c.global >= g.globalEnd - (nowClient + offset)
    ensures c.global > 0 ==> c.global == g.globalEnd - (nowClient + offset)
    ensures !Runs(g, White) ==> c.white == g.clockW
    ensures !Runs(g, Black) ==> c.black == g.clockB
    ensures Runs(g, White) ==> c.white >= 0 && c.white >= g.clockW - Elapsed(g, nowClient + offset)
    ensures Runs(g, White) && c.white > 0 ==> c.white == g.clockW - Elapsed(g, nowClient + offset)
    ensures Runs(g, Black) ==> c.black >= 0 && c.black >= g.clockB - Elapsed(g, nowClient + offset)
    ensures Runs(g, Black) && c.black > 0 ==> c.black == g.clockB - Elapsed(g, nowClient + offset)
  {
    var nowServer := NowServer(offset, nowClient);
    var globalRem := if g.globalEnd - nowServer < 0 then 0 else g.globalEnd - nowServer;
    var elapsed := Elapsed(g, nowServer);
    var w := if Runs(g, White) then (if g.clockW - elapsed < 0 then 0 else g.clockW - elapsed) else g.clockW;
    var b := if Runs(g, Black) then (if g.clockB - elapsed < 0 then 0 else g.clockB - elapsed) else g.clockB;
    Clocks(globalRem, w, b)
  }

  /** The placeholder shown before any game is loaded. */
  const Blank := "--:--"

  /** `tickTimers()` at client second `nowClient`: the placeholder three
      times without a game, otherwise the three countdowns formatted; each
      text reads back as its countdown floored at zero. */
  function TickTimers(game: Option<Game>, offset: int, nowClient: int): (d: Display)
    ensures game.None? ==> d == Display(Blank, Blank, Blank)
    ensures game.Some? ==>
              var c := Countdown(game.value, offset, nowClient);
              && ParseClock(d.global) == Some(c.global)
              && ParseClock(d.white) == Some(if c.white < 0 then 0 else c.white)
              && ParseClock(d.black) == Some(if c.black < 0 then 0 else c.black)
  {
    match game
    case None => Display(Blank, Blank, Blank)
    case Some(g) =>
      var c := Countdown(g, offset, nowClient);
      FmtRoundTrip(c.global);
      FmtRoundTrip(c.white);
      FmtRoundTrip(c.black);
      Display(Fmt(c.global), Fmt(c.white), Fmt(c.black))
  }

  /** Time only runs down: at a later local second every countdown is at
      most what it was, and a clock that does not run stays put. */
  lemma CountdownMonotone(g: Game, offset: int, now: int, later: int)
    requires now <= later
    ensures Countdown(g, offset, later).global <= Countdown(g, offset, now).global
    ensures Countdown(g, offset, later).white <= Countdown(g, offset, now).white
    ensures Countdown(g, offset, later).black <= Countdown(g, offset, now).black
    ensures !Runs(g, White) ==> Countdown(g, offset, later).white == Countdown(g, offset, now).white
    ensures !Runs(g, Black) ==> Countdown(g, offset, later).black == Countdown(g, offset, now).black
  {
  }

  /** The worked example: stamp 1000, both clocks 300, deadline 2000, White
      to move, ten seconds later on the server's clock. */
  lemma WorkedExample(g: Game)
    requires g.serverTs == Some(1000) && g.clockW == 300 && g.clockB == 300
    requires g.globalEnd == 2000 && g.status == Active && g.turn == White
    ensures Countdown(g, 0, 1010) == Clocks(990, 290, 300)
    ensures TickTimers(Some(g), 0, 1010) == Display("16:30", "04:50", "05:00")
  {
    assert Countdown(g, 0, 1010) == Clocks(990, 290, 300);
    Fmt990();
    Fmt290();
    Fmt300();
  }

  /** A tick in the same local second as the application of a stamped
      snapshot sees no elapsed time: the running clock is the snapshot's
      clock floored at zero. */
  lemma TickAfterApplySeesNoElapsed(s: Session, g: Game, nowClient: int)
    requires g.serverTs.Some?
    ensures var r := ApplySnapshot(s, Some(g), nowClient);
      && Elapsed(r.game.value, NowServer(r.offset, nowClient)) == 0
      && Countdown(r.game.value, r.offset, nowClient).white == (if Runs(g, White) && g.clockW < 0 then 0 else g.clockW)
      && Countdown(r.game.value, r.offset, nowClient).black == (if Runs(g, Black) && g.clockB < 0 then 0 else g.clockB)
  {
  }
}
