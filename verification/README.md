# Economy chess web client — a Dafny model of its logic

`app3.js` is the browser client of a two-player chess variant with an
economy: players hold coins, buy pieces from a shop and drop them on the
board, and play against a global deadline and two side clocks. The server
owns the game; the client keeps a mirror of the last snapshot, a local
selection (move mode or buy mode), a clock projection, and a push channel
(WebSocket) that falls back to polling.

This project models that logic as immutable datatypes and pure step
functions, with server replies, socket signals and the local clock second
as inputs, and proves properties of it:

- `text.dfy` (`Text`): the string helpers the client leans on: `split` on
  one character with its inverse `Join`, `String(n)` for non-negative
  integers and `parseInt` of digit strings, `padStart(2, "0")`, and ASCII
  `toLowerCase`.
- `board.dfy` (`Board`): squares, `fenToMap` over the piece-placement field
  of a FEN string, the 180° flip for Black's view, the board drawing order,
  square shades and piece ownership.
- `shop.dfy` (`Shop`): the five piece kinds and the `COSTS` table.
- `selection.dfy` (`SelectionState`): `selectedFrom`/`green`,
  `selectedBuy`/`yellow`, the `clear*` helpers and the selection invariant.
- `snapshot.dfy` (`Snapshot`): the game snapshot, the session (`GAME`,
  `MY_SIDE`, `serverOffset`, selection), `isMyTurn`, `myCoins`,
  `applySnapshot` and the push-message dispatch.
- `format.dfy` (`Format`): `fmt(sec)` and a reader `ParseClock` for its
  output.
- `timers.dfy` (`Timers`): `tickTimers`.
- `interaction.dfy` (`Interaction`): the target refreshes, `onSquareClick`,
  the shop buttons' view and click handler.
- `channel.dfy` (`Channel`): `closeWS`, `stopPolling`, `startPolling`,
  `connectWS`, `onopen`, `onclose` and the reconnect timer, with the backoff.
- `client.dfy` (`Client`): session and channel together, driven by a
  sequence of events, and the tail of `init`.

Behaviour of the code a reader might not expect; the model follows the code:

- `applySnapshot` accepts every snapshot that is present. It does not
  compare `server_ts`, so an older snapshot replaces a newer one
  (`Snapshot.StaleSnapshotReplaces`).
- There is one `green` set. Legal destinations are not split into plain
  moves and captures.
- After a drop whose accepted reply carries the new game, the client does
  not stay in buy mode, although the comment at app3.js:404 says it does.
  `applySnapshot` clears `selectedBuy` first (app3.js:364), so the
  `refreshBuyTargets` that follows returns at once (app3.js:264). This is
  stated in `Interaction.AcceptedMutationClearsSelection`.
- Polling starts at the fifth consecutive close from a delay of 500, when
  the delay becomes 5241 (`Channel.FifthCloseSwitchesToPolling`). It does
  not wait for a sixth close.
- An accepted drop reply without a game keeps buy mode and asks for the
  drop squares again (app3.js:393, 405, 264).
- `applySnapshot` ends with a redraw that parses the placement field
  (app3.js:365, 306). When the field has fewer than eight rank strings the
  parse throws after the mirror is updated. For `init` that means no game id
  and no channel (`Client.Init`). Every other caller either catches the
  exception or skips only steps that would change nothing, because the
  selection is already cleared, so for those callers the model's state is
  the same.
- A viewer whose side is unknown after `init` polls at once and never opens
  the socket (app3.js:727-734).
- The socket and the poll timer never run at the same time. However, while
  a reconnect timer is pending, neither of them runs.

## Model

| member | source | states |
|---|---|---|
| `Text.Split` | app3.js:139-140 | `split` at one character: at least one piece, no piece contains the separator, and joining the pieces with it gives the input back |
| `Text.SplitOfJoin` | app3.js:139-140 | splitting undoes joining whenever no part contains the separator |
| `Text.Decimal` | app3.js:61 | `String(n)` for `n >= 0`: a non-empty digit string without leading zero that reads back as `n`, one digit exactly below 10, at most two exactly below 100 |
| `Text.PadTwo` | app3.js:61 | `padStart(2, "0")`: length `max(2, |s|)`, ends with `s`, zeros in front |
| `Text.ParseDecimal` | app3.js:149 | `parseInt` of a one-character digit string is that digit's value |
| `Text.PadTwoValue` | app3.js:61 | zero padding keeps a digit string a digit string of the same value |
| `Text.DigitValue` | app3.js:147-150 | `parseInt` of one digit is below 10 |
| `Text.LowerChar` | app3.js:472 | `toLowerCase` on a character: never upper case afterwards; an upper-case ASCII letter becomes its lower-case partner; anything else is kept |
| `Text.Lower` | app3.js:472 | `toLowerCase` on a string, character by character |
| `Board.Name` | app3.js:155 | the name of a board square is a file letter `a`–`h` and a rank digit `1`–`8` |
| `Board.NameRoundTrip` | app3.js:213-219 | reading a square name the way the flip does gives the square back |
| `Board.Flip` | app3.js:209-220 | the flip is the identity unless the viewer is Black, and it maps board squares to board squares and nothing else onto them |
| `Board.FlipInvolution` | app3.js:209-220 | flipping twice is the identity; a1 becomes h8 and e2 becomes d7 |
| `Board.DrawOrder` | app3.js:310-321 | the board loop creates 64 cells |
| `Board.DrawOrderIsPermutation` | app3.js:310-321 | the 64 cells show real board squares, pairwise distinct, and every board square appears, from either side |
| `Board.ShadeOf` | app3.js:201-207 | `squareAllowedColorClass`: a1 is dark, and a square is dark exactly when file index plus rank is odd |
| `Board.ShadePattern` | app3.js:201-207 | a1 is dark; neighbours along a file or rank differ in shade; the flip keeps the shade, so a display cell has the shade of the real square it shows |
| `Board.IsWhitePiece` | app3.js:419 | `pc === pc.toUpperCase()`: upper-case letters are White's pieces, lower-case letters Black's |
| `Board.IsMine` | app3.js:419-420 | a piece is the viewer's exactly when the side is known and the piece's colour is that side |
| `Board.OwnershipExclusive` | app3.js:419-420 | every piece belongs to exactly one of the two sides, and a viewer of unknown side owns none |
| `Board.PlaceRowBounds` | app3.js:144-158 | one rank string writes only its own rank, within the files it covers |
| `Board.PlaceRowStores` | app3.js:147-157 | each letter of a rank string is stored, with its case, at the file its digits and letters lead to; later letters never overwrite it |
| `Board.PlaceRowOnlyLetters` | app3.js:147-157 | every entry comes from a letter: digits only advance the file |
| `Board.PlaceRowSize` | app3.js:144-158 | a rank string adds one entry per letter |
| `Board.PlaceRowsLookup` | app3.js:142-159 | an entry written by one rank string survives the other rank strings with its piece |
| `Board.PlaceRowsDisjoint` | app3.js:142-159 | a rank string shares no square with the rank strings after it |
| `Board.PlaceRowsSize` | app3.js:142-159 | the eight rank strings never overwrite each other, so the entry counts add up |
| `Board.PlaceRowsOnBoard` | app3.js:142-159 | rank strings that each cover at most eight files write only real board squares |
| `Board.PlaceRowsPlaces` | app3.js:142-159 | the letter at position `i` of rank string `r` is stored with its case at file `FileAt(rows[r], i)` of rank `8 - r` |
| `Board.FenToMap` | app3.js:137-160 | `fenToMap` fails (the source throws) exactly when the placement field has fewer than eight rank strings; what the map holds otherwise is stated by `Board.FenToMapPlaces`, `Board.FenToMapKeys` and `Board.FenToMapSize` |
| `Board.FenToMapFirstField` | app3.js:139-142 | only the text before the first space is read; parsing fails (the source throws) exactly when that field has fewer than eight rank strings |
| `Board.FenToMapPlaces` | app3.js:137-160 | every letter of the eight rank strings is in the map, case preserved, at its square |
| `Board.FenToMapKeys` | app3.js:137-160 | every key of the map is the square of some letter |
| `Board.FenToMapSize` | app3.js:137-160 | the map has exactly one entry per letter of the eight rank strings, and when each rank string covers at most eight files every key is on the board |
| `Shop.Cost` | app3.js:31-38 | the `COSTS` prices lie between 1 and 9, and only the pawn costs one coin |
| `Shop.KindOf` | app3.js:31-38 | the `COSTS` lookup: a kind is found exactly for its own letter, and nothing for any other text |
| `Shop.CostSchedule` | app3.js:31-38 | every price is positive, the prices rise pawn < knight = bishop < rook < queen, and every letter leads back to its kind |
| `SelectionState.ClearMove` | app3.js:182-186 | leaves move mode, keeps buy mode, keeps the selection invariant |
| `SelectionState.ClearBuy` | app3.js:188-193 | leaves buy mode, keeps move mode, keeps the selection invariant |
| `SelectionState.ClearAll` | app3.js:195-199 | nothing selected afterwards |
| `Snapshot.BuyLocked` | app3.js:396 | the resolve-check lock: `in_check_start` and `buy_locked` are both 1 |
| `Snapshot.IsMyTurn` | app3.js:177-180 | it is only the viewer's turn with a loaded, active game and a known side |
| `Snapshot.MyCoins` | app3.js:171-175 | the viewer's coins: zero without a game, White's count for White, Black's count otherwise, an unknown side included |
| `Snapshot.ApplySnapshot` | app3.js:344-366 | a missing snapshot changes nothing; any other replaces the mirror; a snapshot without `you` gets the known side; the side is sticky once known; the offset makes `nowClient + offset` equal the snapshot's stamp, and is kept without a stamp; the selection is cleared |
| `Snapshot.ApplyIdempotent` | app3.js:344-366 | applying the same snapshot twice in the same second is applying it once |
| `Snapshot.StaleSnapshotReplaces` | app3.js:344-366 | a snapshot stamped 900 replaces one stamped 950 |
| `Snapshot.OnMessage` | app3.js:613-653 | "pong", unparseable and unknown messages change nothing; a state message applies its data; a finished message changes only the status and the result of a loaded game |
| `Format.Clamp` | app3.js:58 | `Math.max(0, sec)` is at least `sec`, and equals it when positive |
| `Format.Fmt` | app3.js:56-62 | the text has a colon third from the end and is at least five characters long; exactly five below 6000 seconds; `"00:00"` for every count up to zero |
| `Format.FmtFields` | app3.js:56-62 | the two fields are the padded minutes and seconds of `max(0, sec)`: digit strings, the seconds exactly two digits, the minutes at least two |
| `Format.FmtRoundTrip` | app3.js:56-62 | reading a formatted count as `MM:SS` gives back `max(0, sec)`, so SS < 60 and MM·60 + SS = max(0, sec) |
| `Format.FmtInjective` | app3.js:56-62 | distinct non-negative counts are shown differently |
| `Timers.Elapsed` | app3.js:517-518 | the time since the snapshot is never negative, is zero without a stamp, and is `nowServer - server_ts` whenever that is positive |
| `Timers.Countdown` | app3.js:510-528 | the global countdown is the deadline minus the server's now, floored at zero; only the side to move in an active game loses the elapsed time, floored at zero; the other clock is the snapshot's |
| `Timers.TickTimers` | app3.js:500-532 | without a game all three texts are `"--:--"`; otherwise each text reads back as its countdown, floored at zero |
| `Timers.CountdownMonotone` | app3.js:510-528 | at a later second no countdown is larger, and a clock that does not run does not move |
| `Timers.WorkedExample` | app3.js:510-528 | stamp 1000, clocks 300/300, deadline 2000, White to move, server time 1010: countdowns 990, 290, 300, shown as "16:30", "04:50", "05:00" |
| `Timers.TickAfterApplySeesNoElapsed` | app3.js:356-361 | a tick in the same second as the application of a stamped snapshot sees no elapsed time |
| `Interaction.RefreshMoveTargets` | app3.js:245-259 | the destinations are cleared, asked for only with an origin on the viewer's turn, and then are the `ok` reply's list or nothing; the rest is kept |
| `Interaction.RefreshBuyTargets` | app3.js:261-275 | the same for the drop squares of the selected kind |
| `Interaction.Classify` | app3.js:369-456 | the decision order of a board click: nothing without an active game or off the viewer's turn; in buy mode a drop exactly on a drop square; a select, move or deselect only outside buy mode; a select only on an own piece, a move only from the origin to a listed destination, a deselect only with an origin and off the destinations |
| `Interaction.SquareClick` | app3.js:369-456 | an ignored click, a refused or failed move or drop change nothing; an accepted move applies its snapshot; a deselect clears only move mode; a select sets the origin and keeps the mirror |
| `Interaction.SquareClickKeepsValid` | app3.js:369-456 | a board click keeps the selection invariant |
| `Interaction.AcceptedMutationClearsSelection` | app3.js:393-407 | an accepted move or drop with a snapshot ends with nothing selected, even after the refresh that follows a drop |
| `Interaction.BuyModeOutsideTargets` | app3.js:374-377 | in buy mode a click outside the drop squares does nothing |
| `Interaction.ClickOwnPieceSelects` | app3.js:411-427 | in move mode on the viewer's turn a click on an own piece selects it, and its destinations are the ones the server lists |
| `Interaction.ClickTargetMoves` | app3.js:431-446 | in move mode on the viewer's turn with an origin, a click on a listed destination that holds no piece of the viewer's requests the move from the origin to it, and an accepted reply with a game applies that snapshot |
| `Interaction.ClickElsewhereDeselects` | app3.js:450-455 | in move mode on the viewer's turn a click on a square that is neither an own piece nor a destination clears the move selection, with no request |
| `Interaction.ShopButton` | app3.js:223-243 | a button is dimmed exactly when buying is blocked or not one piece is affordable; its count is shown only when undimmed, and is the number of pieces the coins buy |
| `Interaction.ShopButtons` | app3.js:223-243 | nothing is updated without a game; otherwise one view per kind |
| `Interaction.ShopClick` | app3.js:460-494 | the click changes nothing without an active game, on the opponent's turn, under the resolve-check lock, for an unknown letter, or without the coins; the mirror is never touched |
| `Interaction.ShopClickIffUndimmed` | app3.js:460-494 | a shop click changes the state exactly when the button is undimmed |
| `Interaction.ShopClickToggles` | app3.js:479-484 | clicking the selected kind again leaves buy mode |
| `Interaction.ShopClickEntersBuyMode` | app3.js:486-493 | clicking another affordable kind enters buy mode for it with no move selection and the listed drop squares |
| `Interaction.ShopClickIgnoresCase` | app3.js:472 | an upper-case button letter acts as its lower-case one |
| `Channel.Grow` | app3.js:660 | the delay never passes 8000, grows by at least half from 500 up to 5000, and stays non-negative |
| `Channel.GrowIsFloorOfTimesOnePointSix` | app3.js:660 | `b * 8 / 5` capped at 8000 is `min(8000, floor(b * 1.6))` over the rationals |
| `Channel.CloseWS` | app3.js:563-575 | the socket and the keepalive are gone, nothing else changes |
| `Channel.StopPolling` | app3.js:535-542 | the poll timer is gone, nothing else changes |
| `Channel.StartPolling` | app3.js:544-561 | the poll timer runs afterwards, and a running one is kept |
| `Channel.ConnectWS` | app3.js:577-596 | without a game id nothing happens; otherwise the old socket and the poll timer stop first, then a socket connects, or polling starts when the constructor throws |
| `Channel.OnOpen` | app3.js:598-611 | the socket is open, the delay is reset to 500, and the keepalive runs |
| `Channel.OnClose` | app3.js:655-669 | the socket closes and the delay grows; from 4000 on polling starts and nothing is scheduled; below it a reconnect is scheduled after the new delay |
| `Channel.ReconnectFired` | app3.js:667 | the reconnect timer runs `connectWS` once |
| `Channel.GrowWithinDelays` | app3.js:655-669 | a close that still reconnects moves the delay within 500, 800, 1280, 2048, 3276, 5241, and polling follows exactly from 3276 |
| `Channel.StepKeepsInv` | app3.js:535-669 | every socket signal keeps the channel invariant: the socket and the poll timer never run together, the keepalive only on an open socket, a pending reconnect only with neither running and after the current delay, the delay among 500, 800, 1280, 2048, 3276, 5241, and from 4000 on polling; with a game id something is always running or scheduled |
| `Channel.RunKeepsInv` | app3.js:535-669 | any sequence of signals keeps the channel invariant |
| `Channel.PollingIsFinal` | app3.js:544-561 | once polling, no signal changes anything again |
| `Channel.FifthCloseSwitchesToPolling` | app3.js:655-669 | from 500, closes give 800, 1280, 2048, 3276 with a reconnect each, and the fifth close, at 5241, switches to polling |
| `Channel.OpenResetsDelay` | app3.js:598-600 | an open resets the delay, so the next close schedules a reconnect after 800 |
| `Client.Init` | app3.js:704-738 | without a game nothing is set up; a game is applied; if its placement field does not parse, the redraw throws and no game id or channel is set up; otherwise the id is kept, an unknown side polls and a known one connects the socket; both invariants hold |
| `Client.Step` | app3.js:547-561 | clicks, pushes and poll answers touch only the session, socket signals only the channel; a push counts only on an open socket; a poll answer only while polling with a game id, and an `ok` one is applied |
| `Client.StepKeepsInv` | app3.js:369-669 | every event keeps the selection and the channel invariants |
| `Client.RunKeepsInv` | app3.js:369-669 | any run keeps both invariants, so the socket and the poll timer never run together and the delay stays in [500, 5241] |
| `Client.SideStaysFixed` | app3.js:349-354 | once the viewer's side is known, no event changes it |
| `Client.GameIdStaysFixed` | app3.js:725 | the game id never changes after `init` |

## Left out

- Rendering is left out because it is presentation only, apart from the exception its board parse can throw. This covers `render`, `setStatus`, element lookups, `classList` changes, `pieceGlyph` and the `alert` text. The drawing loop is modelled only as the order of squares it draws.
- `apiPost`/`fetch`, the `WebSocket` object and JSON decoding are left out as foreign I/O. Replies are the `Answer` input and decoded messages are the `Message` input. A reply that is not JSON counts as a failed request.
- `setInterval`, `setTimeout` and `Date.now()` are left out. The current second is a parameter, and timer firings are events: the reconnect signal and the poll answer. The tick that repaints the clocks changes no state, so it is the pure `TickTimers`.
- The `wsPingTimer` keepalive is modelled only as a flag; sending `"ping"` is I/O.
- `wsUrlFromHttpBase` is left out because it depends on the URL library's normalisation.
- `getUsername`, `getTelegramUsername`, `localStorage`, `prompt` and the status texts of `init` are environment plumbing and left out. `Client.Init` starts after the game lookup.
- Interleaving of concurrent `await`s is left out. Each handler is one atomic step, and a reply is the answer to the request the step made. The code tags no replies, so a late reply to an earlier request is not modelled.
- The `onclose` of a socket that has already been replaced is not modelled. In the code, `connectWS` is reached only with no live socket: once from `init`, and from the reconnect timer, which is only set after `onclose` cleared the socket.
- `Channel.Grow` uses integer `b * 8 / 5` instead of the floating-point `b * 1.6`. The two agree on every delay the client reaches (500, 800, 1280, 2048, 3276). `Channel.GrowIsFloorOfTimesOnePointSix` proves agreement with the exact rational 1.6, not with the double nearest to it.
- `Board.Name`: `String.fromCharCode` keeps only 16 bits of its argument. The model keys squares by their integer file, so a rank string covering more than 65 536 files is left out.
- `Board.IsWhitePiece` models `pc === pc.toUpperCase()` for ASCII: non-ASCII lower-case letters are left out. `Text.Lower` does the same for `toLowerCase`.
- `Text.Decimal`: the model's unbounded integers stand for JavaScript numbers, which are doubles. `String(n)` switches to exponent notation from 1e21, and integers above 2^53 are not exact. Both are far beyond any clock or coin value the client handles, so the model does not cover them.
- `Format.FmtInjective` holds for the model's integers. For JavaScript numbers it fails only above 2^53 seconds, because the count itself is no longer exact there.
- Payload values that are not integers, or absent, are left out. This covers `NaN` coins and fractional clocks. `fmt`'s `Math.floor` is therefore the identity on the model's integers.
- Inherited object keys of `COSTS` are left out: `COSTS["constructor"]` is truthy in JavaScript. The shop buttons carry only the five letters.
- The result payload of a finished game is opaque. Only its presence is modelled; the `alert` text built from it is not.
