/** The selection state machine: the two target refreshes, the board click
    handler `onSquareClick`, the shop buttons' view (`updateShopButtons`) and
    their click handler. Server replies are inputs to each step. */
module Interaction {
  import opened Wrappers
  import opened Text
  import opened Board
  import opened Shop
  import opened SelectionState
  import opened Snapshot

  /** What a request to the server gives back: a reply with `ok` and its
      payload; a reply without `ok` (or an empty reply); or a request that
      throws, which abandons the rest of the handler. */
  datatype Answer<T> = Ok(value: T) | Refused | Failed

  /** The selection part of a session satisfies the selection invariant. */
  predicate ValidSession(s: Session)
  {
    Valid(s.sel)
  }

  /** Everything but the selection is as it was. */
  predicate SameMirror(s: Session, r: Session)
  {
    r.game == s.game && r.mySide == s.mySide && r.offset == s.offset
  }

  /** `refreshMoveTargets()`: the destinations are dropped; they are asked for
      only when an origin is selected and it is the viewer's turn, and then
      they are the reply's `dests` when it is `ok`, and none otherwise. */
  function RefreshMoveTargets(s: Session, legals: Answer<seq<Square>>): (r: Session)
    ensures SameMirror(s, r)
    ensures r.sel.from == s.sel.from && r.sel.buy == s.sel.buy && r.sel.yellow == s.sel.yellow
    ensures !(s.sel.from.Some? && IsMyTurn(s)) ==> r.sel.green == {}
    ensures s.sel.from.Some? && IsMyTurn(s) && legals.Ok? ==> r.sel.green == set q | q in legals.value
    ensures !legals.Ok? ==> r.sel.green == {}
    ensures Valid(s.sel) ==> Valid(r.sel)
  {
    var cleared := s.(sel := s.sel.(green := {}));
    if s.sel.from.None? || !IsMyTurn(s) then cleared
    else
      match legals
      case Ok(dests) => cleared.(sel := cleared.sel.(green := set q | q in dests))
      case _ => cleared
  }

  /** `refreshBuyTargets()`: the same for the drop squares of the selected kind. */
  function RefreshBuyTargets(s: Session, targets: Answer<seq<Square>>): (r: Session)
    ensures SameMirror(s, r)
    ensures r.sel.from == s.sel.from && r.sel.green == s.sel.green && r.sel.buy == s.sel.buy
    ensures !(s.sel.buy.Some? && IsMyTurn(s)) ==> r.sel.yellow == {}
    ensures s.sel.buy.Some? && IsMyTurn(s) && targets.Ok? ==> r.sel.yellow == set q | q in targets.value
    ensures !targets.Ok? ==> r.sel.yellow == {}
    ensures Valid(s.sel) ==> Valid(r.sel)
  {
    var cleared := s.(sel := s.sel.(yellow := {}));
    if s.sel.buy.None? || !IsMyTurn(s) then cleared
    else
      match targets
      case Ok(squares) => cleared.(sel := cleared.sel.(yellow := set q | q in squares))
      case _ => cleared
  }

  /** What a click on a square asks for, before any request is made. */
  datatype Intent =
    | Ignore
    | Drop(kind: Kind, at: Square)
    | Select(at: Square)
    | Move(from: Square, to: Square)
    | Deselect

  /** The decisions of `onSquareClick(sq)` in the order the handler takes
      them. Nothing happens unless a game is loaded and active. In buy mode a
      click buys, and only on the viewer's turn on a drop square. Otherwise,
      on the viewer's turn: the viewer's own piece is selected; a listed
      destination of the selected origin is moved to; any other square drops
      the selection. A placement field that cannot be parsed abandons the
      click. */
  function Classify(s: Session, sq: Square): (i: Intent)
    ensures s.game.None? || s.game.value.status != Active ==> i == Ignore
    ensures i.Drop? ==> s.sel.buy == Some(i.kind) && i.at == sq && sq in s.sel.yellow && IsMyTurn(s)
    ensures s.sel.buy.Some? && IsMyTurn(s) && sq in s.sel.yellow ==> i.Drop?
    ensures !IsMyTurn(s) ==> i == Ignore
    ensures i.Select? || i.Move? || i.Deselect? ==> s.sel.buy.None?
    ensures i.Select? ==>
              && i.at == sq && FenToMap(s.game.value.fen).Some? && sq in FenToMap(s.game.value.fen).value
              && IsMine(s.mySide, FenToMap(s.game.value.fen).value[sq])
    ensures i.Move? ==> s.sel.from == Some(i.from) && i.to == sq && sq in s.sel.green
    ensures i.Deselect? ==> s.sel.from.Some? && sq !in s.sel.green
  {
    if s.game.None? || s.game.value.status != Active then Ignore
    else if s.sel.buy.Some? then
      if !IsMyTurn(s) || sq !in s.sel.yellow then Ignore else Drop(s.sel.buy.value, sq)
    else if !IsMyTurn(s) then Ignore
    else
      match FenToMap(s.game.value.fen)
      case None => Ignore
      case Some(board) =>
        if sq in board && IsMine(s.mySide, board[sq]) then Select(sq)
        else if s.sel.from.Some? && sq in s.sel.green then Move(s.sel.from.value, sq)
        else if s.sel.from.Some? then Deselect
        else Ignore
  }

  /** `onSquareClick(sq)` at client second `now`. `mutation` is the reply to
      the drop or move request, carrying the new snapshot; `targets` is the
      reply to the target refresh that follows a selection or a drop. A
      refused or failed mutation changes nothing. After a drop the snapshot is
      applied; when the resolve-check rule locks buying, buy mode is left and
      the move targets are refreshed, otherwise the drop targets are. */
  function SquareClick(s: Session, sq: Square, mutation: Answer<Option<Game>>, targets: Answer<seq<Square>>, now: int): (r: Session)
    ensures Classify(s, sq) == Ignore ==> r == s
    ensures (Classify(s, sq).Drop? || Classify(s, sq).Move?) && !mutation.Ok? ==> r == s
    ensures Classify(s, sq).Move? && mutation.Ok? ==> r == ApplySnapshot(s, mutation.value, now)
    ensures Classify(s, sq).Deselect? ==> r == s.(sel := ClearMove(s.sel))
    ensures Classify(s, sq).Select? ==> SameMirror(s, r) && r.sel.from == Some(sq) && r.sel.buy.None?
  {
    match Classify(s, sq)
    case Ignore => s
    case Deselect => s.(sel := ClearMove(s.sel))
    case Select(at) => RefreshMoveTargets(s.(sel := s.sel.(from := Some(at))), targets)
    case Move(_, _) =>
      if mutation.Ok? then ApplySnapshot(s, mutation.value, now) else s
    case Drop(_, _) =>
      if !mutation.Ok? then s
      else
        var applied := ApplySnapshot(s, mutation.value, now);
        if BuyLocked(applied.game.value) then RefreshMoveTargets(applied.(sel := ClearBuy(applied.sel)), targets)
        else RefreshBuyTargets(applied, targets)
  }

  /** A board click keeps the selection invariant. */
  lemma SquareClickKeepsValid(s: Session, sq: Square, mutation: Answer<Option<Game>>, targets: Answer<seq<Square>>, now: int)
    requires ValidSession(s)
    ensures ValidSession(SquareClick(s, sq, mutation, targets, now))
  {
  }

  /** A move or drop the server accepts with a snapshot ends with no
      selection at all: the snapshot clears it, and the refresh that follows a
      drop finds nothing selected and asks for nothing. */
  lemma AcceptedMutationClearsSelection(s: Session, sq: Square, g: Game, targets: Answer<seq<Square>>, now: int)
    requires Classify(s, sq).Drop? || Classify(s, sq).Move?
    ensures SquareClick(s, sq, Ok(Some(g)), targets, now).sel == NoSelection
    ensures SquareClick(s, sq, Ok(Some(g)), targets, now) == ApplySnapshot(s, Some(g), now)
  {
  }

  /** In buy mode a click outside the drop squares does nothing. */
  lemma BuyModeOutsideTargets(s: Session, sq: Square, mutation: Answer<Option<Game>>, targets: Answer<seq<Square>>, now: int)
    requires s.sel.buy.Some? && sq !in s.sel.yellow
    ensures SquareClick(s, sq, mutation, targets, now) == s
  {
  }

  /** In move mode, on the viewer's turn, a click on one of the viewer's own
      pieces selects it, whatever was selected before, and its destinations
      are the ones the server lists. */
  lemma ClickOwnPieceSelects(s: Session, sq: Square, mutation: Answer<Option<Game>>, targets: Answer<seq<Square>>, now: int)
    requires s.sel.buy.None? && IsMyTurn(s)
    requires FenToMap(s.game.value.fen).Some? && sq in FenToMap(s.game.value.fen).value
    requires IsMine(s.mySide, FenToMap(s.game.value.fen).value[sq])
    ensures var r := SquareClick(s, sq, mutation, targets, now);
      && SameMirror(s, r) && r.sel.from == Some(sq) && r.sel.buy.None? && r.sel.yellow == s.sel.yellow
      && r.sel.green == (if targets.Ok? then set q | q in targets.value else {})
  {
  }

  /** In move mode, on the viewer's turn, with an origin selected, a click on
      a listed destination that holds no piece of the viewer's asks for the
      move from the origin to it, and an accepted reply applies its snapshot. */
  lemma ClickTargetMoves(s: Session, sq: Square, g: Game, targets: Answer<seq<Square>>, now: int)
    requires s.sel.buy.None? && IsMyTurn(s) && s.sel.from.Some? && sq in s.sel.green
    requires FenToMap(s.game.value.fen).Some?
    requires sq !in FenToMap(s.game.value.fen).value || !IsMine(s.mySide, FenToMap(s.game.value.fen).value[sq])
    ensures Classify(s, sq) == Move(s.sel.from.value, sq)
    ensures SquareClick(s, sq, Ok(Some(g)), targets, now) == ApplySnapshot(s, Some(g), now)
  {
  }

  /** In move mode, on the viewer's turn, a click on a square that holds no
      piece of the viewer's and is not a destination clears the move
      selection without any request. */
  lemma ClickElsewhereDeselects(s: Session, sq: Square, mutation: Answer<Option<Game>>, targets: Answer<seq<Square>>, now: int)
    requires s.sel.buy.None? && IsMyTurn(s) && s.sel.from.Some? && sq !in s.sel.green
    requires FenToMap(s.game.value.fen).Some?
    requires sq !in FenToMap(s.game.value.fen).value || !IsMine(s.mySide, FenToMap(s.game.value.fen).value[sq])
    ensures SquareClick(s, sq, mutation, targets, now) == s.(sel := ClearMove(s.sel))
  {
  }

  /** One shop button as `updateShopButtons` leaves it: the quantity count,
      absent when empty, and whether the button is dimmed. */
  datatype ButtonView = ButtonView(count: Option<int>, dim: bool)

  /** A button is dimmed when buying is blocked (not the viewer's turn, or
      the resolve-check lock) or when not even one piece is affordable; the
      count shows how many pieces the coins buy, and only on an undimmed
      button. */
  function ShopButton(s: Session, k: Kind): (b: ButtonView)
    requires s.game.Some?
    ensures b.dim <==> !IsMyTurn(s) || BuyLocked(s.game.value) || MyCoins(s) < Cost(k)
    ensures b.count.Some? <==> !b.dim
    ensures b.count.Some? ==> b.count.value >= 1 && b.count.value * Cost(k) <= MyCoins(s) < (b.count.value + 1) * Cost(k)
  {
    var qty := MyCoins(s) / Cost(k);
    var blocked := !IsMyTurn(s) || BuyLocked(s.game.value);
    ButtonView(if qty > 0 && !blocked then Some(qty) else None, blocked || qty <= 0)
  }

  /** `updateShopButtons()`: nothing without a game, otherwise one view per
      kind, in the order of `Kinds`. */
  function ShopButtons(s: Session): (views: Option<seq<ButtonView>>)
    ensures views.None? <==> s.game.None?
    ensures views.Some? ==> |views.value| == |Kinds| && forall i :: 0 <= i < |Kinds| ==> views.value[i] == ShopButton(s, Kinds[i])
  {
    if s.game.None? then None else Some(seq(|Kinds|, i requires 0 <= i < |Kinds| => ShopButton(s, Kinds[i])))
  }

  /** The shop button's click handler for a button whose `data-piece` is
      `piece`. The click is dropped unless a game is active, it is the
      viewer's turn, the resolve-check lock is off, the lower-cased letter
      names a kind and the coins cover its price. Clicking the selected kind
      again leaves buy mode; clicking another enters buy mode for it, drops
      the move selection and refreshes the drop squares. */
  function ShopClick(s: Session, piece: string, targets: Answer<seq<Square>>): (r: Session)
    ensures SameMirror(s, r)
    ensures KindOf(Lower(piece)).None? ==> r == s
    ensures s.game.None? || !IsMyTurn(s) || BuyLocked(s.game.value) ==> r == s
    ensures KindOf(Lower(piece)).Some? && r != s ==> s.game.Some? && MyCoins(s) >= Cost(KindOf(Lower(piece)).value)
    ensures Valid(s.sel) ==> Valid(r.sel)
  {
    if s.game.None? || s.game.value.status != Active then s
    else if !IsMyTurn(s) then s
    else if BuyLocked(s.game.value) then s
    else
      match KindOf(Lower(piece))
      case None => s
      case Some(k) =>
        if MyCoins(s) < Cost(k) then s
        else if s.sel.buy == Some(k) then s.(sel := ClearBuy(s.sel))
        else RefreshBuyTargets(s.(sel := ClearMove(s.sel).(buy := Some(k))), targets)
  }

  /** A shop click does something exactly when its button is undimmed; a
      click on a dimmed button, or with no game, is a no-op. */
  lemma ShopClickIffUndimmed(s: Session, k: Kind, targets: Answer<seq<Square>>)
    ensures s.game.None? ==> ShopClick(s, Letter(k), targets) == s
    ensures s.game.Some? ==> (ShopClick(s, Letter(k), targets) != s <==> !ShopButton(s, k).dim)
  {
    CostSchedule();
    assert Lower(Letter(k)) == Letter(k);
  }

  /** Clicking the kind already selected leaves buy mode and keeps the rest. */
  lemma ShopClickToggles(s: Session, k: Kind, targets: Answer<seq<Square>>)
    requires s.game.Some? && !ShopButton(s, k).dim && s.sel.buy == Some(k)
    ensures ShopClick(s, Letter(k), targets) == s.(sel := ClearBuy(s.sel))
  {
    CostSchedule();
    assert Lower(Letter(k)) == Letter(k);
  }

  /** Clicking another affordable kind enters buy mode for it, with no move
      selection, and the drop squares are the ones the server lists. */
  lemma ShopClickEntersBuyMode(s: Session, k: Kind, targets: Answer<seq<Square>>)
    requires s.game.Some? && !ShopButton(s, k).dim && s.sel.buy != Some(k)
    ensures var r := ShopClick(s, Letter(k), targets);
      && r.sel.buy == Some(k) && r.sel.from.None? && r.sel.green == {}
      && r.sel.yellow == (if targets.Ok? then set q | q in targets.value else {})
  {
    CostSchedule();
    assert Lower(Letter(k)) == Letter(k);
  }

  /** The letter is lower-cased first, so an upper-case `data-piece` works as well. */
  lemma ShopClickIgnoresCase(s: Session, k: Kind, targets: Answer<seq<Square>>)
    ensures ShopClick(s, [(Letter(k)[0] as int - 'a' as int + 'A' as int) as char], targets) == ShopClick(s, Letter(k), targets)
  {
    var upper := [(Letter(k)[0] as int - 'a' as int + 'A' as int) as char];
    assert Lower(upper) == [LowerChar(upper[0])];
    assert Lower(Letter(k)) == Letter(k);
  }
}
