/** The client-only selection: the move-mode origin square with its legal
    destinations (`selectedFrom`, `green`) and the buy-mode piece kind with its
    drop squares (`selectedBuy`, `yellow`), and the `clear*` helpers. */
module SelectionState {
  import opened Wrappers
  import opened Board
  import opened Shop

  datatype Selection = Selection(from: Option<Square>, green: set<Square>, buy: Option<Kind>, yellow: set<Square>)

  const NoSelection := Selection(None, {}, None, {})

  /** The selection invariant: the two modes never overlap, and a target set
      is only non-empty while its mode is on. */
  predicate Valid(sel: Selection)
  {
    && !(sel.from.Some? && sel.buy.Some?)
    && (sel.green != {} ==> sel.from.Some?)
    && (sel.yellow != {} ==> sel.buy.Some?)
  }

  /** `clearMoveSelection`: leaves move mode and keeps buy mode as it was. */
  function ClearMove(sel: Selection): (r: Selection)
    ensures r.from.None? && r.green == {}
    ensures r.buy == sel.buy && r.yellow == sel.yellow
    ensures Valid(sel) ==> Valid(r)
  {
    sel.(from := None, green := {})
  }

  /** `clearBuySelection`: leaves buy mode and keeps move mode as it was. */
  function ClearBuy(sel: Selection): (r: Selection)
    ensures r.buy.None? && r.yellow == {}
    ensures r.from == sel.from && r.green == sel.green
    ensures Valid(sel) ==> Valid(r)
  {
    sel.(buy := None, yellow := {})
  }

  /** `clearAllSelection`: both modes off, both target sets empty. */
  function ClearAll(sel: Selection): (r: Selection)
    ensures r == NoSelection && Valid(r)
  {
    ClearBuy(ClearMove(sel))
  }
}
