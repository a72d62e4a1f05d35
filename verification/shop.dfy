/** The five purchasable piece kinds and the fixed price list `COSTS`. */
module Shop {
  import opened Wrappers

  datatype Kind = Pawn | Knight | Bishop | Rook | Queen

  /** The kinds in the order the shop buttons are refreshed. */
  const Kinds: seq<Kind> := [Pawn, Knight, Bishop, Rook, Queen]

  /** The lower-case letter a shop button carries for a kind. */
  function Letter(k: Kind): string
  {
    match k
    case Pawn => "p"
    case Knight => "n"
    case Bishop => "b"
    case Rook => "r"
    case Queen => "q"
  }

  /** The coin price of one piece of a kind. */
  function Cost(k: Kind): (c: nat)
    ensures 1 <= c <= 9
    ensures c == 1 <==> k == Pawn
  {
    match k
    case Pawn => 1
    case Knight => 3
    case Bishop => 3
    case Rook => 5
    case Queen => 9
  }

  /** The lookup `COSTS[p]` that the shop handler uses to validate a button's
      letter: the kind named by `p`, if any. */
  function KindOf(p: string): (k: Option<Kind>)
    ensures k.Some? ==> Letter(k.value) == p
    ensures k.None? ==> forall kind :: Letter(kind) != p
  {
    if p == "p" then Some(Pawn)
    else if p == "n" then Some(Knight)
    else if p == "b" then Some(Bishop)
    else if p == "r" then Some(Rook)
    else if p == "q" then Some(Queen)
    else None
  }

  /** Every kind has a positive price, so the quantity division is defined and
      a price check is never vacuous; the five prices rise from pawn to queen,
      with knight and bishop on the same tier; and each button's letter leads
      back to its kind. */
  lemma CostSchedule()
    ensures forall k :: Cost(k) >= 1 && KindOf(Letter(k)) == Some(k)
    ensures Cost(Pawn) < Cost(Knight) == Cost(Bishop) < Cost(Rook) < Cost(Queen)
    ensures forall i :: 0 <= i < |Kinds| ==> Letter(Kinds[i]) in {"p", "n", "b", "r", "q"}
    ensures forall k :: k in Kinds
  {
    forall k ensures k in Kinds {
      match k
      case Pawn => assert Kinds[0] == k;
      case Knight => assert Kinds[1] == k;
      case Bishop => assert Kinds[2] == k;
      case Rook => assert Kinds[3] == k;
      case Queen => assert Kinds[4] == k;
    }
  }
}
