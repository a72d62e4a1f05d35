/** Board helpers of the client: the piece-placement field of a FEN string
    read into a square-to-piece map (`fenToMap`), the 180-degree flip used to
    draw the board from Black's side (`flipSquareIfBlackPerspective`), the
    light/dark shade of a square (`squareAllowedColorClass`) and which pieces
    belong to the viewer. */
module Board {
  import opened Wrappers
  import opened Text

  datatype Side = White | Black

  /** A square as the client addresses it: file index (0 for 'a') and rank
      number (1 to 8 on the board). */
  datatype Square = Square(file: int, rank: int)

  predicate OnBoard(sq: Square) { 0 <= sq.file < 8 && 1 <= sq.rank <= 8 }

  /** The two-character name of a board square, such as "e2". */
  function Name(sq: Square): (s: string)
    requires OnBoard(sq)
    ensures |s| == 2 && 'a' <= s[0] <= 'h' && '1' <= s[1] <= '8'
  {
    [(97 + sq.file) as char, DigitChar(sq.rank)]
  }

  /** How the flip reads a square name: the character code of the first
      character minus 97, and the decimal value of the second. */
  function ParseName(s: string): Option<Square>
  {
    if |s| >= 2 && IsDigit(s[1]) then Some(Square(s[0] as int - 97, DigitValue(s[1]))) else None
  }

  /** Reading a square name back gives the square, so distinct squares have distinct names. */
  lemma NameRoundTrip(sq: Square)
    requires OnBoard(sq)
    ensures ParseName(Name(sq)) == Some(sq)
  {
  }

  // ----- square flip and shade -----

  /** The real square shown at a display square: rotated 180 degrees when the
      viewer plays Black, unchanged otherwise. */
  function Flip(mySide: Option<Side>, sq: Square): (r: Square)
    ensures mySide != Some(Black) ==> r == sq
    ensures OnBoard(r) <==> OnBoard(sq)
  {
    if mySide == Some(Black) then Square(7 - sq.file, 9 - sq.rank) else sq
  }

  /** Flipping twice is the identity, and the flip matches the corners and centre pawns as expected. */
  lemma FlipInvolution(mySide: Option<Side>, sq: Square)
    ensures Flip(mySide, Flip(mySide, sq)) == sq
    ensures Flip(Some(Black), Square(0, 1)) == Square(7, 8)
    ensures Flip(Some(Black), Square(4, 2)) == Square(3, 7)
  {
  }

  /** The display square of the `i`-th cell drawn: display ranks 8 down to 1, files a to h. */
  function DisplaySquare(i: int): Square
  {
    Square(i % 8, 8 - i / 8)
  }

  /** The real squares in the order the board loop creates its cells. */
  function DrawOrder(mySide: Option<Side>): (order: seq<Square>)
    ensures |order| == 64
  {
    seq(64, i requires 0 <= i < 64 => Flip(mySide, DisplaySquare(i)))
  }

  /** The board loop shows every real square exactly once, from either side. */
  lemma DrawOrderIsPermutation(mySide: Option<Side>)
    ensures forall i :: 0 <= i < 64 ==> OnBoard(DrawOrder(mySide)[i])
    ensures forall i, j :: 0 <= i < j < 64 ==> DrawOrder(mySide)[i] != DrawOrder(mySide)[j]
    ensures forall sq :: OnBoard(sq) ==> sq in DrawOrder(mySide)
  {
    var order := DrawOrder(mySide);
    forall i, j | 0 <= i < j < 64 ensures order[i] != order[j] {
      FlipInvolution(mySide, DisplaySquare(i));
      FlipInvolution(mySide, DisplaySquare(j));
      assert i == 8 * (i / 8) + i % 8;
      assert j == 8 * (j / 8) + j % 8;
    }
    forall sq | OnBoard(sq) ensures sq in order {
      var d := Flip(mySide, sq);
      var i := 8 * (8 - d.rank) + d.file;
      assert i / 8 == 8 - d.rank && i % 8 == d.file;
      FlipInvolution(mySide, sq);
      assert order[i] == sq;
    }
  }

  datatype Shade = Dark | Light

  /** The shade class of a square; a1 is dark. The source takes a JavaScript
      remainder, which can be negative, but it only tests it against zero,
      and a remainder by 2 is zero exactly for even numbers in both conventions. */
  function ShadeOf(sq: Square): (shade: Shade)
    ensures sq == Square(0, 1) ==> shade == Dark
    ensures shade == Dark <==> (sq.file + sq.rank) % 2 == 1
  {
    if (sq.file + (sq.rank - 1)) % 2 == 0 then Dark else Light
  }

  /** The shades form a chessboard with a1 dark, and the flip keeps every
      square's shade, so the cell drawn at a display square has the shade of
      the real square it shows. */
  lemma ShadePattern(mySide: Option<Side>, sq: Square)
    ensures ShadeOf(Square(0, 1)) == Dark
    ensures ShadeOf(Square(sq.file + 1, sq.rank)) != ShadeOf(sq)
    ensures ShadeOf(Square(sq.file, sq.rank + 1)) != ShadeOf(sq)
    ensures ShadeOf(Flip(mySide, sq)) == ShadeOf(sq)
  {
  }

  // ----- piece ownership -----

  /** `pc === pc.toUpperCase()`: a piece letter that is not lower case is White's. */
  predicate IsWhitePiece(c: char)
    ensures 'A' <= c <= 'Z' ==> IsWhitePiece(c)
    ensures 'a' <= c <= 'z' ==> !IsWhitePiece(c)
  {
    !('a' <= c <= 'z')
  }

  /** Whether the piece on a square belongs to the viewer. */
  predicate IsMine(mySide: Option<Side>, c: char)
    ensures IsMine(mySide, c) <==> mySide.Some? && (mySide.value.White? <==> IsWhitePiece(c))
  {
    (mySide == Some(White) && IsWhitePiece(c)) || (mySide == Some(Black) && !IsWhitePiece(c))
  }

  /** Every piece belongs to exactly one side, and a viewer of unknown side owns nothing. */
  lemma OwnershipExclusive(c: char)
    ensures IsMine(Some(White), c) != IsMine(Some(Black), c)
    ensures !IsMine(None, c)
  {
  }

  // ----- FEN placement -----

  /** How far one character of a rank string moves the file: its value for a digit, one for a piece. */
  function Advance(c: char): nat
  {
    if IsDigit(c) then DigitValue(c) else 1
  }

  /** The file index reached before position `i` of a rank string. */
  function FileAt(row: string, i: nat): nat
    requires i <= |row|
  {
    if i == 0 then 0 else Advance(row[0]) + FileAt(row[1..], i - 1)
  }

  /** The number of files a rank string covers. */
  function Width(row: string): nat
  {
    FileAt(row, |row|)
  }

  /** The number of piece letters (non-digits) in a rank string. */
  function Pieces(row: string): nat
  {
    if |row| == 0 then 0 else (if IsDigit(row[0]) then 0 else 1) + Pieces(row[1..])
  }

  /** The entries one rank string adds to the map, starting at file `file`;
      entries written later win, as in the source's loop. */
  function PlaceRow(row: string, rank: int, file: nat): map<Square, char>
    decreases |row|
  {
    if |row| == 0 then map[]
    else
      var later := PlaceRow(row[1..], rank, file + Advance(row[0]));
      if IsDigit(row[0]) then later else map[Square(file, rank) := row[0]] + later
  }

  lemma DisjointUnionSize<K, V>(a: map<K, V>, b: map<K, V>)
    requires a.Keys !! b.Keys
    ensures |a + b| == |a| + |b|
  {
    assert (a + b).Keys == a.Keys + b.Keys;
  }

  lemma UnionLeft<K, V>(a: map<K, V>, b: map<K, V>, k: K)
    requires k in a && k !in b
    ensures k in a + b && (a + b)[k] == a[k]
  {
  }

  lemma UnionRight<K, V>(a: map<K, V>, b: map<K, V>, k: K)
    requires k in b
    ensures k in a + b && (a + b)[k] == b[k]
  {
  }

  /** The first letter of a row is the only entry of its square: every later
      entry lies further right. */
  lemma PrependEntry(k0: Square, c: char, m: map<Square, char>)
    requires k0 !in m
    ensures map[k0 := c] + m == m[k0 := c]
    ensures |m[k0 := c]| == |m| + 1
  {
  }

  /** One rank string writes only its own rank, and only within the files it covers. */
  lemma {:induction false} PlaceRowBounds(row: string, rank: int, file: nat)
    ensures forall k :: k in PlaceRow(row, rank, file) ==> k.rank == rank && file <= k.file < file + Width(row)
    decreases |row|
  {
    if |row| > 0 {
      PlaceRowBounds(row[1..], rank, file + Advance(row[0]));
      assert Width(row) == Advance(row[0]) + Width(row[1..]);
    }
  }

  /** Every piece letter at position `i` gets an entry at file `file + FileAt(row, i)`. */
  lemma {:induction false} PlaceRowKeyed(row: string, rank: int, file: nat)
    ensures forall i :: 0 <= i < |row| && !IsDigit(row[i]) ==>
              Square(file + FileAt(row, i), rank) in PlaceRow(row, rank, file)
    decreases |row|
  {
    if |row| > 0 {
      PlaceRowKeyed(row[1..], rank, file + Advance(row[0]));
      forall i | 0 < i < |row| && !IsDigit(row[i])
        ensures Square(file + FileAt(row, i), rank) in PlaceRow(row, rank, file)
      {
        assert row[i] == row[1..][i - 1];
        assert FileAt(row, i) == Advance(row[0]) + FileAt(row[1..], i - 1);
        assert Square(file + Advance(row[0]) + FileAt(row[1..], i - 1), rank) in PlaceRow(row[1..], rank, file + Advance(row[0]));
      }
    }
  }

  /** Every piece letter at position `i` is stored, with its case, at file
      `file + FileAt(row, i)`: later letters never overwrite it. */
  lemma {:induction false} PlaceRowStores(row: string, rank: int, file: nat)
    ensures forall i :: 0 <= i < |row| && !IsDigit(row[i]) ==>
              Square(file + FileAt(row, i), rank) in PlaceRow(row, rank, file) &&
              PlaceRow(row, rank, file)[Square(file + FileAt(row, i), rank)] == row[i]
    decreases |row|
  {
    PlaceRowKeyed(row, rank, file);
    if |row| > 0 {
      PlaceRowStores(row[1..], rank, file + Advance(row[0]));
      PlaceRowBounds(row[1..], rank, file + Advance(row[0]));
      forall i | 0 < i < |row| && !IsDigit(row[i])
        ensures PlaceRow(row, rank, file)[Square(file + FileAt(row, i), rank)] == row[i]
      {
        assert row[i] == row[1..][i - 1];
        assert FileAt(row, i) == Advance(row[0]) + FileAt(row[1..], i - 1);
        var k := Square(file + Advance(row[0]) + FileAt(row[1..], i - 1), rank);
        assert PlaceRow(row[1..], rank, file + Advance(row[0]))[k] == row[i];
        if !IsDigit(row[0]) {
          assert k != Square(file, rank);
        }
      }
    }
  }

  /** Nothing but piece letters is stored: digits only move the file. */
  lemma {:induction false} PlaceRowOnlyLetters(row: string, rank: int, file: nat)
    ensures forall k :: k in PlaceRow(row, rank, file) ==>
              exists i :: 0 <= i < |row| && !IsDigit(row[i]) && k.file == file + FileAt(row, i)
    decreases |row|
  {
    if |row| > 0 {
      var rest := row[1..];
      var m' := PlaceRow(rest, rank, file + Advance(row[0]));
      PlaceRowOnlyLetters(rest, rank, file + Advance(row[0]));
      forall k | k in PlaceRow(row, rank, file)
        ensures exists i :: 0 <= i < |row| && !IsDigit(row[i]) && k.file == file + FileAt(row, i)
      {
        if k in m' {
          var i' :| 0 <= i' < |rest| && !IsDigit(rest[i']) && k.file == file + Advance(row[0]) + FileAt(rest, i');
          assert row[i' + 1] == rest[i'];
          assert FileAt(row, i' + 1) == Advance(row[0]) + FileAt(rest, i');
        } else {
          assert !IsDigit(row[0]) && k.file == file + FileAt(row, 0);
        }
      }
    }
  }

  /** No two letters of a row share a square: one entry per piece letter. */
  lemma {:induction false} PlaceRowSize(row: string, rank: int, file: nat)
    ensures |PlaceRow(row, rank, file)| == Pieces(row)
    decreases |row|
  {
    if |row| > 0 {
      var rest := row[1..];
      PlaceRowSize(rest, rank, file + Advance(row[0]));
      if !IsDigit(row[0]) {
        PlaceRowBounds(rest, rank, file + Advance(row[0]));
        PrependEntry(Square(file, rank), row[0], PlaceRow(rest, rank, file + Advance(row[0])));
      }
    }
  }

  /** The entries of rank strings `r` to 7, where string `r` holds rank `8 - r`. */
  function PlaceRows(rows: seq<string>, r: nat): map<Square, char>
    requires r <= 8 <= |rows|
    decreases 8 - r
  {
    if r == 8 then map[] else PlaceRow(rows[r], 8 - r, 0) + PlaceRows(rows, r + 1)
  }

  /** The total number of piece letters in rank strings `r` to 7. */
  function PieceTotal(rows: seq<string>, r: nat): nat
    requires r <= 8 <= |rows|
    decreases 8 - r
  {
    if r == 8 then 0 else Pieces(rows[r]) + PieceTotal(rows, r + 1)
  }

  /** A key of rank strings `r` to 7 sits on the rank of the string it came from. */
  lemma {:induction false} PlaceRowsKeys(rows: seq<string>, r: nat)
    requires r <= 8 <= |rows|
    ensures forall k :: k in PlaceRows(rows, r) <==>
              r <= 8 - k.rank < 8 && k in PlaceRow(rows[8 - k.rank], k.rank, 0)
    decreases 8 - r
  {
    if r < 8 {
      PlaceRowBounds(rows[r], 8 - r, 0);
      PlaceRowsKeys(rows, r + 1);
      forall k ensures k in PlaceRows(rows, r) <==> r <= 8 - k.rank < 8 && k in PlaceRow(rows[8 - k.rank], k.rank, 0) {
        if 8 - k.rank == r {
          assert k in PlaceRows(rows, r + 1) <==> false;
        }
      }
    }
  }

  /** Rank strings `r` to 7 write only ranks `8 - r` and below. */
  lemma {:induction false} PlaceRowsRanks(rows: seq<string>, r: nat)
    requires r <= 8 <= |rows|
    ensures forall k :: k in PlaceRows(rows, r) ==> 1 <= k.rank <= 8 - r
    decreases 8 - r
  {
    if r < 8 {
      PlaceRowBounds(rows[r], 8 - r, 0);
      PlaceRowsRanks(rows, r + 1);
    }
  }

  /** An entry of rank string `q` survives into the entries of rank strings
      `r` to 7, with its piece: no other rank string writes its rank. */
  lemma {:induction false} PlaceRowsLookup(rows: seq<string>, r: nat, q: nat, k: Square)
    requires r <= q < 8 <= |rows|
    requires k in PlaceRow(rows[q], 8 - q, 0)
    ensures k in PlaceRows(rows, r) && PlaceRows(rows, r)[k] == PlaceRow(rows[q], 8 - q, 0)[k]
    decreases 8 - r
  {
    PlaceRowBounds(rows[q], 8 - q, 0);
    assert PlaceRows(rows, r) == PlaceRow(rows[r], 8 - r, 0) + PlaceRows(rows, r + 1);
    if q == r {
      PlaceRowsRanks(rows, r + 1);
      UnionLeft(PlaceRow(rows[r], 8 - r, 0), PlaceRows(rows, r + 1), k);
    } else {
      PlaceRowsLookup(rows, r + 1, q, k);
      UnionRight(PlaceRow(rows[r], 8 - r, 0), PlaceRows(rows, r + 1), k);
    }
  }

  /** The rank strings never overwrite each other, so the sizes add up. */
  lemma {:induction false} PlaceRowsSize(rows: seq<string>, r: nat)
    requires r <= 8 <= |rows|
    ensures |PlaceRows(rows, r)| == PieceTotal(rows, r)
    decreases 8 - r
  {
    if r < 8 {
      PlaceRowSize(rows[r], 8 - r, 0);
      PlaceRowsSize(rows, r + 1);
      PlaceRowsDisjoint(rows, r);
      DisjointUnionSize(PlaceRow(rows[r], 8 - r, 0), PlaceRows(rows, r + 1));
    }
  }

  /** A rank string shares no square with the rank strings after it. */
  lemma PlaceRowsDisjoint(rows: seq<string>, r: nat)
    requires r < 8 <= |rows|
    ensures PlaceRow(rows[r], 8 - r, 0).Keys !! PlaceRows(rows, r + 1).Keys
  {
    PlaceRowBounds(rows[r], 8 - r, 0);
    PlaceRowsRanks(rows, r + 1);
  }

  /** The rank strings of a FEN string: its first space-separated field split at '/'. */
  function Rows(fen: string): seq<string>
  {
    Split(Split(fen, ' ')[0], '/')
  }

  /** `fenToMap(fen)`. The source throws when the placement field has fewer
      than eight rank strings (it iterates over `rows[r]` for r < 8); that
      failure is `None`. Rank strings after the eighth are ignored. */
  function FenToMap(fen: string): (m: Option<map<Square, char>>)
    ensures m.None? <==> |Rows(fen)| < 8
  {
    if |Rows(fen)| < 8 then None else Some(PlaceRows(Rows(fen), 0))
  }

  /** Parsing fails exactly when there are fewer than eight rank strings, and
      only the first space-separated field is read. */
  lemma FenToMapFirstField(placement: string, rest: string)
    requires ' ' !in placement
    ensures FenToMap(placement).None? <==> |Split(placement, '/')| < 8
    ensures FenToMap(placement + " " + rest) == FenToMap(placement)
  {
    FirstFieldOfSplit(placement, ' ', rest);
  }

  /** A letter in rank string `r` at position `i` is stored, with its case
      preserved, at file `FileAt(rows[r], i)` of rank `8 - r`. */
  lemma PlaceRowsPlaces(rows: seq<string>)
    requires 8 <= |rows|
    ensures forall r, i :: 0 <= r < 8 && 0 <= i < |rows[r]| && !IsDigit(rows[r][i]) ==>
              Square(FileAt(rows[r], i), 8 - r) in PlaceRows(rows, 0) &&
              PlaceRows(rows, 0)[Square(FileAt(rows[r], i), 8 - r)] == rows[r][i]
  {
    forall r, i | 0 <= r < 8 && 0 <= i < |rows[r]| && !IsDigit(rows[r][i])
      ensures Square(FileAt(rows[r], i), 8 - r) in PlaceRows(rows, 0)
      ensures PlaceRows(rows, 0)[Square(FileAt(rows[r], i), 8 - r)] == rows[r][i]
    {
      PlaceRowStores(rows[r], 8 - r, 0);
      PlaceRowsLookup(rows, 0, r, Square(FileAt(rows[r], i), 8 - r));
    }
  }

  /** The same for a FEN string whose placement field has eight rank strings. */
  lemma FenToMapPlaces(fen: string)
    requires FenToMap(fen).Some?
    ensures forall r, i :: 0 <= r < 8 && 0 <= i < |Rows(fen)[r]| && !IsDigit(Rows(fen)[r][i]) ==>
              Square(FileAt(Rows(fen)[r], i), 8 - r) in FenToMap(fen).value &&
              FenToMap(fen).value[Square(FileAt(Rows(fen)[r], i), 8 - r)] == Rows(fen)[r][i]
  {
    PlaceRowsPlaces(Rows(fen));
  }

  /** Every key comes from a piece letter: digits add no entry. */
  lemma FenToMapKeys(fen: string)
    requires FenToMap(fen).Some?
    ensures forall k :: k in FenToMap(fen).value ==>
              exists r, i :: 0 <= r < 8 && 0 <= i < |Rows(fen)[r]| && !IsDigit(Rows(fen)[r][i]) &&
                k == Square(FileAt(Rows(fen)[r], i), 8 - r)
  {
    var rows := Rows(fen);
    PlaceRowsKeys(rows, 0);
    forall k | k in PlaceRows(rows, 0)
      ensures exists r, i :: 0 <= r < 8 && 0 <= i < |rows[r]| && !IsDigit(rows[r][i]) &&
                k == Square(FileAt(rows[r], i), 8 - r)
    {
      var r := 8 - k.rank;
      PlaceRowOnlyLetters(rows[r], k.rank, 0);
      PlaceRowBounds(rows[r], k.rank, 0);
      var i :| 0 <= i < |rows[r]| && !IsDigit(rows[r][i]) && k.file == 0 + FileAt(rows[r], i);
      assert k == Square(FileAt(rows[r], i), 8 - r);
    }
  }

  /** Rank strings `r` to 7 that each cover at most eight files write only real board squares. */
  lemma {:induction false} PlaceRowsOnBoard(rows: seq<string>, r: nat)
    requires r <= 8 <= |rows|
    ensures (forall q :: r <= q < 8 ==> Width(rows[q]) <= 8) ==>
              forall k :: k in PlaceRows(rows, r) ==> OnBoard(k)
    decreases 8 - r
  {
    if r < 8 {
      PlaceRowBounds(rows[r], 8 - r, 0);
      PlaceRowsOnBoard(rows, r + 1);
    }
  }

  /** No two letters land on the same square: the map has one entry per piece
      letter of the eight rank strings. When no rank string covers more than
      eight files, every key is a real board square. */
  lemma FenToMapSize(fen: string)
    requires FenToMap(fen).Some?
    ensures |FenToMap(fen).value| == PieceTotal(Rows(fen), 0)
    ensures (forall r :: 0 <= r < 8 ==> Width(Rows(fen)[r]) <= 8) ==>
              forall k :: k in FenToMap(fen).value ==> OnBoard(k)
  {
    PlaceRowsSize(Rows(fen), 0);
    PlaceRowsOnBoard(Rows(fen), 0);
  }
}
