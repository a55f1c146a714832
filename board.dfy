/**
 * The chess board of src/index.js: square names and coordinates, the starting
 * layout, and the in-place relocation of one piece on the shared 8x8 grid.
 *
 * A board is an `array2<char>` of 8 ranks by 8 files; rank 0 is black's back
 * rank, so the square name "E1" is rank 7, file 4.  Its contents are viewed as
 * the 64 cells read in row-major order (`Cells`), the order in which the move
 * validator scans the board.
 */
module Board {

  /** The file letters; a file index is a position in this sequence. */
  const Files: seq<char> := "ABCDEFGH"

  /** The marker of an empty square. */
  const Empty: char := '.'

  /** A pair of grid indices. The source builds them from unchecked arithmetic, so they are plain integers. */
  datatype Square = Square(file: int, rank: int)

  predicate OnBoard(sq: Square) {
    0 <= sq.file < 8 && 0 <= sq.rank < 8
  }

  /** Position of a square in the row-major cell sequence. */
  function Index(sq: Square): (i: int)
    requires OnBoard(sq)
    ensures 0 <= i < 64 && i / 8 == sq.rank && i % 8 == sq.file
  {
    sq.rank * 8 + sq.file
  }

  /** The square whose row-major position is `i`. */
  function SquareAt(i: int): (sq: Square)
    requires 0 <= i < 64
    ensures OnBoard(sq) && Index(sq) == i
  {
    Square(i % 8, i / 8)
  }

  /** `Array.prototype.indexOf` on a sequence of characters: the first position of `c`, or -1. */
  function IndexOf(xs: seq<char>, c: char): (i: int)
    ensures -1 <= i < |xs|
    ensures i == -1 <==> c !in xs
    ensures 0 <= i ==> xs[i] == c && c !in xs[..i]
  {
    if xs == [] then -1
    else if xs[0] == c then 0
    else
      var j := IndexOf(xs[1..], c);
      if j == -1 then -1
      else
        assert xs[..j + 1] == [xs[0]] + xs[1..][..j];
        j + 1
  }

  /**
   * The square tokens the reducer can act on: an upper-case file letter and a
   * rank digit. Characters after the second are ignored by the source.
   */
  predicate IsSquareName(s: string) {
    |s| >= 2 && s[0] in Files && '1' <= s[1] <= '8'
  }

  /** `transformCoordinates`: the file letter's index in `Files` and 8 minus the rank digit. */
  function TransformCoordinates(s: string): (sq: Square)
    requires IsSquareName(s)
    ensures OnBoard(sq)
    ensures Files[sq.file] == s[0]
    ensures sq.rank == 8 - (s[1] as int - '0' as int)
  {
    Square(IndexOf(Files, s[0]), 8 - (s[1] as int - '0' as int))
  }

  /** The two-character name of an on-board square: the inverse of `TransformCoordinates`. */
  function SquareName(sq: Square): (s: string)
    requires OnBoard(sq)
    ensures |s| == 2 && IsSquareName(s)
  {
    [Files[sq.file], ((8 - sq.rank) + '0' as int) as char]
  }

  lemma FileLettersDistinct(i: int, j: int)
    requires 0 <= i < 8 && 0 <= j < 8 && Files[i] == Files[j]
    ensures i == j
  {
  }

  lemma NameToSquareToName(s: string)
    requires IsSquareName(s)
    ensures SquareName(TransformCoordinates(s)) == s[..2]
  {
  }

  lemma SquareToNameToSquare(sq: Square)
    requires OnBoard(sq)
    ensures TransformCoordinates(SquareName(sq)) == sq
  {
    var s := SquareName(sq);
    var t := TransformCoordinates(s);
    FileLettersDistinct(t.file, sq.file);
  }

  lemma TransformExamples()
    ensures TransformCoordinates("E4") == Square(4, 4)
    ensures TransformCoordinates("E1") == Square(4, 7)
    ensures TransformCoordinates("A8") == Square(0, 0)
    ensures TransformCoordinates("H1") == Square(7, 7)
  {
  }

  /** The piece on a square of the starting layout (`defaultPosition`). */
  function InitialPiece(rank: int, file: int): (c: char)
    ensures 'A' <= c <= 'Z' ==> rank in {6, 7} && 0 <= file < 8
    ensures 'a' <= c <= 'z' ==> rank in {0, 1} && 0 <= file < 8
    ensures c != Empty <==> rank in {0, 1, 6, 7} && 0 <= file < 8
  {
    if !(0 <= rank < 8 && 0 <= file < 8) then Empty
    else if rank == 0 then "rnbqkbnr"[file]
    else if rank == 1 then 'p'
    else if rank == 6 then 'P'
    else if rank == 7 then "RNBQKBNR"[file]
    else Empty
  }

  /** The starting layout as row-major cells. */
  const InitialCells: seq<char> := seq(64, i => InitialPiece(i / 8, i % 8))

  /** The board contents, read in row-major order: rank `i / 8`, file `i % 8`. */
  function Cells(a: array2<char>): (cells: seq<char>)
    requires a.Length0 == 8 && a.Length1 == 8
    reads a
    ensures |cells| == 64
    ensures forall i :: 0 <= i < 64 ==> cells[i] == a[i / 8, i % 8]
  {
    seq(64, i requires 0 <= i < 64 reads a => a[i / 8, i % 8])
  }

  /** Allocates the `defaultPosition` grid. */
  method NewDefaultPosition() returns (a: array2<char>)
    ensures fresh(a) && a.Length0 == 8 && a.Length1 == 8
    ensures Cells(a) == InitialCells
  {
    a := new char[8, 8]((r, f) => InitialPiece(r, f));
  }

  /**
   * The cells after the piece on `src` is lifted (leaving `Empty`) and put
   * down on `dst`, overwriting whatever stood there.
   */
  function Relocate(cells: seq<char>, src: Square, dst: Square): (r: seq<char>)
    requires |cells| == 64 && OnBoard(src) && OnBoard(dst)
    ensures |r| == 64
    ensures r[Index(dst)] == cells[Index(src)]
    ensures src != dst ==> r[Index(src)] == Empty
    ensures forall i :: 0 <= i < 64 && i != Index(src) && i != Index(dst) ==> r[i] == cells[i]
  {
    cells[Index(src) := Empty][Index(dst) := cells[Index(src)]]
  }

  /**
   * `move`: writes the two cells of `position` in place and hands back the
   * very same array, so every holder of a reference to it sees the change.
   */
  method Move(position: array2<char>, src: Square, dst: Square) returns (newPosition: array2<char>)
    requires position.Length0 == 8 && position.Length1 == 8
    requires OnBoard(src) && OnBoard(dst)
    modifies position
    ensures newPosition == position
    ensures Cells(position) == Relocate(old(Cells(position)), src, dst)
  {
    ghost var before := Cells(position);
    var piece := position[src.rank, src.file];
    newPosition := position;
    newPosition[src.rank, src.file] := Empty;
    newPosition[dst.rank, dst.file] := piece;
    assert Cells(position) == Relocate(before, src, dst) by {
      forall i | 0 <= i < 64
        ensures Cells(position)[i] == Relocate(before, src, dst)[i]
      {
        var sq := SquareAt(i);
      }
    }
  }
}
