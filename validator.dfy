/**
 * Source-square inference of src/index.js (`selectPiece`, `isCorrectMove`):
 * the speaker names only a piece and a destination, so the board is scanned
 * in row-major order for the first square holding exactly that piece code
 * from which a simplified geometric rule allows the destination.
 */
module Validator {
  import opened Wrappers
  import opened Board

  function Abs(x: int): (r: int)
    ensures r >= 0 && (r == x || r == -x)
  {
    if x < 0 then -x else x
  }

  /** `toUpperCase` on the ASCII letters that make up piece codes. */
  function ToUpper(c: char): (u: char)
    ensures 'a' <= c <= 'z' ==> u as int == c as int - 32
    ensures !('a' <= c <= 'z') ==> u == c
  {
    if 'a' <= c <= 'z' then (c as int - 32) as char else c
  }

  /** `toLowerCase` on the ASCII letters that make up piece codes. */
  function ToLower(c: char): (l: char)
    ensures 'A' <= c <= 'Z' ==> l as int == c as int + 32
    ensures !('A' <= c <= 'Z') ==> l == c
  {
    if 'A' <= c <= 'Z' then (c as int + 32) as char else c
  }

  /** The letters in alphabetical order: an independent table for the case mappings. */
  const Lowercase: seq<char> := "abcdefghijklmnopqrstuvwxyz"
  const Uppercase: seq<char> := "ABCDEFGHIJKLMNOPQRSTUVWXYZ"

  /** Upper-casing a lower-case letter gives the upper-case letter at the same alphabet position, and back. */
  lemma CaseFollowsAlphabet(i: int)
    requires 0 <= i < 26
    ensures ToUpper(Lowercase[i]) == Uppercase[i] && ToLower(Uppercase[i]) == Lowercase[i]
  {
  }

  /** The two case mappings undo each other on letters. */
  lemma CaseRoundTrip(c: char)
    ensures 'a' <= c <= 'z' ==> 'A' <= ToUpper(c) <= 'Z' && ToLower(ToUpper(c)) == c
    ensures 'A' <= c <= 'Z' ==> 'a' <= ToLower(c) <= 'z' && ToUpper(ToLower(c)) == c
  {
  }

  /**
   * `isCorrectMove(piece, rank, file, rankIndex, fileIndex)`: may `piece`,
   * standing on (rankIndex, fileIndex), reach (rank, file)? Paths are not
   * checked and queens, kings and unknown codes never qualify.
   */
  function IsCorrectMove(piece: char, rank: int, file: int, rankIndex: int, fileIndex: int): (ok: bool)
    ensures ok ==> ToUpper(piece) in "PNBR"
  {
    var dRank := Abs(rankIndex - rank);
    var dFile := Abs(fileIndex - file);
    match ToUpper(piece)
    case 'P' => file == fileIndex && dRank <= 2
    case 'N' => dRank + dFile == 3 && Abs(dRank - dFile) == 1
    case 'B' => dRank == dFile
    case 'R' => rankIndex == rank || fileIndex == file
    case _ => false
  }

  /** A pawn moves along its own file, by at most two ranks either way (a distance of 0 included). */
  lemma PawnStaysOnFile(piece: char, rank: int, file: int, rankIndex: int, fileIndex: int)
    requires ToUpper(piece) == 'P'
    ensures IsCorrectMove(piece, rank, file, rankIndex, fileIndex)
        <==> fileIndex == file && rankIndex - rank in {-2, -1, 0, 1, 2}
  {
  }

  /** A bishop moves along one of the two diagonals through its square (staying put included). */
  lemma BishopIsDiagonal(piece: char, rank: int, file: int, rankIndex: int, fileIndex: int)
    requires ToUpper(piece) == 'B'
    ensures IsCorrectMove(piece, rank, file, rankIndex, fileIndex)
        <==> rank - rankIndex == file - fileIndex || rank - rankIndex == fileIndex - file
  {
  }

  /** A rook moves along its rank or along its file. */
  lemma RookIsStraight(piece: char, rank: int, file: int, rankIndex: int, fileIndex: int)
    requires ToUpper(piece) == 'R'
    ensures IsCorrectMove(piece, rank, file, rankIndex, fileIndex)
        <==> rankIndex == rank || fileIndex == file
  {
  }

  /** Cell `i` of the scan holds exactly `piece` (case included) and passes the geometric rule. */
  predicate Qualifies(cells: seq<char>, piece: char, file: int, rank: int, i: int)
    requires |cells| == 64 && 0 <= i < 64
  {
    cells[i] == piece && IsCorrectMove(piece, rank, file, i / 8, i % 8)
  }

  /** The `find` over the flattened board, started at scan position `from`. */
  function FindFrom(cells: seq<char>, piece: char, file: int, rank: int, from: int): (r: Option<Square>)
    requires |cells| == 64 && 0 <= from <= 64
    decreases 64 - from
    ensures r.Some? ==> OnBoard(r.value) && from <= Index(r.value)
    ensures r.Some? ==> Qualifies(cells, piece, file, rank, Index(r.value))
    ensures r.Some? ==> forall j :: from <= j < Index(r.value) ==> !Qualifies(cells, piece, file, rank, j)
    ensures r.None? <==> forall j :: from <= j < 64 ==> !Qualifies(cells, piece, file, rank, j)
  {
    if from == 64 then None
    else if Qualifies(cells, piece, file, rank, from) then Some(SquareAt(from))
    else FindFrom(cells, piece, file, rank, from + 1)
  }

  /**
   * `selectPiece`: the first square in row-major order that holds `piece` and
   * from which `piece` may reach (newFile, newRank); `None` when there is none.
   */
  function SelectPiece(cells: seq<char>, piece: char, newFile: int, newRank: int): (r: Option<Square>)
    requires |cells| == 64
    ensures r.Some? ==> OnBoard(r.value) && Qualifies(cells, piece, newFile, newRank, Index(r.value))
    ensures r.Some? ==> forall j :: 0 <= j < Index(r.value) ==> !Qualifies(cells, piece, newFile, newRank, j)
    ensures r.None? <==> forall j :: 0 <= j < 64 ==> !Qualifies(cells, piece, newFile, newRank, j)
  {
    FindFrom(cells, piece, newFile, newRank, 0)
  }

  /** When exactly one square qualifies, the scan order does not matter: that square is chosen. */
  lemma SelectPieceUnique(cells: seq<char>, piece: char, newFile: int, newRank: int, src: Square)
    requires |cells| == 64 && OnBoard(src)
    requires Qualifies(cells, piece, newFile, newRank, Index(src))
    requires forall j :: 0 <= j < 64 && j != Index(src) ==> !Qualifies(cells, piece, newFile, newRank, j)
    ensures SelectPiece(cells, piece, newFile, newRank) == Some(src)
  {
    var r := SelectPiece(cells, piece, newFile, newRank);
    assert r.Some?;
    assert Index(r.value) == Index(src);
    assert r.value == SquareAt(Index(src));
  }

  /** The rule compares piece letters without regard to case, so both colours move alike. */
  lemma RuleIgnoresColour(piece: char, rank: int, file: int, rankIndex: int, fileIndex: int)
    requires 'A' <= piece <= 'Z'
    ensures IsCorrectMove(ToLower(piece), rank, file, rankIndex, fileIndex)
         == IsCorrectMove(piece, rank, file, rankIndex, fileIndex)
  {
  }

  /** The knight's arithmetic test is exactly the L-shape: one step one way and two the other. */
  lemma KnightIsLShape(rank: int, file: int, rankIndex: int, fileIndex: int)
    ensures IsCorrectMove('N', rank, file, rankIndex, fileIndex) <==>
              ((Abs(rankIndex - rank) == 1 && Abs(fileIndex - file) == 2) ||
               (Abs(rankIndex - rank) == 2 && Abs(fileIndex - file) == 1))
  {
  }

  /** The rule is symmetric in source and destination. */
  lemma RuleIsSymmetric(piece: char, rank: int, file: int, rankIndex: int, fileIndex: int)
    ensures IsCorrectMove(piece, rank, file, rankIndex, fileIndex)
         == IsCorrectMove(piece, rankIndex, fileIndex, rank, file)
  {
  }

  /** Queens and kings are never found, whatever the board and destination. */
  lemma QueenAndKingNeverFound(cells: seq<char>, piece: char, newFile: int, newRank: int)
    requires |cells| == 64
    requires ToUpper(piece) in {'Q', 'K'}
    ensures SelectPiece(cells, piece, newFile, newRank) == None
  {
  }
}
