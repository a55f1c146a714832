/**
 * What the reducer of src/index.js promises, stated on `Reducer.Transition`:
 * the cases that leave the game alone, what a resolved move and a castle do
 * to the board, colour and bookkeeping, that a re-delivered segment is not
 * applied twice, and the behaviour of the shared board on "reset".
 */
module GameProperties {
  import opened Wrappers
  import opened Board
  import opened Validator
  import opened Entities
  import opened Reducer

  /** The castle squares by name; `Reducer.CastleSquares` gives their coordinates. */
  const E1: Square := TransformCoordinates("E1")
  const F1: Square := TransformCoordinates("F1")
  const G1: Square := TransformCoordinates("G1")
  const H1: Square := TransformCoordinates("H1")
  const E8: Square := TransformCoordinates("E8")
  const F8: Square := TransformCoordinates("F8")
  const G8: Square := TransformCoordinates("G8")
  const H8: Square := TransformCoordinates("H8")

  /** "reset" yields white to move on whatever the shared starting array holds, with the bookkeeping dropped. */
  lemma ResetYieldsWhiteToMove(s: State, defaultCells: seq<char>, segment: Segment)
    requires |s.cells| == 64 && |defaultCells| == 64
    requires segment.intent == Some("reset")
    ensures Transition(s, defaultCells, segment) == State(defaultCells, 'w', None, None)
  {
  }

  /** A segment without an intent, a "capture" and any unknown intent leave the game unchanged. */
  lemma IgnoredIntentsChangeNothing(s: State, defaultCells: seq<char>, segment: Segment)
    requires |s.cells| == 64 && |defaultCells| == 64
    requires segment.intent.None? || segment.intent.value !in {"reset", "move", "castle"}
    ensures Transition(s, defaultCells, segment) == s
  {
  }

  /** A "move" with no new entities leaves the game unchanged. */
  lemma MoveWithoutNewEntitiesChangesNothing(s: State, defaultCells: seq<char>, segment: Segment)
    requires |s.cells| == 64 && |defaultCells| == 64
    requires segment.intent == Some("move")
    requires SelectNewEntities(segment, s.contextId, s.entityStartPosition) == []
    ensures Transition(s, defaultCells, segment) == s
  {
  }

  /**
   * A "move" whose new entities carry neither a piece nor a square only
   * records the context and the last new entity's position.
   */
  lemma MoveWithNothingActionableAdvancesBookkeeping(s: State, defaultCells: seq<char>, segment: Segment)
    requires |s.cells| == 64 && |defaultCells| == 64
    requires segment.intent == Some("move")
    requires Defined(s.contextId, s.entityStartPosition, segment)
    requires var es := SelectNewEntities(segment, s.contextId, s.entityStartPosition);
      es != [] && forall e :: e in es ==> e.entityType !in {PieceKey, SquareKey}
    ensures var es := SelectNewEntities(segment, s.contextId, s.entityStartPosition);
      Transition(s, defaultCells, segment)
        == s.(contextId := Some(segment.contextId), entityStartPosition := Some(es[|es| - 1].startPosition))
  {
    var es := SelectNewEntities(segment, s.contextId, s.entityStartPosition);
    FormatKeys(es);
  }

  /** A "move" that names a piece but no square leaves the game unchanged, bookkeeping included. */
  lemma MoveWithoutSquareChangesNothing(s: State, defaultCells: seq<char>, segment: Segment)
    requires |s.cells| == 64 && |defaultCells| == 64
    requires segment.intent == Some("move")
    requires var fields := FormatEntities(SelectNewEntities(segment, s.contextId, s.entityStartPosition));
      SquareKey !in fields && PieceKey in fields && fields[PieceKey] != ""
    ensures Transition(s, defaultCells, segment) == s
  {
  }

  /** A "move" for which no square of the board qualifies as the source leaves the game unchanged. */
  lemma MoveWithoutCandidateChangesNothing(s: State, defaultCells: seq<char>, segment: Segment)
    requires |s.cells| == 64 && |defaultCells| == 64
    requires segment.intent == Some("move")
    requires Defined(s.contextId, s.entityStartPosition, segment)
    requires var fields := FormatEntities(SelectNewEntities(segment, s.contextId, s.entityStartPosition));
      && SquareKey in fields
      && var code := PieceCode(Lookup(fields, PieceKey), s.activeColor);
         var dst := TransformCoordinates(fields[SquareKey]);
         forall j :: 0 <= j < 64 ==> !Qualifies(s.cells, code, dst.file, dst.rank, j)
    ensures Transition(s, defaultCells, segment) == s
  {
  }

  /** Naming a queen or a king never moves anything: the validator has no rule for them. */
  lemma QueenOrKingMoveChangesNothing(s: State, defaultCells: seq<char>, segment: Segment)
    requires |s.cells| == 64 && |defaultCells| == 64
    requires segment.intent == Some("move")
    requires Defined(s.contextId, s.entityStartPosition, segment)
    requires var fields := FormatEntities(SelectNewEntities(segment, s.contextId, s.entityStartPosition));
      SquareKey in fields && PieceKey in fields && fields[PieceKey] in {"QUEEN", "KING"}
    ensures Transition(s, defaultCells, segment) == s
  {
    var fields := FormatEntities(SelectNewEntities(segment, s.contextId, s.entityStartPosition));
    var code := PieceCode(Lookup(fields, PieceKey), s.activeColor);
    var dst := TransformCoordinates(fields[SquareKey]);
    QueenAndKingNeverFound(s.cells, code, dst.file, dst.rank);
  }

  /**
   * A resolved "move": when `src` is the first square in scan order from
   * which the requested piece may reach the named square, that piece lands
   * there, `src` is emptied, nothing else on the board changes, the other
   * side is to move and the bookkeeping records this segment.
   */
  lemma MoveRelocatesFirstCandidate(s: State, defaultCells: seq<char>, segment: Segment, src: Square)
    requires |s.cells| == 64 && |defaultCells| == 64
    requires segment.intent == Some("move")
    requires Defined(s.contextId, s.entityStartPosition, segment)
    requires var fields := FormatEntities(SelectNewEntities(segment, s.contextId, s.entityStartPosition));
      && SquareKey in fields
      && OnBoard(src)
      && var code := PieceCode(Lookup(fields, PieceKey), s.activeColor);
         var dst := TransformCoordinates(fields[SquareKey]);
         && Qualifies(s.cells, code, dst.file, dst.rank, Index(src))
         && forall j :: 0 <= j < Index(src) ==> !Qualifies(s.cells, code, dst.file, dst.rank, j)
    ensures var es := SelectNewEntities(segment, s.contextId, s.entityStartPosition);
      var fields := FormatEntities(es);
      var code := PieceCode(Lookup(fields, PieceKey), s.activeColor);
      var dst := TransformCoordinates(fields[SquareKey]);
      var r := Transition(s, defaultCells, segment);
      && r.cells[Index(dst)] == code
      && (src != dst ==> r.cells[Index(src)] == Empty)
      && (forall i :: 0 <= i < 64 && i != Index(src) && i != Index(dst) ==> r.cells[i] == s.cells[i])
      && r.activeColor == Toggle(s.activeColor)
      && r.contextId == Some(segment.contextId)
      && r.entityStartPosition == Some(es[|es| - 1].startPosition)
  {
    var es := SelectNewEntities(segment, s.contextId, s.entityStartPosition);
    var fields := FormatEntities(es);
    var code := PieceCode(Lookup(fields, PieceKey), s.activeColor);
    var dst := TransformCoordinates(fields[SquareKey]);
    FormatKeys(es);
    assert SquareKey in (set e | e in es :: e.entityType);
    var found := SelectPiece(s.cells, code, dst.file, dst.rank);
    assert found.Some?;
    assert Index(found.value) == Index(src);
    assert found.value == SquareAt(Index(src));
  }

  /** White's "castle" on any board: E1 to G1, then H1 to F1, black to move, bookkeeping dropped. */
  lemma CastleWhite(s: State, defaultCells: seq<char>, segment: Segment)
    requires |s.cells| == 64 && |defaultCells| == 64
    requires segment.intent == Some("castle") && s.activeColor == 'w'
    ensures var r := Transition(s, defaultCells, segment);
      && r.cells[Index(G1)] == s.cells[Index(E1)]
      && r.cells[Index(F1)] == s.cells[Index(H1)]
      && r.cells[Index(E1)] == Empty && r.cells[Index(H1)] == Empty
      && (forall i :: 0 <= i < 64 && i !in {Index(E1), Index(F1), Index(G1), Index(H1)} ==> r.cells[i] == s.cells[i])
      && r == State(r.cells, 'b', None, None)
  {
    CastleSquares();
    var mid := Relocate(s.cells, E1, G1);
    assert Transition(s, defaultCells, segment).cells == Relocate(mid, H1, F1);
    assert Index(E1) == 60 && Index(F1) == 61 && Index(G1) == 62 && Index(H1) == 63;
  }

  /** Black's "castle" (any colour other than 'w'): E8 to G8, then H8 to F8, white to move. */
  lemma CastleBlack(s: State, defaultCells: seq<char>, segment: Segment)
    requires |s.cells| == 64 && |defaultCells| == 64
    requires segment.intent == Some("castle") && s.activeColor != 'w'
    ensures var r := Transition(s, defaultCells, segment);
      && r.cells[Index(G8)] == s.cells[Index(E8)]
      && r.cells[Index(F8)] == s.cells[Index(H8)]
      && r.cells[Index(E8)] == Empty && r.cells[Index(H8)] == Empty
      && (forall i :: 0 <= i < 64 && i !in {Index(E8), Index(F8), Index(G8), Index(H8)} ==> r.cells[i] == s.cells[i])
      && r == State(r.cells, 'w', None, None)
  {
    CastleSquares();
    var mid := Relocate(s.cells, E8, G8);
    assert Transition(s, defaultCells, segment).cells == Relocate(mid, H8, F8);
    assert Index(E8) == 4 && Index(F8) == 5 && Index(G8) == 6 && Index(H8) == 7;
  }

  /** The side to move stays 'w' or 'b', and changes only through "reset", a resolved "move" or "castle". */
  lemma ColourStaysWhiteOrBlack(s: State, defaultCells: seq<char>, segment: Segment)
    requires |s.cells| == 64 && |defaultCells| == 64
    requires Defined(s.contextId, s.entityStartPosition, segment)
    requires s.activeColor in {'w', 'b'}
    ensures var r := Transition(s, defaultCells, segment);
      && r.activeColor in {'w', 'b'}
      && (r.activeColor != s.activeColor ==> segment.intent.Some? && segment.intent.value in {"reset", "move", "castle"})
  {
  }

  /**
   * Re-delivering the same "move" segment changes nothing more: once a
   * segment is acted on (or its entities recorded), its entities are no
   * longer new. Holds whenever the entities come in ascending position order.
   */
  lemma {:induction false} MoveReplayIsIgnored(s: State, defaultCells: seq<char>, segment: Segment)
    requires |s.cells| == 64 && |defaultCells| == 64
    requires segment.intent == Some("move")
    requires Defined(s.contextId, s.entityStartPosition, segment)
    requires Ascending(segment.entities)
    ensures var r := Transition(s, defaultCells, segment);
      Defined(r.contextId, r.entityStartPosition, segment) && Transition(r, defaultCells, segment) == r
  {
    var r := Transition(s, defaultCells, segment);
    if r != s {
      var es := SelectNewEntities(segment, s.contextId, s.entityStartPosition);
      var all := segment.entities;
      assert es != [];
      assert es[|es| - 1] == all[|all| - 1] by {
        if s.contextId == Some(segment.contextId) {
          NewerEndsWithLast(all, s.entityStartPosition);
        }
      }
      assert r.contextId == Some(segment.contextId);
      assert r.entityStartPosition == Some(all[|all| - 1].startPosition);
      assert forall e :: e in all ==> e.startPosition <= all[|all| - 1].startPosition by {
        forall e | e in all ensures e.startPosition <= all[|all| - 1].startPosition {
          var i :| 0 <= i < |all| && all[i] == e;
        }
      }
      NothingNewerThanMaximum(all, all[|all| - 1].startPosition);
      assert SelectNewEntities(segment, r.contextId, r.entityStartPosition) == [];
    }
  }

  /** The white pawns of the starting layout stand on rank index 6. */
  lemma InitialWhitePawns(j: int)
    requires 0 <= j < 64 && InitialCells[j] == 'P'
    ensures j / 8 == 6
  {
    var rank, file := j / 8, j % 8;
    assert InitialCells[j] == InitialPiece(rank, file);
    if rank == 0 || rank == 7 {
      assert file in {0, 1, 2, 3, 4, 5, 6, 7};
    }
  }

  /** The opening segment of a pawn move to E4, as the recogniser sends it. */
  const PawnToE4: Segment :=
    Segment("c1", Some("move"), [Entity("piece", "PAWN", 0), Entity("square", "E4", 5)])

  const StartState: State := State(InitialCells, 'w', None, Some(0))

  /** The opening segment's entities format to a pawn and the square E4. */
  lemma PawnToE4Fields()
    ensures SelectNewEntities(PawnToE4, None, Some(0)) == PawnToE4.entities
    ensures FormatEntities(PawnToE4.entities) == map["piece" := "PAWN", "square" := "E4"]
  {
    var es := PawnToE4.entities;
    assert es[..1] == [Entity("piece", "PAWN", 0)];
    assert FormatEntities(es[..1]) == map["piece" := "PAWN"];
  }

  /** On the starting layout the only white pawn that may reach E4 is the one on E2. */
  lemma OnlyE2PawnReachesE4()
    ensures SelectPiece(InitialCells, 'P', 4, 4) == Some(Square(4, 6))
  {
    var src := Square(4, 6);
    assert InitialCells[Index(src)] == 'P';
    forall j | 0 <= j < 64 && j != Index(src)
      ensures !Qualifies(InitialCells, 'P', 4, 4, j)
    {
      if InitialCells[j] == 'P' {
        InitialWhitePawns(j);
      }
    }
    SelectPieceUnique(InitialCells, 'P', 4, 4, src);
  }

  /** From the starting layout, "pawn E4" moves the E2 pawn (the only candidate) and hands the move to black. */
  lemma OpeningPawnMove()
    ensures Defined(StartState.contextId, StartState.entityStartPosition, PawnToE4)
    ensures var r := Transition(StartState, InitialCells, PawnToE4);
      && r.cells == Relocate(InitialCells, Square(4, 6), Square(4, 4))
      && r.cells[Index(Square(4, 4))] == 'P' && r.cells[Index(Square(4, 6))] == Empty
      && r.activeColor == 'b' && r.contextId == Some("c1") && r.entityStartPosition == Some(5)
  {
    PawnToE4Fields();
    var fields := FormatEntities(PawnToE4.entities);
    assert Lookup(fields, PieceKey) == Some("PAWN") && Lookup(fields, SquareKey) == Some("E4");
    assert PieceCode(Some("PAWN"), 'w') == 'P';
    assert TransformCoordinates("E4") == Square(4, 4);
    OnlyE2PawnReachesE4();
    assert MoveTransition(StartState, PawnToE4)
        == State(Relocate(InitialCells, Square(4, 6), Square(4, 4)), 'b', Some("c1"), Some(5));
  }

  /**
   * The board is shared, so "reset" does not bring the starting layout back:
   * after the opening pawn move, resetting leaves the pawn on E4. The default
   * cells passed to the reset are the moved cells because the game's board is
   * the `defaultPosition` array itself (`App.Valid`); `ResetAfterMoveOnApp`
   * runs the same two steps on the `App` object.
   */
  lemma ResetAfterMoveKeepsMovedBoard()
    ensures var s1 := Transition(StartState, InitialCells, PawnToE4);
      var s2 := Transition(s1, s1.cells, Segment("c2", Some("reset"), []));
      && s2.activeColor == 'w'
      && s2.cells[Index(Square(4, 4))] == 'P'
      && s2.cells != InitialCells
  {
    OpeningPawnMove();
    var s1 := Transition(StartState, InitialCells, PawnToE4);
    assert InitialCells[Index(Square(4, 4))] == Empty;
  }

  /** The castle from the starting layout: king on G1, rook on F1, E1 and H1 empty, black to move. */
  lemma CastleFromStart()
    ensures var r := Transition(StartState, InitialCells, Segment("c1", Some("castle"), []));
      && r.cells[Index(G1)] == 'K' && r.cells[Index(F1)] == 'R'
      && r.cells[Index(E1)] == Empty && r.cells[Index(H1)] == Empty
      && r.activeColor == 'b'
  {
    CastleWhite(StartState, InitialCells, Segment("c1", Some("castle"), []));
  }

  /**
   * "reset" and "castle" drop the context, so every entity of the next
   * segment counts as new, whatever its context id.
   */
  lemma ResetOrCastleForgetsContext(s: State, defaultCells: seq<char>, segment: Segment, next: Segment)
    requires |s.cells| == 64 && |defaultCells| == 64
    requires segment.intent in {Some("reset"), Some("castle")}
    ensures var r := Transition(s, defaultCells, segment);
      SelectNewEntities(next, r.contextId, r.entityStartPosition) == next.entities
  {
  }

  /**
   * Nothing marks a "castle" segment as consumed: when the recogniser
   * re-delivers it (a partial update, then the final one), the reducer
   * castles again, now for the other side.
   */
  lemma CastleReplayCastlesAgain(s: State, defaultCells: seq<char>, segment: Segment)
    requires |s.cells| == 64 && |defaultCells| == 64
    requires segment.intent == Some("castle") && s.activeColor in {'w', 'b'}
    ensures var r1 := Transition(s, defaultCells, segment);
      var r2 := Transition(r1, defaultCells, segment);
      && r1.activeColor == Toggle(s.activeColor)
      && r2.cells == CastleCells(r1.cells, Toggle(s.activeColor))
      && r2.activeColor == s.activeColor
  {
    var r1 := Transition(s, defaultCells, segment);
    CastleStep(s, defaultCells, segment);
    CastleStep(r1, defaultCells, segment);
  }

  /** One "castle" step, written out: both relocations, the other side to move, bookkeeping dropped. */
  lemma CastleStep(s: State, defaultCells: seq<char>, segment: Segment)
    requires |s.cells| == 64 && |defaultCells| == 64
    requires segment.intent == Some("castle")
    ensures Transition(s, defaultCells, segment) == Castled(s)
  {
  }

  /**
   * The opening move and a "reset" run through the `App` object: the reset
   * game refers to `defaultPosition`, which still holds the pawn on E4.
   */
  method ResetAfterMoveOnApp() returns (e4: char, e2: char)
    ensures e4 == 'P' && e2 == Empty
  {
    var app := new App();
    OpeningPawnMove();
    app.OnSegmentChange(PawnToE4);
    app.OnSegmentChange(Segment("c2", Some("reset"), []));
    assert app.game.position == app.defaultPosition && app.game.activeColor == 'w';
    assert Cells(app.defaultPosition)[Index(Square(4, 4))] == 'P';
    assert Cells(app.defaultPosition)[Index(Square(4, 6))] == Empty;
    e4 := app.defaultPosition[4, 4];
    e2 := app.defaultPosition[6, 4];
  }
}
