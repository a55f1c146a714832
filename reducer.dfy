/**
 * The game-state reducer of src/index.js: a state machine keyed on the
 * segment's intent string ("reset", "move", "capture", "castle", anything
 * else) that turns the current game and one recognition segment into the
 * next game.
 *
 * The source keeps a single board array: the starting layout `defaultPosition`
 * is the initial game's `position`, `move` writes into it in place and every
 * later game refers to it, including the game that "reset" builds. `State`
 * is the value view of a game (its board read as cells) and `Transition` is
 * the reducer on values; `Reduce` is the reducer on the shared array, proved
 * to agree with `Transition`.
 */
module Reducer {
  import opened Wrappers
  import opened Board
  import opened Validator
  import opened Entities

  /** The entity types the reducer reads from the formatted record. */
  const PieceKey: string := "piece"
  const SquareKey: string := "square"

  /** `pieces`: spoken piece names to white piece letters. */
  const Pieces: map<string, char> :=
    map["PAWN" := 'P', "KNIGHT" := 'N', "BISHOP" := 'B', "ROOK" := 'R', "QUEEN" := 'Q', "KING" := 'K']

  /** The table names the six piece kinds, each by its own white letter. */
  lemma PieceTable()
    ensures Pieces.Keys == {"PAWN", "KNIGHT", "BISHOP", "ROOK", "QUEEN", "KING"}
    ensures forall name :: name in Pieces ==> Pieces[name] in "PNBRQK"
    ensures forall a, b :: a in Pieces && b in Pieces && Pieces[a] == Pieces[b] ==> a == b
  {
  }

  /** A game value: the board cells, the side to move ('w' or 'b') and the recognition bookkeeping. */
  datatype State = State(cells: seq<char>, activeColor: char, contextId: Option<string>, entityStartPosition: Option<int>)

  /** A game as the source holds it: `position` is a reference to the shared board array. */
  datatype Game = Game(position: array2<char>, activeColor: char, contextId: Option<string>, entityStartPosition: Option<int>)

  function Observe(g: Game): (s: State)
    requires g.position.Length0 == 8 && g.position.Length1 == 8
    reads g.position
    ensures |s.cells| == 64
  {
    State(Cells(g.position), g.activeColor, g.contextId, g.entityStartPosition)
  }

  /** `activeColor === 'w' ? 'b' : 'w'`. */
  function Toggle(c: char): (t: char)
    ensures t in {'w', 'b'} && (c in {'w', 'b'} ==> t != c)
  {
    if c == 'w' then 'b' else 'w'
  }

  /** Reading a field of the formatted record: `None` for `undefined`. */
  function Lookup(fields: map<string, string>, key: string): (v: Option<string>)
    ensures v.Some? <==> key in fields
    ensures v.Some? ==> v.value == fields[key]
  {
    if key in fields then Some(fields[key]) else None
  }

  /** JavaScript truthiness of an optional string: present and not empty. */
  predicate Truthy(v: Option<string>) {
    v.Some? && v.value != ""
  }

  /**
   * The records the "move" branch can act on without failing: a square, when
   * present, is a square name, and a piece name the branch goes on to look up
   * is one of `Pieces`; a piece without a square must not be the empty string
   * (the source would then parse a missing square).
   */
  predicate UsableFields(fields: map<string, string>) {
    && (SquareKey in fields ==> IsSquareName(fields[SquareKey]))
    && (SquareKey in fields && PieceKey in fields && fields[PieceKey] != "" ==> fields[PieceKey] in Pieces)
    && (SquareKey !in fields && PieceKey in fields ==> fields[PieceKey] != "")
  }

  /** The reducer is defined on a game and segment when a "move" intent carries usable new entities. */
  predicate Defined(contextId: Option<string>, entityStartPosition: Option<int>, segment: Segment) {
    segment.intent == Some("move") ==>
      UsableFields(FormatEntities(SelectNewEntities(segment, contextId, entityStartPosition)))
  }

  /**
   * The piece code a "move" looks for: the letter of the spoken name, a pawn
   * when no name was given, lower-cased when black is to move.
   */
  function PieceCode(piece: Option<string>, activeColor: char): (code: char)
    requires Truthy(piece) ==> piece.value in Pieces
    ensures Truthy(piece) ==> ToUpper(code) == Pieces[piece.value]
    ensures !Truthy(piece) ==> ToUpper(code) == 'P'
    ensures activeColor == 'b' <==> 'a' <= code <= 'z'
  {
    var letter := if Truthy(piece) then Pieces[piece.value] else 'P';
    if activeColor == 'b' then ToLower(letter) else letter
  }

  /** The "move" branch of the reducer. */
  function MoveTransition(s: State, segment: Segment): (r: State)
    requires |s.cells| == 64
    requires UsableFields(FormatEntities(SelectNewEntities(segment, s.contextId, s.entityStartPosition)))
    ensures |r.cells| == 64
    ensures r == s || r.contextId == Some(segment.contextId)
    ensures r.cells != s.cells ==> r.activeColor == Toggle(s.activeColor)
    ensures r.activeColor != s.activeColor ==> r.activeColor == Toggle(s.activeColor)
  {
    var entities := SelectNewEntities(segment, s.contextId, s.entityStartPosition);
    if |entities| == 0 then s
    else
      var fields := FormatEntities(entities);
      var piece, square := Lookup(fields, PieceKey), Lookup(fields, SquareKey);
      var lastPosition := Some(entities[|entities| - 1].startPosition);
      if piece.None? && square.None? then
        s.(contextId := Some(segment.contextId), entityStartPosition := lastPosition)
      else if square.None? && Truthy(piece) then s
      else
        var code := PieceCode(piece, s.activeColor);
        var dst := TransformCoordinates(square.value);
        match SelectPiece(s.cells, code, dst.file, dst.rank)
        case None => s
        case Some(src) =>
          State(Relocate(s.cells, src, dst), Toggle(s.activeColor), Some(segment.contextId), lastPosition)
  }

  /** The squares "castle" names lie on the back ranks: rank index 7 for white, 0 for black. */
  lemma CastleSquares()
    ensures TransformCoordinates("E1") == Square(4, 7) && TransformCoordinates("G1") == Square(6, 7)
    ensures TransformCoordinates("H1") == Square(7, 7) && TransformCoordinates("F1") == Square(5, 7)
    ensures TransformCoordinates("E8") == Square(4, 0) && TransformCoordinates("G8") == Square(6, 0)
    ensures TransformCoordinates("H8") == Square(7, 0) && TransformCoordinates("F8") == Square(5, 0)
  {
  }

  /** The two relocations of "castle": king E1 to G1 then rook H1 to F1 for white, the rank-8 squares otherwise. */
  function CastleCells(cells: seq<char>, activeColor: char): (r: seq<char>)
    requires |cells| == 64
    ensures |r| == 64
    ensures forall i :: 0 <= i < 64 && i / 8 != (if activeColor == 'w' then 7 else 0) ==> r[i] == cells[i]
  {
    CastleSquares();
    if activeColor == 'w' then
      Relocate(Relocate(cells, TransformCoordinates("E1"), TransformCoordinates("G1")),
               TransformCoordinates("H1"), TransformCoordinates("F1"))
    else
      Relocate(Relocate(cells, TransformCoordinates("E8"), TransformCoordinates("G8")),
               TransformCoordinates("H8"), TransformCoordinates("F8"))
  }

  /** The game after "castle": both relocations, the other side to move, the bookkeeping dropped. */
  function Castled(s: State): (r: State)
    requires |s.cells| == 64
  {
    State(CastleCells(s.cells, s.activeColor), Toggle(s.activeColor), None, None)
  }

  /**
   * `reducer` on game values. `defaultCells` is what the shared
   * `defaultPosition` array holds at the time of the call.
   */
  function Transition(s: State, defaultCells: seq<char>, segment: Segment): (r: State)
    requires |s.cells| == 64 && |defaultCells| == 64
    requires Defined(s.contextId, s.entityStartPosition, segment)
    ensures |r.cells| == 64
    ensures r.cells == s.cells || segment.intent in {Some("reset"), Some("castle")} ||
            (segment.intent == Some("move") && r.activeColor == Toggle(s.activeColor))
  {
    if segment.intent == Some("reset") then State(defaultCells, 'w', None, None)
    else if segment.intent == Some("move") then MoveTransition(s, segment)
    else if segment.intent == Some("capture") then s
    else if segment.intent == Some("castle") then Castled(s)
    else s
  }

  /** The "castle" branch on the shared board: two calls of `Move` on the same array. */
  method Castle(position: array2<char>, activeColor: char) returns (newPosition: array2<char>)
    requires position.Length0 == 8 && position.Length1 == 8
    modifies position
    ensures newPosition == position
    ensures Cells(position) == CastleCells(old(Cells(position)), activeColor)
  {
    if activeColor == 'w' {
      newPosition := Move(position, TransformCoordinates("E1"), TransformCoordinates("G1"));
      newPosition := Move(newPosition, TransformCoordinates("H1"), TransformCoordinates("F1"));
    } else {
      newPosition := Move(position, TransformCoordinates("E8"), TransformCoordinates("G8"));
      newPosition := Move(newPosition, TransformCoordinates("H8"), TransformCoordinates("F8"));
    }
  }

  /** The "move" branch on the shared board. */
  method ReduceMove(game: Game, segment: Segment) returns (next: Game)
    requires game.position.Length0 == 8 && game.position.Length1 == 8
    requires UsableFields(FormatEntities(SelectNewEntities(segment, game.contextId, game.entityStartPosition)))
    modifies game.position
    ensures next.position == game.position
    ensures Observe(next) == MoveTransition(old(Observe(game)), segment)
  {
    ghost var before := Observe(game);
    var entities := SelectNewEntities(segment, game.contextId, game.entityStartPosition);
    if |entities| == 0 {
      return game;
    }
    var fields := FormatEntities(entities);
    var piece, square := Lookup(fields, PieceKey), Lookup(fields, SquareKey);
    var lastPosition := Some(entities[|entities| - 1].startPosition);
    if piece.None? && square.None? {
      return game.(contextId := Some(segment.contextId), entityStartPosition := lastPosition);
    }
    if square.None? && Truthy(piece) {
      return game;
    }
    var code := PieceCode(piece, game.activeColor);
    var dst := TransformCoordinates(square.value);
    var selected := SelectPiece(Cells(game.position), code, dst.file, dst.rank);
    if selected.None? {
      return game;
    }
    assert MoveTransition(before, segment)
        == State(Relocate(before.cells, selected.value, dst), Toggle(game.activeColor), Some(segment.contextId), lastPosition);
    var position := Move(game.position, selected.value, dst);
    next := Game(position, Toggle(game.activeColor), Some(segment.contextId), lastPosition);
  }

  /**
   * `reducer` on the shared board: the returned game's board is the array
   * passed in (or `defaultPosition` after "reset"), never a copy, and its
   * value is the one `Transition` prescribes.
   */
  method Reduce(game: Game, segment: Segment, defaultPosition: array2<char>) returns (next: Game)
    requires game.position.Length0 == 8 && game.position.Length1 == 8
    requires defaultPosition.Length0 == 8 && defaultPosition.Length1 == 8
    requires Defined(game.contextId, game.entityStartPosition, segment)
    modifies game.position
    ensures next.position == if segment.intent == Some("reset") then defaultPosition else game.position
    ensures Observe(next) == Transition(old(Observe(game)), old(Cells(defaultPosition)), segment)
    ensures segment.intent == Some("reset") ==> Cells(game.position) == old(Cells(game.position))
  {
    if segment.intent.None? {
      return game;
    }
    var intent := segment.intent.value;
    if intent == "reset" {
      next := Game(defaultPosition, 'w', None, None);
    } else if intent == "move" {
      next := ReduceMove(game, segment);
    } else if intent == "capture" {
      next := game;
    } else if intent == "castle" {
      var position := Castle(game.position, game.activeColor);
      next := Game(position, Toggle(game.activeColor), None, None);
    } else {
      next := game;
    }
  }

  /**
   * The module-level state of src/index.js: the `defaultPosition` array and
   * the current `game`, advanced by one reducer step per segment update.
   * Every game refers to the one board array.
   */
  class App {
    const defaultPosition: array2<char>
    var game: Game

    ghost predicate Valid()
      reads this
    {
      defaultPosition.Length0 == 8 && defaultPosition.Length1 == 8 && game.position == defaultPosition
    }

    /** The initial game: the starting layout, white to move, no context, position 0. */
    constructor ()
      ensures Valid() && fresh(defaultPosition)
      ensures Observe(game) == State(InitialCells, 'w', None, Some(0))
    {
      var position := NewDefaultPosition();
      defaultPosition := position;
      game := Game(position, 'w', None, Some(0));
    }

    /** `game = reducer(game, segment)`. */
    method OnSegmentChange(segment: Segment)
      requires Valid()
      requires Defined(game.contextId, game.entityStartPosition, segment)
      modifies this, defaultPosition
      ensures Valid()
      ensures Observe(game) == Transition(old(Observe(game)), old(Cells(defaultPosition)), segment)
    {
      game := Reduce(game, segment, defaultPosition);
    }
  }
}
