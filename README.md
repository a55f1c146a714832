# Voice chess reducer — a Dafny model

This project models the game-state reducer of the speech-to-chess demo
(`src/index.js`). A speech recogniser sends "segments": an optional intent
(`reset`, `move`, `capture`, `castle` or anything else) and a list of
entities such as (piece, `KNIGHT`) and (square, `F3`). The reducer turns the
current game (an 8×8 character board, the side to move and the recognition
bookkeeping) and one segment into the next game.

Modules, one per component of the source file:

- `Board` (`board.dfy`): square names and grid indices (`TransformCoordinates`),
  the starting layout (`defaultPosition`), and `Move`, which relocates one piece
  **in place** on an `array2<char>` and returns the same array. The board's
  contents are read as 64 row-major cells (`Cells`), and `Relocate` is the
  value-level effect of a move.
- `Validator` (`validator.dfy`): `IsCorrectMove`, the per-piece geometric rule,
  and `SelectPiece`, the row-major scan for the first square holding the exact
  piece code that passes the rule.
- `Entities` (`entities.dfy`): `FormatEntities` (fold into a record keyed by
  entity type, last one wins) and `SelectNewEntities` (skip the entities of the
  current context that were already consumed).
- `Reducer` (`reducer.dfy`): `Transition`, the reducer on game values, and
  `Reduce`, the reducer on the shared board array. `Reduce` is proved to agree
  with `Transition`. The `App` class holds the module-level `defaultPosition`
  and `game`. Its `OnSegmentChange` performs one `game = reducer(game, segment)`
  step and keeps the invariant that every game refers to the one board array.
- `GameProperties` (`properties.dfy`): the reducer's promises as lemmas about
  `Transition`.

Points where the code's behaviour may surprise a reader, all of which the model keeps:

- **The board is shared.** One might expect a fresh board per game state; the
  code writes into the one `defaultPosition` array, and "reset" hands back that
  same array. So "reset" gives white the move but does not restore the
  starting layout (`ResetAfterMoveKeepsMovedBoard`).
- The entity types the code reads are the keys `piece` and `square`.
- Segments are applied whether final or not, because `isFinal` is never read.
- "reset" and "castle" drop `contextId` and `entityStartPosition`.
- A piece named without a square does not advance the bookkeeping.
- An invalid square is not caught. The model excludes it with a precondition
  instead of reporting an error.

JavaScript details modelled explicitly:

- `null` and a missing field are both `None`.
- "reset" and "castle" drop `contextId`, so every entity of the next segment
  counts as new (`ResetOrCastleForgetsContext`), and a re-delivered "castle"
  castles again (`CastleReplayCastlesAgain`). With string context ids the
  `x > undefined` case of the filter (always false) is never reached.
- The piece value is tested for truthiness. An empty piece name with a square
  means a pawn.
- `indexOf` returns -1 when the letter is absent.

## Model

| member | source | states |
|---|---|---|
| `Board.IndexOf` | src/index.js:82 | `indexOf`: -1 exactly when the letter is absent, otherwise its first position |
| `Board.TransformCoordinates` | src/index.js:81-84 | a square name maps onto the board: file = position of the letter in `A`..`H` (case-sensitive), rank = 8 − digit |
| `Board.SquareToNameToSquare` | src/index.js:73-84 | every on-board square is recovered from its two-character name (round trip) |
| `Board.NameToSquareToName` | src/index.js:73-84 | the name rebuilt from the coordinates is the first two characters of the token (characters after the second are ignored) |
| `Board.TransformExamples` | src/index.js:81-84 | `E4` → (file 4, rank 4), `E1` → (4, 7), `A8` → (0, 0), `H1` → (7, 7) |
| `Board.NewDefaultPosition` | src/index.js:32-41 | a fresh 8×8 board holding the starting layout |
| `Board.FileLettersDistinct` | src/index.js:73 | the file letters `A`..`H` are distinct, so each letter names one file |
| `Board.InitialPiece` | src/index.js:32-41 | the starting layout: black pieces (lower case) only on rank indices 0 and 1, white (upper case) only on 6 and 7, and a piece exactly on those four ranks |
| `Board.Relocate` | src/index.js:65-71 | after a move, the destination holds the source's piece, the source is `.` unless it is the destination, and every other cell is unchanged |
| `Board.Move` | src/index.js:65-71 | `move` writes the board in place and returns the very array it was given, whose new contents are `Relocate` of the old |
| `Validator.ToUpper` | src/index.js:210 | upper-casing maps `a`..`z` to `A`..`Z` and leaves other characters alone (its partners are the two lemmas below) |
| `Validator.ToLower` | src/index.js:156 | lower-casing maps `A`..`Z` to `a`..`z` and leaves other characters alone (its partners are the two lemmas below) |
| `Validator.CaseFollowsAlphabet` | src/index.js:156 | upper-casing the i-th lower-case letter gives the i-th capital, and lower-casing gives it back (also line 210) |
| `Validator.CaseRoundTrip` | src/index.js:210 | lower-casing undoes upper-casing on `a`..`z` and vice versa on `A`..`Z` (also line 156) |
| `Validator.IsCorrectMove` | src/index.js:206-222 | only a pawn, knight, bishop or rook code of either colour can pass the rule; each of the four tests is given a geometric form by `PawnStaysOnFile`, `KnightIsLShape`, `BishopIsDiagonal` and `RookIsStraight` |
| `Validator.PawnStaysOnFile` | src/index.js:211-212 | a pawn's test holds iff the destination is on its file and at most two ranks away in either direction, staying put included |
| `Validator.BishopIsDiagonal` | src/index.js:215-216 | a bishop's test holds iff the destination lies on one of the two diagonals through the source |
| `Validator.RookIsStraight` | src/index.js:217-218 | a rook's test holds iff the destination shares the source's rank or its file |
| `Validator.FindFrom` | src/index.js:195-199 | the scan from position `from` returns the first qualifying square at or after it, and `None` exactly when none qualifies |
| `Validator.SelectPiece` | src/index.js:194-200 | the result holds exactly the piece code and passes the rule, no earlier square in row-major order qualifies, and `None` iff no square qualifies |
| `Validator.SelectPieceUnique` | src/index.js:194-200 | when exactly one square qualifies it is the one chosen |
| `Validator.RuleIgnoresColour` | src/index.js:210 | the rule gives the same answer for a black code as for the white one |
| `Validator.KnightIsLShape` | src/index.js:213-214 | the knight's test holds iff the move is one step one way and two the other |
| `Validator.RuleIsSymmetric` | src/index.js:206-222 | the rule is symmetric in source and destination |
| `Validator.QueenAndKingNeverFound` | src/index.js:219-220 | no square is ever found for a queen or a king |
| `Entities.FormatEntities` | src/index.js:100-104 | the last entity's type is a key of the record, holding that entity's value; the rest is stated by the lemmas below |
| `Entities.FormatKeys` | src/index.js:100-104 | the formatted record has a key for exactly the entity types that occur |
| `Entities.FormatLastWins` | src/index.js:100-104 | each type's value is the value of the last entity of that type |
| `Entities.FormatAppend` | src/index.js:100-104 | formatting a concatenation is the union of the two records, with the later batch winning |
| `Entities.Newer` | src/index.js:115-116 | an entity is kept iff it is in the input and starts after the last consumed position; a missing position keeps nothing |
| `Entities.KeptIndicesSpec` | src/index.js:115-116 | the kept positions are in range, strictly increasing, and are exactly those whose entity starts after the last consumed position |
| `Entities.NewerKeepsOrder` | src/index.js:115-116 | the filter's result is the input read at the kept positions (which `KeptIndicesSpec` characterises), so it keeps the original order |
| `Entities.SelectNewEntities` | src/index.js:110-117 | a segment from another context yields all its entities; in the same context, exactly the entities after the last consumed position |
| `Entities.NewerEndsWithLast` | src/index.js:115-116 | with ascending positions, a non-empty result ends with the segment's last entity |
| `Entities.NothingNewerThanMaximum` | src/index.js:115-116 | nothing is new once the consumed position is at least every entity's position |
| `Reducer.Toggle` | src/index.js:166 | the side to move is always `w` or `b`, and toggling changes it |
| `Reducer.PieceCode` | src/index.js:151-156 | the code's letter is that of the spoken name, or `P` when none is given; it is lower case iff black is to move |
| `Reducer.PieceTable` | src/index.js:86-93 | the table names the six pieces, each by a distinct letter of `PNBRQK` |
| `Reducer.MoveTransition` | src/index.js:135-169 | a "move" on game values either leaves the game unchanged or records the segment's context; the board changes only together with the colour toggle; the move cases are stated in `GameProperties` |
| `Reducer.CastleSquares` | src/index.js:172-179 | the castle squares lie on rank index 7 (E1, F1, G1, H1) and 0 (E8, F8, G8, H8) |
| `Reducer.CastleCells` | src/index.js:172-180 | castling leaves every rank other than the mover's back rank untouched; `CastleWhite` and `CastleBlack` state the full effect |
| `Reducer.Transition` | src/index.js:123-188 | the reducer on game values: the board changes only on "reset", "castle", or a "move" that also toggles the colour; each case is stated in `GameProperties` |
| `Reducer.Castle` | src/index.js:172-180 | castling relocates twice on the same array: E1→G1 then H1→F1 for white, E8→G8 then H8→F8 otherwise |
| `Reducer.ReduceMove` | src/index.js:135-169 | the "move" branch on the shared array agrees with `MoveTransition` and keeps the same array |
| `Reducer.Reduce` | src/index.js:123-188 | the reducer on the shared array agrees with `Transition`; the result's board is the array passed in, or `defaultPosition` after "reset", never a copy; "reset" writes no cell |
| `Reducer.App.constructor` | src/index.js:32-48 | the initial game: starting layout, white to move, no context, position 0, with the game's board the `defaultPosition` array |
| `Reducer.App.OnSegmentChange` | src/index.js:27-30 | one `game = reducer(game, segment)` step, which keeps the game's board the `defaultPosition` array |
| `GameProperties.ResetYieldsWhiteToMove` | src/index.js:129-134 | "reset" yields white to move on the shared starting array, with no context or position |
| `GameProperties.IgnoredIntentsChangeNothing` | src/index.js:124-126 | no intent, "capture" or an unknown intent leave the game unchanged (also lines 170-171 and 185-186) |
| `GameProperties.MoveWithoutNewEntitiesChangesNothing` | src/index.js:136-138 | a "move" with no new entities leaves the game unchanged |
| `GameProperties.MoveWithNothingActionableAdvancesBookkeeping` | src/index.js:140-146 | a "move" with neither piece nor square only records the context and the last new entity's position |
| `GameProperties.MoveWithoutSquareChangesNothing` | src/index.js:147-149 | a piece without a square leaves the game unchanged, bookkeeping included |
| `GameProperties.MoveWithoutCandidateChangesNothing` | src/index.js:157-163 | when no square qualifies as the source the game is unchanged |
| `GameProperties.QueenOrKingMoveChangesNothing` | src/index.js:151-163 | naming a queen or a king never changes the game |
| `GameProperties.MoveRelocatesFirstCandidate` | src/index.js:151-169 | a resolved move puts the piece on the destination and empties the first qualifying source; nothing else changes; the colour toggles; context and position are recorded |
| `GameProperties.CastleWhite` | src/index.js:172-184 | white's castle on any board: G1 takes E1's piece and F1 takes H1's; E1 and H1 are emptied; the rest is unchanged; black is to move; bookkeeping is dropped |
| `GameProperties.CastleBlack` | src/index.js:172-184 | the same on rank 8 when the side to move is not `w`, then white is to move |
| `GameProperties.ColourStaysWhiteOrBlack` | src/index.js:123-188 | the side to move stays `w` or `b`, and only "reset", "move" or "castle" change it |
| `GameProperties.MoveReplayIsIgnored` | src/index.js:110-117 | with ascending entity positions, re-delivering a "move" segment changes nothing more (the move is idempotent; also lines 135-169) |
| `GameProperties.InitialWhitePawns` | src/index.js:32-41 | the starting layout's white pawns all stand on rank index 6 |
| `GameProperties.PawnToE4Fields` | src/index.js:100-117 | the opening segment's entities are all new and format to pawn and E4 |
| `GameProperties.OnlyE2PawnReachesE4` | src/index.js:194-222 | on the starting layout the pawn found for E4 is the one on E2 |
| `GameProperties.OpeningPawnMove` | src/index.js:135-169 | from the start, "pawn E4" moves E2 to E4, black is to move, and context and position are recorded |
| `GameProperties.ResetAfterMoveKeepsMovedBoard` | src/index.js:129-134 | after that move, "reset" leaves the pawn on E4: the starting layout is not restored |
| `GameProperties.ResetOrCastleForgetsContext` | src/index.js:110-117 | after "reset" or "castle" every entity of the next segment counts as new (also lines 129-134 and 181-184) |
| `GameProperties.CastleStep` | src/index.js:172-184 | one castle step is `Reducer.Castled`: both relocations, the other side to move, bookkeeping dropped |
| `GameProperties.CastleReplayCastlesAgain` | src/index.js:172-184 | re-delivering a "castle" segment castles again, for the other side, and gives the move back to the first side |
| `GameProperties.ResetAfterMoveOnApp` | src/index.js:27-48 | on the `App` object, the opening pawn move then "reset" leaves the pawn on E4 and E2 empty in `defaultPosition` |
| `GameProperties.CastleFromStart` | src/index.js:172-184 | from the start, white's castle leaves the king on G1 and the rook on F1, empties E1 and H1, and gives black the move |

## Left out

- Speech client setup and microphone control (src/index.js:1-20): a foreign library and asynchronous I/O.
- `window.onload` and the mouse wiring (src/index.js:22-25): DOM events. Only the reducer step of the segment callback is modelled.
- `renderBoard` (src/index.js:53-60): HTML rendering.
- The `console.log` and `console.error` diagnostics (src/index.js:159, 161): logging with no effect on the game.
- Squares outside `A1`..`H8` and lower-case squares: depending on the board, the source writes to index -1, throws, or finds no candidate and ignores the command (a file letter outside `A`..`H` gives file -1, which no pawn's file equals). `Reducer.Defined` excludes them.
- Unknown piece names: the source throws when black is to move and finds nothing when white is. `Reducer.Defined` excludes both cases.
- A missing square with an empty piece name: the source fails on the missing square. This is excluded too.
- Non-ASCII piece codes: `Validator.ToUpper` and `Validator.ToLower` handle only ASCII letters, which is all the piece table produces.
- Non-string context ids: the loose `!=` is modelled only for strings and `null`.
- `isFinal` and partial/final policies: the source never reads them.
- Full chess legality (check, blocking, whose piece is captured): the source has none.
