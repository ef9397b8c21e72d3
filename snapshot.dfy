/**
 * BoardState: the serializable snapshot of the game that the session sends
 * to each player after every change. Arrays and the message are references
 * in the source and may be null; `None` stands for that null.
 */
module Snapshot {

  datatype Option<+T> = None | Some(value: T)

  datatype BoardState = BoardState(
    imageId: Option<seq<int>>,   // the face under every cell, in cell order
    revealed: Option<seq<bool>>, // which cells are face up
    yourTurn: bool,              // the recipient moves next
    gameOver: bool,              // the session has ended with a result
    message: Option<string>,     // status text shown to the recipient
    score1: int,                 // pairs found by player 1
    score2: int                  // pairs found by player 2
  )

  /** The no-argument constructor: every field keeps its default (null arrays and message, false, 0). */
  function Blank(): (s: BoardState)
    ensures s.imageId.None? && s.revealed.None? && s.message.None?
    ensures !s.yourTurn && !s.gameOver && s.score1 == 0 && s.score2 == 0
  {
    BoardState(None, None, false, false, None, 0, 0)
  }

  /**
   * The full constructor. Both arrays are copied element by element, so the
   * snapshot holds values of its own; the scores are never assigned and keep
   * their default 0.
   */
  function Create(imageId: array<int>, revealed: array<bool>, yourTurn: bool, gameOver: bool, message: Option<string>)
    : (s: BoardState)
    reads imageId, revealed
    ensures s.imageId.Some? && |s.imageId.value| == imageId.Length
    ensures forall i | 0 <= i < imageId.Length :: s.imageId.value[i] == imageId[i]
    ensures s.revealed.Some? && |s.revealed.value| == revealed.Length
    ensures forall i | 0 <= i < revealed.Length :: s.revealed.value[i] == revealed[i]
    ensures s.yourTurn == yourTurn && s.gameOver == gameOver && s.message == message
    ensures s.score1 == 0 && s.score2 == 0
  {
    Blank().(imageId := Some(imageId[..]), revealed := Some(revealed[..]),
             yourTurn := yourTurn, gameOver := gameOver, message := message)
  }

  /**
   * A snapshot made by the full constructor does not follow later writes to
   * the arrays it was made from: after the caller overwrites one cell of its
   * face array and one cell of its revealed array, the snapshot still holds
   * the contents from before.
   */
  method WriteAfterCreate(imageId: array<int>, revealed: array<bool>, yourTurn: bool, gameOver: bool,
                          message: Option<string>, i: int, face: int, j: int, shown: bool)
    returns (s: BoardState)
    requires 0 <= i < imageId.Length && 0 <= j < revealed.Length
    modifies imageId, revealed
    ensures imageId[i] == face && revealed[j] == shown
    ensures s.imageId == Some(old(imageId[..])) && s.revealed == Some(old(revealed[..]))
  {
    s := Create(imageId, revealed, yourTurn, gameOver, message);
    imageId[i] := face;
    revealed[j] := shown;
  }
}
