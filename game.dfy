/**
 * The rules of one game session, stated on values: the state the session
 * keeps, what one turn (two picks and their resolution) does to it, the
 * invariant that holds whenever a turn is about to start, the result
 * message, and the snapshots each player is sent.
 */
module Game {
  import opened Board
  import opened Snapshot

  /** The session's state: the dealt faces, the face-up cells, who moves (1 or 2) and both scores. */
  datatype Game = Game(faces: seq<int>, revealed: seq<bool>, turn: int, score1: int, score2: int)

  /** The player who is not `player`. */
  function Other(player: int): (q: int)
    requires player == 1 || player == 2
    ensures (q == 1 || q == 2) && q != player
  {
    if player == 1 then 2 else 1
  }

  /** The score of `player` (1 or 2). */
  function ScoreOf(g: Game, player: int): int
  {
    if player == 1 then g.score1 else g.score2
  }

  /** Two cells with the same face are either both face up or both face down. */
  ghost predicate FaceClosed(faces: seq<int>, revealed: seq<bool>)
    requires |faces| == |revealed|
  {
    forall i, j | 0 <= i < |faces| && 0 <= j < |faces| && faces[i] == faces[j] :: revealed[i] == revealed[j]
  }

  /**
   * What holds each time a turn starts: a paired deck, one player holding the
   * turn, and the face-up cells are exactly the pairs found so far, two cells
   * per point scored.
   */
  ghost predicate TurnStart(g: Game)
  {
    && IsPairedDeck(g.faces)
    && |g.revealed| == BOARD_SIZE
    && (g.turn == 1 || g.turn == 2)
    && g.score1 >= 0 && g.score2 >= 0
    && CountRevealed(g.revealed) == 2 * (g.score1 + g.score2)
    && FaceClosed(g.faces, g.revealed)
  }

  /** The state of a fresh session over the dealt faces. */
  function Initial(faces: seq<int>): Game
  {
    Game(faces, seq(BOARD_SIZE, _ => false), 1, 0, 0)
  }

  /** A fresh session over a paired deck satisfies the turn-start invariant, with player 1 to move. */
  lemma InitialTurnStart(faces: seq<int>)
    requires IsPairedDeck(faces)
    ensures TurnStart(Initial(faces)) && Initial(faces).turn == 1
    ensures !AllRevealed(Initial(faces).revealed)
  {
    var g := Initial(faces);
    NoneRevealedCount(g.revealed);
    assert !g.revealed[0];
  }

  /** Two picks the session accepts: both cells on the board, distinct and face down. */
  ghost predicate ValidPicks(g: Game, first: int, second: int)
  {
    && 0 <= first < |g.revealed| && 0 <= second < |g.revealed|
    && first != second
    && !g.revealed[first] && !g.revealed[second]
  }

  /** Turning cell `i` face up. */
  function Reveal(g: Game, i: int): Game
    requires 0 <= i < |g.revealed|
  {
    g.(revealed := g.revealed[i := true])
  }

  /**
   * Resolving the two face-up picks: equal faces score a point for the mover,
   * who keeps the turn; different faces are turned back down and the turn passes.
   */
  function Resolve(g: Game, first: int, second: int): (r: Game)
    requires 0 <= first < |g.revealed| && 0 <= second < |g.revealed| && |g.faces| == |g.revealed|
    requires g.turn == 1 || g.turn == 2
    ensures r.faces == g.faces && |r.revealed| == |g.revealed| && (r.turn == 1 || r.turn == 2)
    // equal faces: a point for the mover, who moves again; the board stays as it is
    ensures g.faces[first] == g.faces[second] ==>
              && r.turn == g.turn && r.revealed == g.revealed
              && ScoreOf(r, g.turn) == ScoreOf(g, g.turn) + 1
              && ScoreOf(r, Other(g.turn)) == ScoreOf(g, Other(g.turn))
    // different faces: both picks face down again, no other cell changes, the turn passes, no points
    ensures g.faces[first] != g.faces[second] ==>
              && r.turn == Other(g.turn) && r.score1 == g.score1 && r.score2 == g.score2
              && !r.revealed[first] && !r.revealed[second]
              && (forall k | 0 <= k < |g.revealed| && k != first && k != second :: r.revealed[k] == g.revealed[k])
  {
    if g.faces[first] == g.faces[second] then
      if g.turn == 1 then g.(score1 := g.score1 + 1) else g.(score2 := g.score2 + 1)
    else
      g.(revealed := g.revealed[first := false][second := false], turn := Other(g.turn))
  }

  /** One whole turn: reveal the first pick, reveal the second, resolve. */
  function TakeTurn(g: Game, first: int, second: int): (r: Game)
    requires |g.faces| == |g.revealed| && (g.turn == 1 || g.turn == 2)
    requires ValidPicks(g, first, second)
    ensures r.faces == g.faces && |r.revealed| == |g.revealed|
    // a match: a point for the mover, both cells stay up, nothing else changes
    ensures g.faces[first] == g.faces[second] ==>
              && r.turn == g.turn
              && ScoreOf(r, g.turn) == ScoreOf(g, g.turn) + 1
              && ScoreOf(r, Other(g.turn)) == ScoreOf(g, Other(g.turn))
              && r.revealed[first] && r.revealed[second]
              && (forall k | 0 <= k < |g.revealed| && k != first && k != second :: r.revealed[k] == g.revealed[k])
    // a mismatch: the board is as before the turn, the turn passes, the scores stay
    ensures g.faces[first] != g.faces[second] ==>
              && r.revealed == g.revealed
              && r.turn == Other(g.turn)
              && r.score1 == g.score1 && r.score2 == g.score2
    // in both cases: cells already up stay up and scores never fall
    ensures forall k | 0 <= k < |g.revealed| && g.revealed[k] :: r.revealed[k]
    ensures r.score1 >= g.score1 && r.score2 >= g.score2
  {
    var r := Resolve(Reveal(Reveal(g, first), second), first, second);
    assert g.faces[first] != g.faces[second] ==> r.revealed == g.revealed by {
      if g.faces[first] != g.faces[second] {
        assert r.revealed == g.revealed[first := true][second := true][first := false][second := false];
      }
    }
    r
  }

  /** Every turn that starts from the turn-start invariant ends in it again. */
  lemma TakeTurnKeepsTurnStart(g: Game, first: int, second: int)
    requires TurnStart(g) && ValidPicks(g, first, second)
    ensures TurnStart(TakeTurn(g, first, second))
  {
    var r := TakeTurn(g, first, second);
    if g.faces[first] == g.faces[second] {
      assert r.revealed == g.revealed[first := true][second := true];
      RevealOneCount(g.revealed, first);
      RevealOneCount(g.revealed[first := true], second);
      forall i, j | 0 <= i < |g.faces| && 0 <= j < |g.faces| && g.faces[i] == g.faces[j]
        ensures r.revealed[i] == r.revealed[j]
      {
        if g.faces[i] == g.faces[first] {
          PartnerUnique(g.faces, first, second, i);
          PartnerUnique(g.faces, first, second, j);
        }
      }
    }
  }

  /** When every cell is face up, all NUM_PAIRS pairs have been scored between the two players. */
  lemma FinishedScores(g: Game)
    requires TurnStart(g) && AllRevealed(g.revealed)
    ensures g.score1 + g.score2 == NUM_PAIRS
  {
    AllRevealedCount(g.revealed);
  }

  /** While some cell is face down there is a matching pair of face-down cells to pick: the game can always end. */
  lemma UnfinishedHasPair(g: Game) returns (first: int, second: int)
    requires TurnStart(g) && !AllRevealed(g.revealed)
    ensures ValidPicks(g, first, second) && g.faces[first] == g.faces[second]
  {
    first :| 0 <= first < |g.revealed| && !g.revealed[first];
    second := PartnerExists(g.faces, first);
  }

  /** The result message of a finished game. */
  function Winner(score1: int, score2: int): (r: string)
    ensures r == "Player 1 Wins" <==> score1 > score2
    ensures r == "Player 2 Wins" <==> score2 > score1
    ensures r == "Draw" <==> score1 == score2
  {
    if score1 > score2 then "Player 1 Wins"
    else if score2 > score1 then "Player 2 Wins"
    else "Draw"
  }

  /** The snapshot of `g` addressed to a player who moves next iff `yourTurn`. */
  function SnapshotOf(g: Game, yourTurn: bool, message: string): BoardState
  {
    Blank().(imageId := Some(g.faces), revealed := Some(g.revealed), yourTurn := yourTurn,
             gameOver := false, message := Some(message), score1 := g.score1, score2 := g.score2)
  }

  /** The final snapshot: nobody moves, the game is over, the message is the result. */
  function GameOverSnapshot(g: Game, message: string): BoardState
  {
    SnapshotOf(g, false, message).(gameOver := true)
  }

  /** The "Your turn" prompt `player` gets at the start of a turn: only the mover gets one. */
  function PromptFor(g: Game, player: int): seq<BoardState>
  {
    if g.turn == player then [SnapshotOf(g, true, "Your turn")] else []
  }

  /**
   * What `player` is sent while the mover picks: the prompt if it is
   * theirs, then the board after each pick.
   */
  function PickSnapshots(g: Game, first: int, second: int, player: int): seq<BoardState>
    requires 0 <= first < |g.revealed| && 0 <= second < |g.revealed|
  {
    var picked1 := Reveal(g, first);
    var picked2 := Reveal(picked1, second);
    PromptFor(g, player)
    + [SnapshotOf(picked1, g.turn == player, "First card chosen")]
    + [SnapshotOf(picked2, g.turn == player, "Second card chosen")]
  }

  /** A turn that stops part-way leaves the board as the prompt found it, with the first pick face up if one was accepted. */
  function PartialTurn(g: Game, shown: Option<int>): Game
    requires shown.Some? ==> 0 <= shown.value < |g.revealed|
  {
    if shown.Some? then Reveal(g, shown.value) else g
  }

  /**
   * What `player` is sent during a turn that stops part-way: the prompt if it
   * is theirs, then the board after the first pick if one was accepted.
   */
  function PartialSnapshots(g: Game, shown: Option<int>, player: int): seq<BoardState>
    requires shown.Some? ==> 0 <= shown.value < |g.revealed|
  {
    PromptFor(g, player)
    + (if shown.Some? then [SnapshotOf(Reveal(g, shown.value), g.turn == player, "First card chosen")] else [])
  }

  /**
   * A turn that stops part-way never leaves every cell face up: at the
   * start of a turn an even number of cells is up, and at most one more
   * is turned.
   */
  lemma PartialTurnUnfinished(g: Game, shown: Option<int>)
    requires TurnStart(g) && !AllRevealed(g.revealed)
    requires shown.Some? ==> 0 <= shown.value < |g.revealed| && !g.revealed[shown.value]
    ensures !AllRevealed(PartialTurn(g, shown).revealed)
  {
    if shown.Some? {
      RevealOneCount(g.revealed, shown.value);
      AllRevealedCount(PartialTurn(g, shown).revealed);
    }
  }

  /** Appending a snapshot to a log that already ends in `pieces` extends those pieces. */
  lemma AppendOne<T>(log: seq<T>, pieces: seq<T>, a: T)
    ensures log + pieces + [a] == log + (pieces + [a])
  {
  }

  /** Appending a log's next pieces and then the rest appends them together. */
  lemma AppendAssoc<T>(log: seq<T>, pieces: seq<T>, rest: seq<T>)
    ensures log + pieces + rest == log + (pieces + rest)
  {
  }

  /** Appending pieces to a log one at a time appends their concatenation. */
  lemma AppendPieces<T>(log: seq<T>, pieces: seq<T>, a: T, b: T)
    ensures log + pieces + [a] + [b] == log + (pieces + [a] + [b])
  {
  }

  /** What `player` is sent during one whole turn: the picks, then the board after the resolution. */
  function TurnSnapshots(g: Game, first: int, second: int, player: int): seq<BoardState>
    requires |g.faces| == |g.revealed| && (g.turn == 1 || g.turn == 2)
    requires ValidPicks(g, first, second)
  {
    var resolved := TakeTurn(g, first, second);
    PickSnapshots(g, first, second, player) + [SnapshotOf(resolved, resolved.turn == player, "Turn resolved")]
  }

  /**
   * During a turn exactly one player is prompted, and the two players are sent
   * the same boards, scores and messages, differing only in who may move.
   */
  lemma TurnSnapshotsAgree(g: Game, first: int, second: int)
    requires |g.faces| == |g.revealed| && (g.turn == 1 || g.turn == 2)
    requires ValidPicks(g, first, second)
    ensures |TurnSnapshots(g, first, second, g.turn)| == 4
    ensures |TurnSnapshots(g, first, second, Other(g.turn))| == 3
    ensures TurnSnapshots(g, first, second, g.turn)[0].message == Some("Your turn")
    ensures forall k | 0 <= k < 3 ::
              && TurnSnapshots(g, first, second, g.turn)[k + 1].yourTurn != TurnSnapshots(g, first, second, Other(g.turn))[k].yourTurn
              && TurnSnapshots(g, first, second, g.turn)[k + 1].(yourTurn := false)
                 == TurnSnapshots(g, first, second, Other(g.turn))[k].(yourTurn := false)
    ensures forall p, k | 0 <= k < |TurnSnapshots(g, first, second, p)| :: !TurnSnapshots(g, first, second, p)[k].gameOver
  {
  }
}
