/**
 * CardGameWithTwoClients: the authoritative session between two players.
 * It deals the board, reads picks from the player whose turn it is,
 * resolves each turn, and writes a snapshot to each player after every
 * change. The two connections are modelled by their contents: `in1`/`in2`
 * are the objects each player sends, of which the session has read the
 * first `read1`/`read2`, and `out1`/`out2` are the snapshots written to each
 * player, in order.
 */
module Session {
  import opened Board
  import opened Snapshot
  import opened Game

  /** One object read from a player's input stream: an Integer, or anything else (including null). */
  datatype Incoming = Integer(value: int) | NotInteger

  /**
   * What one call of GetValidIndex does: accept a pick, meet an Integer off
   * the board, or reach the end of the stream. `next` is the stream position
   * just after the last object read.
   */
  datatype Read = Accepted(index: int, next: nat) | OutOfBounds(index: int, next: nat) | EndOfStream

  /** Why a session stops before the game is over. */
  datatype Abort =
    | StreamClosed                  // reading a pick failed: the connection is closed
    | IndexOutOfBounds(index: int)  // an Integer off the board reached the revealed-array lookup

  datatype TurnOutcome = Resolved | TurnAborted(cause: Abort)

  datatype SessionEnd = Finished(winner: string) | Aborted(cause: Abort)

  /** An object GetValidIndex reads past: not an Integer, or a cell on the board that is already face up. */
  predicate Skipped(obj: Incoming, revealed: seq<bool>)
  {
    !obj.Integer? || (0 <= obj.value < |revealed| && revealed[obj.value])
  }

  /** No snapshot in `log` announces the end of the game. */
  ghost predicate Ongoing(log: seq<BoardState>)
  {
    forall k | 0 <= k < |log| :: !log[k].gameOver
  }

  /** A log that ends with the game-over snapshot of `g` announcing `winner`, the only one marked game over. */
  ghost predicate Announced(log: seq<BoardState>, g: Game, winner: string)
  {
    |log| > 0 && Ongoing(log[..|log| - 1]) && log[|log| - 1] == GameOverSnapshot(g, winner)
  }

  /**
   * The pick a read of `stream` from position `from` yields: the first object
   * that is not read past decides it. An Integer naming a face-down cell is
   * accepted, an Integer off the board stops the read, and running out of
   * objects ends it.
   */
  function NextPick(stream: seq<Incoming>, from: nat, revealed: seq<bool>): (r: Read)
    requires from <= |stream|
    ensures !r.EndOfStream? ==> from < r.next <= |stream| && stream[r.next - 1] == Integer(r.index)
    ensures r.Accepted? ==> 0 <= r.index < |revealed| && !revealed[r.index]
    ensures r.OutOfBounds? ==> !(0 <= r.index < |revealed|)
    decreases |stream| - from
  {
    if from == |stream| then EndOfStream
    else if stream[from].Integer? && !(0 <= stream[from].value < |revealed|) then
      OutOfBounds(stream[from].value, from + 1)
    else if stream[from].Integer? && !revealed[stream[from].value] then
      Accepted(stream[from].value, from + 1)
    else
      NextPick(stream, from + 1, revealed)
  }

  /**
   * Everything a read of the stream passes over before it stops is read past
   * for good reason (not an Integer, or a face-up cell); a read that finds
   * nothing has read past the whole rest of the stream.
   */
  lemma {:induction false} NextPickSkips(stream: seq<Incoming>, from: nat, revealed: seq<bool>)
    requires from <= |stream|
    ensures NextPick(stream, from, revealed).EndOfStream? ==>
              forall k | from <= k < |stream| :: Skipped(stream[k], revealed)
    ensures !NextPick(stream, from, revealed).EndOfStream? ==>
              forall k | from <= k < NextPick(stream, from, revealed).next - 1 :: Skipped(stream[k], revealed)
    decreases |stream| - from
  {
    if from < |stream| {
      NextPickSkips(stream, from + 1, revealed);
    }
  }

  /** The stream position after a read: just past its last object, or the end when the stream ran out. */
  function After(stream: seq<Incoming>, r: Read): nat
  {
    if r.EndOfStream? then |stream| else r.next
  }

  /** Why a read that accepted nothing ends the session. */
  function AbortOf(r: Read): Abort
    requires !r.Accepted?
  {
    if r.EndOfStream? then StreamClosed else IndexOutOfBounds(r.index)
  }

  /**
   * What the mover's stream supplies for one turn: two picks, or the reason
   * the session stops (with the first pick, if it was accepted before the
   * second read failed), and where the reading ended.
   */
  datatype TurnRead = Picked(first: int, second: int, next: nat) | Failed(cause: Abort, shown: Option<int>, next: nat)

  /**
   * The two picks of one turn read from `stream` at `from`: the first read
   * sees the board as it is, the second sees the first pick face up.
   */
  function ReadTurn(stream: seq<Incoming>, from: nat, revealed: seq<bool>): (t: TurnRead)
    requires from <= |stream|
    ensures from <= t.next <= |stream|
    ensures t.Picked? ==>
              && 0 <= t.first < |revealed| && 0 <= t.second < |revealed|
              && t.first != t.second && !revealed[t.first] && !revealed[t.second]
              && from + 2 <= t.next
    ensures t.Failed? && t.shown.Some? ==>
              0 <= t.shown.value < |revealed| && !revealed[t.shown.value] && from < t.next
    ensures t.Failed? && t.cause == StreamClosed ==> t.next == |stream|
    ensures t.Failed? && t.cause.IndexOutOfBounds? ==> !(0 <= t.cause.index < |revealed|)
  {
    var pick1 := NextPick(stream, from, revealed);
    if !pick1.Accepted? then Failed(AbortOf(pick1), None, After(stream, pick1))
    else
      var pick2 := NextPick(stream, pick1.next, revealed[pick1.index := true]);
      if !pick2.Accepted? then Failed(AbortOf(pick2), Some(pick1.index), After(stream, pick2))
      else Picked(pick1.index, pick2.index, pick2.next)
  }

  /**
   * Where the session loop stands when it stops: the final game state, how
   * far each stream was read, the reason it stopped early, if it did, and
   * the snapshots it sent each player on the way.
   */
  datatype Played = Played(game: Game, read1: nat, read2: nat, stop: Option<Abort>, log1: seq<BoardState>, log2: seq<BoardState>)
  {
    /** The same end, whatever was sent on the way. */
    predicate SameEnd(q: Played)
    {
      game == q.game && read1 == q.read1 && read2 == q.read2 && stop == q.stop
    }
  }

  /**
   * A turn from `g` that stops part-way as `t` says: the session ends with
   * the first pick, if accepted, face up, and the prompt and that pick's
   * snapshot sent.
   */
  ghost function Stopped(g: Game, t: TurnRead, read1: nat, read2: nat): (p: Played)
    requires TurnStart(g) && !AllRevealed(g.revealed) && t.Failed?
    requires t.shown.Some? ==> 0 <= t.shown.value < |g.revealed| && !g.revealed[t.shown.value]
    ensures p.game.faces == g.faces && |p.game.revealed| == |g.revealed|
    ensures p.game.turn == g.turn && p.game.score1 == g.score1 && p.game.score2 == g.score2
    ensures !AllRevealed(p.game.revealed)
    ensures p.stop == Some(t.cause) && p.read1 == read1 && p.read2 == read2
  {
    PartialTurnUnfinished(g, t.shown);
    Played(PartialTurn(g, t.shown), read1, read2, Some(t.cause),
           PartialSnapshots(g, t.shown, 1), PartialSnapshots(g, t.shown, 2))
  }

  /**
   * The session loop played from game `g` on the two streams, read from
   * `read1` and `read2`: while a cell is face down the mover's stream
   * supplies a turn, which is played, or the session stops part-way through
   * that turn. Each turn sends each player that turn's snapshots.
   */
  ghost function PlayFrom(g: Game, in1: seq<Incoming>, in2: seq<Incoming>, read1: nat, read2: nat): (p: Played)
    requires TurnStart(g) && read1 <= |in1| && read2 <= |in2|
    ensures p.game.faces == g.faces && |p.game.revealed| == BOARD_SIZE && (p.game.turn == 1 || p.game.turn == 2)
    ensures read1 <= p.read1 <= |in1| && read2 <= p.read2 <= |in2|
    ensures p.game.score1 >= g.score1 && p.game.score2 >= g.score2
    // the loop ends normally exactly when every cell is up
    ensures p.stop.None? ==> AllRevealed(p.game.revealed) && TurnStart(p.game)
    ensures p.stop.Some? ==> !AllRevealed(p.game.revealed)
    ensures p.stop == Some(StreamClosed) ==> (if p.game.turn == 1 then p.read1 == |in1| else p.read2 == |in2|)
    ensures p.stop.Some? && p.stop.value.IndexOutOfBounds? ==> !(0 <= p.stop.value.index < BOARD_SIZE)
    decreases (|in1| - read1) + (|in2| - read2)
  {
    if AllRevealed(g.revealed) then Played(g, read1, read2, None, [], [])
    else
      var t := ReadTurn(if g.turn == 1 then in1 else in2, if g.turn == 1 then read1 else read2, g.revealed);
      var next1 := if g.turn == 1 then t.next else read1;
      var next2 := if g.turn == 2 then t.next else read2;
      if t.Failed? then Stopped(g, t, next1, next2)
      else
        TakeTurnKeepsTurnStart(g, t.first, t.second);
        var rest := PlayFrom(TakeTurn(g, t.first, t.second), in1, in2, next1, next2);
        rest.(log1 := TurnSnapshots(g, t.first, t.second, 1) + rest.log1,
              log2 := TurnSnapshots(g, t.first, t.second, 2) + rest.log2)
  }

  /** A mover whose stream has nothing left to read stops the session, with nothing changed and only the prompt sent. */
  lemma SilentMoverStops(g: Game, in1: seq<Incoming>, in2: seq<Incoming>, read1: nat, read2: nat)
    requires TurnStart(g) && !AllRevealed(g.revealed)
    requires read1 <= |in1| && read2 <= |in2|
    requires if g.turn == 1 then read1 == |in1| else read2 == |in2|
    ensures PlayFrom(g, in1, in2, read1, read2)
            == Played(g, read1, read2, Some(StreamClosed), PromptFor(g, 1), PromptFor(g, 2))
  {
  }

  class GameSession {
    var playerTurn: int             // 1 or 2: who picks next
    var imageId: seq<int>           // the face under each cell
    var revealed: array<bool>       // which cells are face up
    var sumPlayer1: int
    var sumPlayer2: int
    var tempFirstIndex: int         // the current turn's picks
    var tempSecondIndex: int
    const in1: seq<Incoming>        // every object player 1 sends
    const in2: seq<Incoming>        // every object player 2 sends
    var read1: nat                  // how many of in1 the session has read
    var read2: nat                  // how many of in2 the session has read
    var out1: seq<BoardState>       // snapshots written to player 1
    var out2: seq<BoardState>       // snapshots written to player 2

    /** The game state the session holds. */
    ghost function Model(): Game
      reads this, revealed
    {
      Game(imageId, revealed[..], playerTurn, sumPlayer1, sumPlayer2)
    }

    /** What holds at every point while the session runs: no result has been sent yet. */
    ghost predicate Valid()
      reads this
    {
      && revealed.Length == BOARD_SIZE
      && |imageId| == BOARD_SIZE
      && (playerTurn == 1 || playerTurn == 2)
      && read1 <= |in1| && read2 <= |in2|
      && Ongoing(out1) && Ongoing(out2)
    }

    /** How many objects, on both connections, the session has not read. */
    ghost function Unread(): nat
      reads this
      requires Valid()
    {
      (|in1| - read1) + (|in2| - read2)
    }

    /** A new session: player 1 to move, no points, every card face down, a freshly shuffled deck. */
    constructor (in1: seq<Incoming>, in2: seq<Incoming>)
      ensures Valid() && fresh(revealed)
      ensures playerTurn == 1 && sumPlayer1 == 0 && sumPlayer2 == 0
      ensures forall i | 0 <= i < revealed.Length :: !revealed[i]
      ensures Model() == Initial(imageId) && TurnStart(Model())
      ensures tempFirstIndex == -1 && tempSecondIndex == -1
      ensures this.in1 == in1 && this.in2 == in2 && read1 == 0 && read2 == 0
      ensures out1 == [] && out2 == []
    {
      var board := BuildShuffledBoard();
      playerTurn := 1;
      sumPlayer1 := 0;
      sumPlayer2 := 0;
      revealed := new bool[BOARD_SIZE](_ => false);
      imageId := board;
      tempFirstIndex := -1;
      tempSecondIndex := -1;
      this.in1 := in1;
      this.in2 := in2;
      read1 := 0;
      read2 := 0;
      out1 := [];
      out2 := [];
      new;
      assert revealed[..] == Initial(imageId).revealed;
      InitialTurnStart(imageId);
    }

    /**
     * Deals NUM_PAIRS faces twice each and shuffles them. The shuffle is an
     * arbitrary permutation: only the multiset of faces is determined.
     */
    static method BuildShuffledBoard() returns (ids: seq<int>)
      ensures IsPairedDeck(ids)
    {
      var deck: seq<int> := [];
      for i := 0 to NUM_PAIRS
        invariant |deck| == 2 * i
        invariant forall k | 0 <= k < |deck| :: 0 <= deck[k] < i
        invariant forall v | 0 <= v < i :: multiset(deck)[v] == 2
      {
        deck := deck + [i];
        deck := deck + [i];
      }
      // `deck` itself witnesses that some sequence has this multiset, as the `:|` below needs
      assert multiset(deck) == multiset(deck);
      ids :| multiset(ids) == multiset(deck);
      forall k | 0 <= k < |ids| ensures 0 <= ids[k] < NUM_PAIRS {
        assert ids[k] in multiset(deck);
      }
    }

    /** The game is over exactly when every cell is face up. */
    method IsGameFinished() returns (finished: bool)
      ensures finished <==> AllRevealed(revealed[..])
    {
      for i := 0 to revealed.Length
        invariant forall k | 0 <= k < i :: revealed[k]
      {
        if !revealed[i] {
          return false;
        }
      }
      return true;
    }

    /**
     * Reads `stream` from position `from` until an Integer naming a face-down
     * cell arrives, reading past every other object and every face-up cell.
     * An Integer off the board stops the read (the array lookup fails), as
     * does the end of the stream.
     */
    method GetValidIndex(stream: seq<Incoming>, from: nat) returns (r: Read)
      requires from <= |stream|
      ensures r.EndOfStream? ==> forall k | from <= k < |stream| :: Skipped(stream[k], revealed[..])
      ensures !r.EndOfStream? ==>
                && from < r.next <= |stream|
                && stream[r.next - 1] == Integer(r.index)
                && (forall k | from <= k < r.next - 1 :: Skipped(stream[k], revealed[..]))
      ensures r.Accepted? ==> 0 <= r.index < revealed.Length && !revealed[r.index]
      ensures r.OutOfBounds? ==> !(0 <= r.index < revealed.Length)
      ensures r == NextPick(stream, from, revealed[..])
    {
      var pos := from;
      while true
        invariant from <= pos <= |stream|
        invariant forall k | from <= k < pos :: Skipped(stream[k], revealed[..])
        invariant NextPick(stream, pos, revealed[..]) == NextPick(stream, from, revealed[..])
        decreases |stream| - pos
      {
        if pos == |stream| {
          return EndOfStream;
        }
        var obj := stream[pos];
        pos := pos + 1;
        if obj.Integer? {
          if !(0 <= obj.value < revealed.Length) {
            return OutOfBounds(obj.value, pos);
          }
          if !revealed[obj.value] {
            return Accepted(obj.value, pos);
          }
        }
      }
    }

    /** A snapshot of the current state: copies of the faces and the face-up cells, both scores. */
    method BuildBoardState(isYourTurn: bool, message: string) returns (state: BoardState)
      ensures state.imageId == Some(imageId) && state.revealed == Some(revealed[..])
      ensures state.yourTurn == isYourTurn && !state.gameOver && state.message == Some(message)
      ensures state.score1 == sumPlayer1 && state.score2 == sumPlayer2
    {
      var imageArray := new int[|imageId|];
      for i := 0 to |imageId|
        invariant imageArray[..i] == imageId[..i]
      {
        imageArray[i] := imageId[i];
      }
      assert imageArray[..] == imageId by {
        assert imageArray[..] == imageArray[..|imageId|];
        assert imageId == imageId[..|imageId|];
      }
      state := Blank();
      state := state.(imageId := Some(imageArray[..]));
      state := state.(revealed := Some(revealed[..]));
      state := state.(yourTurn := isYourTurn);
      state := state.(gameOver := false);
      state := state.(message := Some(message));
      state := state.(score1 := sumPlayer1);
      state := state.(score2 := sumPlayer2);
    }

    /** Writes one snapshot to each player; only the one whose turn it is is told to move. */
    method SendUpdatedBoards(message: string)
      requires Valid()
      modifies this`out1, this`out2
      ensures Valid()
      ensures out1 == old(out1) + [SnapshotOf(Model(), playerTurn == 1, message)]
      ensures out2 == old(out2) + [SnapshotOf(Model(), playerTurn == 2, message)]
      // exactly one player, the one whose turn it is, is told to move; otherwise the two snapshots agree
      ensures out1[|out1| - 1].yourTurn <==> playerTurn == 1
      ensures out2[|out2| - 1].yourTurn <==> playerTurn == 2
      ensures out1[|out1| - 1].(yourTurn := false) == out2[|out2| - 1].(yourTurn := false)
      ensures !out1[|out1| - 1].gameOver && out1[|out1| - 1].message == Some(message)
    {
      var state1 := BuildBoardState(playerTurn == 1, message);
      var state2 := BuildBoardState(playerTurn == 2, message);
      out1 := out1 + [state1];
      out2 := out2 + [state2];
    }

    /** Writes the final snapshot, with the result message, to both players. */
    method SendGameOver(winnerMessage: string)
      modifies this`out1, this`out2
      ensures out1 == old(out1) + [GameOverSnapshot(Model(), winnerMessage)]
      ensures out2 == old(out2) + [GameOverSnapshot(Model(), winnerMessage)]
      // both players get the same final board: the game is over, nobody moves, the message is the result
      ensures out1[|out1| - 1] == out2[|out2| - 1]
      ensures out1[|out1| - 1].gameOver && !out1[|out1| - 1].yourTurn
      ensures out1[|out1| - 1].message == Some(winnerMessage)
      ensures out1[|out1| - 1].revealed == Some(revealed[..]) && out1[|out1| - 1].imageId == Some(imageId)
      ensures out1[|out1| - 1].score1 == sumPlayer1 && out1[|out1| - 1].score2 == sumPlayer2
    {
      var end1 := BuildBoardState(false, winnerMessage);
      var end2 := BuildBoardState(false, winnerMessage);
      end1 := end1.(gameOver := true);
      end2 := end2.(gameOver := true);
      out1 := out1 + [end1];
      out2 := out2 + [end2];
    }

    /** Tells the player whose turn it is, and only that player, to move. */
    method PromptMover()
      requires Valid()
      modifies this`out1, this`out2
      ensures Valid()
      ensures out1 == old(out1) + PromptFor(Model(), 1)
      ensures out2 == old(out2) + PromptFor(Model(), 2)
    {
      var prompt := BuildBoardState(true, "Your turn");
      if playerTurn == 1 {
        out1 := out1 + [prompt];
      } else {
        out2 := out2 + [prompt];
      }
    }

    /** The stream of the player whose turn it is. */
    ghost function MoverStream(): seq<Incoming>
      reads this
    {
      if playerTurn == 1 then in1 else in2
    }

    /** How many objects of the mover's stream the session has read. */
    ghost function MoverRead(): nat
      reads this
    {
      if playerTurn == 1 then read1 else read2
    }

    /**
     * One pick of the mover: read the next valid index from the mover's
     * stream, turn that card face up, and tell both players with `message`.
     * A failed read changes neither the board nor the snapshots sent.
     */
    method PickCard(message: string) returns (r: Read)
      requires Valid()
      modifies this`read1, this`read2, this`out1, this`out2, revealed
      ensures Valid()
      // the pick is the one the mover's stream supplies, and only the mover's stream is read
      ensures r == NextPick(old(MoverStream()), old(MoverRead()), old(revealed[..]))
      ensures MoverRead() == After(MoverStream(), r)
      ensures playerTurn == 1 ==> read2 == old(read2)
      ensures playerTurn == 2 ==> read1 == old(read1)
      ensures r.Accepted? ==>
                && Model() == Reveal(old(Model()), r.index)
                && out1 == old(out1) + [SnapshotOf(Model(), playerTurn == 1, message)]
                && out2 == old(out2) + [SnapshotOf(Model(), playerTurn == 2, message)]
      ensures !r.Accepted? ==> Model() == old(Model()) && out1 == old(out1) && out2 == old(out2)
    {
      var stream := if playerTurn == 1 then in1 else in2;
      var pos := if playerTurn == 1 then read1 else read2;
      r := GetValidIndex(stream, pos);
      var next := After(stream, r);
      if playerTurn == 1 {
        read1 := next;
      } else {
        read2 := next;
      }
      if r.Accepted? {
        revealed[r.index] := true;
        SendUpdatedBoards(message);
      }
    }

    /** The start of a turn: prompt the mover, then take the first pick the mover's stream supplies. */
    method FirstPick() returns (r: Read)
      requires Valid()
      modifies this`read1, this`read2, this`out1, this`out2, this`tempFirstIndex, revealed
      ensures Valid()
      ensures r == NextPick(old(MoverStream()), old(MoverRead()), old(revealed[..]))
      ensures MoverRead() == After(MoverStream(), r)
      ensures playerTurn == 1 ==> read2 == old(read2)
      ensures playerTurn == 2 ==> read1 == old(read1)
      ensures r.Accepted? ==>
                && tempFirstIndex == r.index
                && Model() == Reveal(old(Model()), r.index)
                && out1 == old(out1) + PromptFor(old(Model()), 1) + [SnapshotOf(Model(), playerTurn == 1, "First card chosen")]
                && out2 == old(out2) + PromptFor(old(Model()), 2) + [SnapshotOf(Model(), playerTurn == 2, "First card chosen")]
      ensures !r.Accepted? ==>
                && Model() == old(Model())
                && out1 == old(out1) + PromptFor(old(Model()), 1)
                && out2 == old(out2) + PromptFor(old(Model()), 2)
    {
      PromptMover();
      r := PickCard("First card chosen");
      if r.Accepted? {
        tempFirstIndex := r.index;
      }
    }

    /**
     * The picking half of a turn: prompt the mover, then take the two picks
     * the mover's stream supplies, revealing each and telling both players.
     * A failed read stops the turn where it is: what was sent stays sent,
     * and an accepted first pick stays face up.
     */
    method TakePicks() returns (outcome: TurnOutcome)
      requires Valid()
      modifies this`read1, this`read2, this`out1, this`out2, this`tempFirstIndex, this`tempSecondIndex, revealed
      ensures Valid()
      ensures var t := ReadTurn(old(MoverStream()), old(MoverRead()), old(revealed[..]));
              && MoverRead() == t.next
              && (t.Failed? ==>
                    && outcome == TurnAborted(t.cause)
                    && (t.shown.Some? ==> tempFirstIndex == t.shown.value)
                    && Model() == PartialTurn(old(Model()), t.shown)
                    && out1 == old(out1) + PartialSnapshots(old(Model()), t.shown, 1)
                    && out2 == old(out2) + PartialSnapshots(old(Model()), t.shown, 2))
              && (t.Picked? ==>
                    && outcome.Resolved? && tempFirstIndex == t.first && tempSecondIndex == t.second
                    && Model() == Reveal(Reveal(old(Model()), t.first), t.second)
                    && out1 == old(out1) + PickSnapshots(old(Model()), t.first, t.second, 1)
                    && out2 == old(out2) + PickSnapshots(old(Model()), t.first, t.second, 2))
      ensures playerTurn == 1 ==> read2 == old(read2)
      ensures playerTurn == 2 ==> read1 == old(read1)
    {
      ghost var stream, from, shown, g := MoverStream(), MoverRead(), revealed[..], Model();
      var r := FirstPick();
      if !r.Accepted? {
        assert ReadTurn(stream, from, shown) == Failed(AbortOf(r), None, After(stream, r));
        assert PartialSnapshots(g, None, 1) == PromptFor(g, 1) && PartialSnapshots(g, None, 2) == PromptFor(g, 2);
        return TurnAborted(AbortOf(r));
      }
      ghost var picked1 := Model();
      assert revealed[..] == shown[r.index := true];
      var r2 := PickCard("Second card chosen");
      if !r2.Accepted? {
        assert ReadTurn(stream, from, shown) == Failed(AbortOf(r2), Some(r.index), After(stream, r2));
        AppendOne(old(out1), PromptFor(g, 1), SnapshotOf(picked1, playerTurn == 1, "First card chosen"));
        AppendOne(old(out2), PromptFor(g, 2), SnapshotOf(picked1, playerTurn == 2, "First card chosen"));
        return TurnAborted(AbortOf(r2));
      }
      tempSecondIndex := r2.index;
      assert ReadTurn(stream, from, shown) == Picked(r.index, r2.index, r2.next);
      AppendPieces(old(out1), PromptFor(g, 1), SnapshotOf(picked1, playerTurn == 1, "First card chosen"),
                   SnapshotOf(Model(), playerTurn == 1, "Second card chosen"));
      AppendPieces(old(out2), PromptFor(g, 2), SnapshotOf(picked1, playerTurn == 2, "First card chosen"),
                   SnapshotOf(Model(), playerTurn == 2, "Second card chosen"));
      return Resolved;
    }

    /**
     * Resolves the two face-up picks: a match scores a point for the mover,
     * who keeps the turn; a mismatch turns both cards back down and passes
     * the turn. (The source pauses before turning the cards back.)
     */
    method ResolvePicks()
      requires Valid()
      requires 0 <= tempFirstIndex < BOARD_SIZE && 0 <= tempSecondIndex < BOARD_SIZE
      modifies this`sumPlayer1, this`sumPlayer2, this`playerTurn, revealed
      ensures Valid()
      ensures Model() == Resolve(old(Model()), tempFirstIndex, tempSecondIndex)
    {
      if imageId[tempFirstIndex] == imageId[tempSecondIndex] {
        if playerTurn == 1 {
          sumPlayer1 := sumPlayer1 + 1;
        } else {
          sumPlayer2 := sumPlayer2 + 1;
        }
      } else {
        revealed[tempFirstIndex] := false;
        revealed[tempSecondIndex] := false;
        playerTurn := if playerTurn == 1 then 2 else 1;
      }
    }

    /** The end of a turn: resolve the two picks and tell both players the outcome. */
    method FinishTurn()
      requires Valid()
      requires 0 <= tempFirstIndex < BOARD_SIZE && 0 <= tempSecondIndex < BOARD_SIZE
      modifies this`sumPlayer1, this`sumPlayer2, this`playerTurn, revealed, this`out1, this`out2
      ensures Valid()
      ensures Model() == Resolve(old(Model()), tempFirstIndex, tempSecondIndex)
      ensures out1 == old(out1) + [SnapshotOf(Model(), playerTurn == 1, "Turn resolved")]
      ensures out2 == old(out2) + [SnapshotOf(Model(), playerTurn == 2, "Turn resolved")]
    {
      ResolvePicks();
      SendUpdatedBoards("Turn resolved");
    }

    /**
     * One pass of the session loop: take the two picks the mover's stream
     * supplies, resolve them, and tell both players the outcome.
     */
    method PlayTurn() returns (outcome: TurnOutcome)
      requires Valid() && TurnStart(Model())
      modifies this`read1, this`read2, this`out1, this`out2, this`tempFirstIndex, this`tempSecondIndex
      modifies this`sumPlayer1, this`sumPlayer2, this`playerTurn, revealed
      ensures Valid()
      ensures var t := ReadTurn(old(MoverStream()), old(MoverRead()), old(revealed[..]));
              // only the mover's stream is read, up to where the turn's reading ended
              && (if old(playerTurn) == 1 then read1 == t.next && read2 == old(read2)
                  else read2 == t.next && read1 == old(read1))
              && (t.Failed? ==>
                    && outcome == TurnAborted(t.cause)
                    && Model() == PartialTurn(old(Model()), t.shown)
                    && out1 == old(out1) + PartialSnapshots(old(Model()), t.shown, 1)
                    && out2 == old(out2) + PartialSnapshots(old(Model()), t.shown, 2))
              && (t.Picked? ==>
                    && outcome.Resolved? && tempFirstIndex == t.first && tempSecondIndex == t.second
                    && Model() == TakeTurn(old(Model()), t.first, t.second)
                    && TurnStart(Model())
                    && out1 == old(out1) + TurnSnapshots(old(Model()), t.first, t.second, 1)
                    && out2 == old(out2) + TurnSnapshots(old(Model()), t.first, t.second, 2))
    {
      ghost var g := Model();
      outcome := TakePicks();
      if outcome.TurnAborted? {
        return;
      }
      FinishTurn();
      assert Model() == TakeTurn(g, tempFirstIndex, tempSecondIndex);
      TakeTurnKeepsTurnStart(g, tempFirstIndex, tempSecondIndex);
      AppendOne(old(out1), PickSnapshots(g, tempFirstIndex, tempSecondIndex, 1), SnapshotOf(Model(), playerTurn == 1, "Turn resolved"));
      AppendOne(old(out2), PickSnapshots(g, tempFirstIndex, tempSecondIndex, 2), SnapshotOf(Model(), playerTurn == 2, "Turn resolved"));
    }

    /**
     * The session loop: play the turns the streams supply while some cell is
     * face down. It ends when every cell is face up, or in the first turn
     * that fails to read a pick; either way where it ends, and what it sends
     * on the way, is `PlayFrom`.
     */
    method PlayTurns() returns (outcome: TurnOutcome)
      requires Valid() && TurnStart(Model())
      modifies this`read1, this`read2, this`out1, this`out2, this`tempFirstIndex, this`tempSecondIndex
      modifies this`sumPlayer1, this`sumPlayer2, this`playerTurn, revealed
      ensures Valid()
      ensures var p := PlayFrom(old(Model()), in1, in2, old(read1), old(read2));
              && read1 == p.read1 && read2 == p.read2 && Model() == p.game
              && outcome == (if p.stop.Some? then TurnAborted(p.stop.value) else Resolved)
              && out1 == old(out1) + p.log1 && out2 == old(out2) + p.log2
      // the loop ends normally only when every cell is up, and aborts only on one of the two causes
      ensures outcome.Resolved? ==> AllRevealed(revealed[..]) && TurnStart(Model())
      ensures outcome == TurnAborted(StreamClosed) ==> MoverRead() == |MoverStream()|
      ensures outcome.TurnAborted? && outcome.cause.IndexOutOfBounds? ==> !(0 <= outcome.cause.index < BOARD_SIZE)
    {
      ghost var p := PlayFrom(Model(), in1, in2, read1, read2);
      var finished := IsGameFinished();
      while !finished
        invariant Valid() && TurnStart(Model())
        invariant finished <==> AllRevealed(revealed[..])
        invariant PlayFrom(Model(), in1, in2, read1, read2).SameEnd(p)
        // what is sent so far, followed by what the rest of the loop sends, is what the whole loop sends
        invariant out1 + PlayFrom(Model(), in1, in2, read1, read2).log1 == old(out1) + p.log1
        invariant out2 + PlayFrom(Model(), in1, in2, read1, read2).log2 == old(out2) + p.log2
        decreases Unread()
      {
        ghost var g, before1, before2 := Model(), out1, out2;
        ghost var cur := PlayFrom(g, in1, in2, read1, read2);
        ghost var t := ReadTurn(MoverStream(), MoverRead(), revealed[..]);
        outcome := PlayTurn();
        if outcome.TurnAborted? {
          assert cur == Stopped(g, t, read1, read2);
          return;
        }
        ghost var rest := PlayFrom(Model(), in1, in2, read1, read2);
        assert cur.log1 == TurnSnapshots(g, t.first, t.second, 1) + rest.log1;
        assert cur.log2 == TurnSnapshots(g, t.first, t.second, 2) + rest.log2;
        AppendAssoc(before1, TurnSnapshots(g, t.first, t.second, 1), rest.log1);
        AppendAssoc(before2, TurnSnapshots(g, t.first, t.second, 2), rest.log2);
        finished := IsGameFinished();
      }
      return Resolved;
    }

    /**
     * The whole session: announce the start, play the turns the streams
     * supply until every cell is face up, then send both players the result.
     * A failed read ends the session at once, with no result sent.
     */
    method Run() returns (end: SessionEnd)
      requires Valid() && TurnStart(Model())
      modifies this`read1, this`read2, this`out1, this`out2, this`tempFirstIndex, this`tempSecondIndex
      modifies this`sumPlayer1, this`sumPlayer2, this`playerTurn, revealed
      // the session ends as the streams dictate, and sends what they dictate
      ensures var p := PlayFrom(old(Model()), in1, in2, old(read1), old(read2));
              && end == (if p.stop.Some? then Aborted(p.stop.value) else Finished(Winner(p.game.score1, p.game.score2)))
              && read1 == p.read1 && read2 == p.read2 && Model() == p.game
              && (p.stop.Some? ==>
                    && out1 == old(out1) + [SnapshotOf(old(Model()), old(playerTurn) == 1, "Game Start")] + p.log1
                    && out2 == old(out2) + [SnapshotOf(old(Model()), old(playerTurn) == 2, "Game Start")] + p.log2)
              && (p.stop.None? ==>
                    && out1 == old(out1) + [SnapshotOf(old(Model()), old(playerTurn) == 1, "Game Start")] + p.log1
                                         + [GameOverSnapshot(p.game, end.winner)]
                    && out2 == old(out2) + [SnapshotOf(old(Model()), old(playerTurn) == 2, "Game Start")] + p.log2
                                         + [GameOverSnapshot(p.game, end.winner)])
      ensures end.Aborted? ==> Valid()
      // an aborted session sends no result, and aborts only for one of two causes
      ensures end == Aborted(StreamClosed) ==> MoverRead() == |MoverStream()|
      ensures end.Aborted? && end.cause.IndexOutOfBounds? ==> !(0 <= end.cause.index < BOARD_SIZE)
      ensures end.Finished? ==>
                && AllRevealed(revealed[..]) && sumPlayer1 + sumPlayer2 == NUM_PAIRS
                && Announced(out1, Model(), end.winner) && Announced(out2, Model(), end.winner)
    {
      SendUpdatedBoards("Game Start");
      end := PlaySession();
    }

    /**
     * The session after the start has been announced: the loop, then the
     * result. It ends as `PlayFrom` on the two streams says, and an early end
     * has a cause: the mover's stream ran out, or the mover sent an index
     * off the board.
     */
    method PlaySession() returns (end: SessionEnd)
      requires Valid() && TurnStart(Model())
      modifies this`read1, this`read2, this`out1, this`out2, this`tempFirstIndex, this`tempSecondIndex
      modifies this`sumPlayer1, this`sumPlayer2, this`playerTurn, revealed
      ensures var p := PlayFrom(old(Model()), in1, in2, old(read1), old(read2));
              && end == (if p.stop.Some? then Aborted(p.stop.value) else Finished(Winner(p.game.score1, p.game.score2)))
              && read1 == p.read1 && read2 == p.read2 && Model() == p.game
              && (p.stop.Some? ==> out1 == old(out1) + p.log1 && out2 == old(out2) + p.log2)
              && (p.stop.None? ==>
                    && out1 == old(out1) + p.log1 + [GameOverSnapshot(p.game, end.winner)]
                    && out2 == old(out2) + p.log2 + [GameOverSnapshot(p.game, end.winner)])
      ensures sumPlayer1 >= old(sumPlayer1) && sumPlayer2 >= old(sumPlayer2)
      ensures end.Aborted? ==> Valid()
      ensures end == Aborted(StreamClosed) ==> MoverRead() == |MoverStream()|
      ensures end.Aborted? && end.cause.IndexOutOfBounds? ==> !(0 <= end.cause.index < BOARD_SIZE)
      ensures end.Finished? ==>
                && AllRevealed(revealed[..]) && TurnStart(Model())
                && sumPlayer1 + sumPlayer2 == NUM_PAIRS
                && end.winner == Winner(sumPlayer1, sumPlayer2)
                && Announced(out1, Model(), end.winner) && Announced(out2, Model(), end.winner)
    {
      var outcome := PlayTurns();
      if outcome.TurnAborted? {
        return Aborted(outcome.cause);
      }
      var winner := AnnounceWinner();
      return Finished(winner);
    }

    /**
     * The end of a finished game: the result follows from the scores, which
     * add up to all the pairs, and both players are sent the final board.
     */
    method AnnounceWinner() returns (winner: string)
      requires Valid() && TurnStart(Model()) && AllRevealed(revealed[..])
      modifies this`out1, this`out2
      ensures winner == Winner(sumPlayer1, sumPlayer2)
      ensures sumPlayer1 + sumPlayer2 == NUM_PAIRS
      ensures out1 == old(out1) + [GameOverSnapshot(Model(), winner)] && Announced(out1, Model(), winner)
      ensures out2 == old(out2) + [GameOverSnapshot(Model(), winner)] && Announced(out2, Model(), winner)
    {
      winner := Winner(sumPlayer1, sumPlayer2);
      FinishedScores(Model());
      SendGameOver(winner);
      assert out1[..|out1| - 1] == old(out1) && out2[..|out2| - 1] == old(out2);
    }
  }
}
