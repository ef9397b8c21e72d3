# Memory card game session, modelled in Dafny

This project models the authoritative game session of a two-player memory card
game (`CardGameWithTwoClients`). It also models the `BoardState` snapshot that
the session sends to the players.

The session works like this:
- It deals a 4x4 board holding 8 faces, each on exactly two cells, in a shuffled order.
- Player 1 moves first.
- The player whose turn it is picks two face-down cards. After every pick, both players get a snapshot of the board.
- If the two faces are equal, the mover scores a point and keeps the turn. Otherwise both cards are turned back down and the turn passes.
- When every cell is face up, both players get a final snapshot with the result: "Player 1 Wins", "Player 2 Wins" or "Draw".

The model has four modules:
- `Board` (`board.dfy`):
  - the deck: `IsPairedDeck`, with the fact that every face has exactly one partner cell;
  - the count of face-up cells.
- `Snapshot` (`snapshot.dfy`):
  - the `BoardState` record as a datatype. `None` stands for a Java `null` array or message;
  - its no-argument constructor `Blank` and its copying constructor `Create`.
- `Game` (`game.dfy`):
  - the rules, stated on values: the state `Game`, one turn `TakeTurn` and the result `Winner`;
  - the snapshots each player must receive during a turn;
  - the invariant `TurnStart`, which holds whenever a turn begins: a paired deck, a mover in {1, 2}, exactly `2 * (score1 + score2)` cells face up, and a face's two cells either both up or both down.
- `Session` (`session.dfy`): the class `GameSession`. It has the source's fields, and its methods change them in place:
  - `revealed` is an array;
  - `imageId`, the scores, the turn and the two temporary picks are fields;
  - the methods that play the game (picking, resolving a turn, the loop) are proved against `Game` through the ghost view `Model()`. The helpers are specified directly on the fields: `IsGameFinished` against `AllRevealed`, `BuildShuffledBoard` against `IsPairedDeck`, and `BuildBoardState` field by field;
  - each connection is modelled by its contents. `in1`/`in2` hold everything each player sends, and `read1`/`read2` count how much of it the session has read. `out1`/`out2` hold every snapshot written to each player.

What the session reads is fixed by functions on the streams, independent of the class:
- `NextPick` is the pick one read of a stream yields;
- `ReadTurn` is the two picks of one turn, the second read with the first cell face up;
- `PlayFrom` is where the whole loop ends on given streams: the final game, the cause of an early stop, how far each stream was read, and every snapshot each player was sent on the way.

`GetValidIndex`, `PickCard`, `FirstPick`, `TakePicks`, `PlayTurn`, `PlayTurns`, `PlaySession` and `Run` are each proved to do what these functions say.

How failures end the session:
- A player's stream that ends while the session waits for a pick ends the session with no result sent (`Aborted(StreamClosed)`). In the source, that is the `IOException` caught around the game loop.
- A turn that stops part-way is not undone. The snapshots already sent stay sent: the prompt, and "First card chosen" if the first pick was accepted. That first cell stays face up (`PartialTurn`, `PartialSnapshots`).
- `getValidIndex` does no range check. Its comment says invalid indices are ignored, but an Integer outside `[0, 16)` makes the `revealed[index]` lookup throw. That exception is not caught, so the session thread ends. The model follows the code: such an index ends the session (`Aborted(IndexOutOfBounds(i))`). It is never skipped.

## Model

| member | source | states |
|---|---|---|
| `Snapshot.Blank` | src/BoardState.java:42-44 | the no-argument constructor leaves every field at its Java default: null arrays and message, both flags false, both scores 0 |
| `Board.PartnerExists` | src/CardGameWithTwoClients.java:129-137 | in a dealt deck (16 cells, faces in [0, 8), each face twice), every cell has another cell with the same face |
| `Board.PartnerUnique` | src/CardGameWithTwoClients.java:129-137 | in a dealt deck, a face sits on no third cell beside two known ones |
| `Board.CountRevealed` | src/CardGameWithTwoClients.java:64-89 | the measure of the loop-top invariant (face-up cells = 2 * points); it never exceeds the number of cells |
| `Board.NoneRevealedCount` | src/CardGameWithTwoClients.java:45 | a fresh, all-false `revealed` array counts zero face-up cells |
| `Board.AllRevealedCount` | src/CardGameWithTwoClients.java:142-148 | every cell is face up exactly when the count equals the board size (both directions) |
| `Board.RevealOneCount` | src/CardGameWithTwoClients.java:75-80 | turning one face-down cell up raises the count by exactly one |
| `Game.Other` | src/CardGameWithTwoClients.java:95 | switching turns maps 1 and 2 to the other player, so the turn stays in {1, 2} |
| `Game.InitialTurnStart` | src/CardGameWithTwoClients.java:39-47 | a new session over a dealt deck satisfies the turn-start invariant, with player 1 to move, no points, and a cell still face down |
| `Game.Resolve` | src/CardGameWithTwoClients.java:84-96 | equal faces: a point for the mover only, the same mover, the board unchanged; different faces: both picks face down, every other cell as it was, the turn passes, no points |
| `Game.TakeTurn` | src/CardGameWithTwoClients.java:74-96 | on a match, the mover's score rises by one, the other's stays, both cells stay up, the turn stays and no other cell changes; on a mismatch, the board is as before the turn, the turn passes and both scores stay; cells already up stay up and scores never fall |
| `Game.TakeTurnKeepsTurnStart` | src/CardGameWithTwoClients.java:64-98 | every turn with valid picks from a turn-start state ends in a turn-start state: face-up count `2 * (score1 + score2)`, faces up in pairs, turn in {1, 2} |
| `Game.FinishedScores` | src/CardGameWithTwoClients.java:64-103 | when every cell is face up, the two scores add up to 8 |
| `Game.UnfinishedHasPair` | src/CardGameWithTwoClients.java:64-81 | while a cell is face down, the mover has two valid picks with equal faces, so the loop can always finish |
| `Game.Winner` | src/CardGameWithTwoClients.java:102-103 | the result is "Player 1 Wins" iff score1 > score2, "Player 2 Wins" iff score2 > score1, "Draw" iff they are equal |
| `Game.PartialTurnUnfinished` | src/CardGameWithTwoClients.java:64-81 | a turn that stops after at most one pick never leaves every cell face up, because an even number of cells is up when a turn starts |
| `Game.TurnSnapshotsAgree` | src/CardGameWithTwoClients.java:66-98 | during a turn the mover gets one extra "Your turn" prompt; after that the two players get the same boards, scores and messages, differing only in `yourTurn`, and no snapshot marks the game over |
| `Snapshot.Create` | src/BoardState.java:55-61 | the full constructor copies both arrays (same length, same elements), takes `yourTurn`, `gameOver` and `message` from its arguments, and leaves both scores at 0 |
| `Snapshot.WriteAfterCreate` | src/BoardState.java:56-57 | a snapshot keeps the array contents from its construction after the caller writes into those arrays |
| `Session.GameSession.constructor` | src/CardGameWithTwoClients.java:33-47 | player 1 to move, both scores 0, 16 cells all face down, a dealt deck, picks at -1, the turn-start invariant holds |
| `Session.GameSession.BuildShuffledBoard` | src/CardGameWithTwoClients.java:129-137 | the board has 16 cells, faces in [0, 8), each face exactly twice, in any order |
| `Session.GameSession.IsGameFinished` | src/CardGameWithTwoClients.java:142-148 | true iff every entry of `revealed` is true |
| `Session.NextPick` | src/CardGameWithTwoClients.java:154-165 | one read of a stream stops just after an Integer: a face-down cell on the board is accepted, a cell off the board is not; otherwise the read runs to the end of the stream |
| `Session.NextPickSkips` | src/CardGameWithTwoClients.java:157-158 | every object a read passes over is not an Integer or names a face-up cell; a read that ends with the stream passed over everything left |
| `Session.ReadTurn` | src/CardGameWithTwoClients.java:74-81 | a turn's two picks are distinct face-down cells on the board, taking at least two objects; a turn that stops after its first pick records that pick, a face-down cell on the board; a closed stream is read to its end; an index that stops the turn is off the board |
| `Session.Stopped` | src/CardGameWithTwoClients.java:69-81 | a turn that stops part-way keeps the faces, the turn and the scores, stops with the read's cause at the given positions, and does not leave every cell face up |
| `Session.PlayFrom` | src/CardGameWithTwoClients.java:64-107 | the loop on given streams keeps the faces and never lowers a score; it ends normally exactly when every cell is face up (then in a turn-start state), and otherwise stops with a cell face down because the mover's stream ran out or the mover sent an index off the board |
| `Session.SilentMoverStops` | src/CardGameWithTwoClients.java:64-79 | with a cell still face down, a mover with nothing left to read stops the session with the state unchanged, the mover having been sent only the "Your turn" prompt and the other player nothing |
| `Session.GameSession.GetValidIndex` | src/CardGameWithTwoClients.java:154-165 | the result is `NextPick` of the stream from the given position: non-Integers and face-up cells are read past; the read returns a face-down cell on the board, or stops at an Integer off the board (abort), or at the end of the stream |
| `Session.GameSession.BuildBoardState` | src/CardGameWithTwoClients.java:196-210 | the snapshot holds copies of the faces and face-up cells, the given turn flag and message, `gameOver` false and both scores |
| `Session.GameSession.SendUpdatedBoards` | src/CardGameWithTwoClients.java:170-177 | one snapshot is appended for each player; only the mover's says `yourTurn`; the two are otherwise equal, with `gameOver` false and the given message |
| `Session.GameSession.SendGameOver` | src/CardGameWithTwoClients.java:182-191 | both players get the same final snapshot: `gameOver` true, `yourTurn` false, the result message, the final board and scores |
| `Session.GameSession.PromptMover` | src/CardGameWithTwoClients.java:66-71 | only the mover is sent a "Your turn" snapshot of the current state |
| `Session.GameSession.PickCard` | src/CardGameWithTwoClients.java:74-81 | the pick is `NextPick` of the mover's stream at the mover's read position, which moves to just past it; the other stream is untouched; an accepted pick is turned up alone and both players are told; a failed read changes neither the board nor the snapshots |
| `Session.GameSession.FirstPick` | src/CardGameWithTwoClients.java:66-76 | the mover alone is prompted, then the first pick is `NextPick` of the mover's stream; an accepted pick is recorded, turned up alone and shown to both players; a failed read leaves the board as it was and sends only the prompt |
| `Session.GameSession.TakePicks` | src/CardGameWithTwoClients.java:64-81 | the picks and the new read position are `ReadTurn` of the mover's stream; when both picks are read, both are revealed and each player is sent exactly the prompt and pick snapshots; otherwise the turn aborts with `ReadTurn`'s cause, an accepted first pick stays recorded and face up, and each player has been sent exactly the prompt and that pick's snapshot |
| `Session.GameSession.ResolvePicks` | src/CardGameWithTwoClients.java:84-96 | the state becomes the resolution of the two picks: a point and the same mover on a match, both cells down and the other mover on a mismatch |
| `Session.GameSession.FinishTurn` | src/CardGameWithTwoClients.java:84-98 | the state becomes the resolution of the two recorded picks, and each player is sent one "Turn resolved" snapshot of it, `yourTurn` only for the (new) mover |
| `Session.GameSession.PlayTurn` | src/CardGameWithTwoClients.java:64-98 | the turn played is the one `ReadTurn` reads from the mover's stream: the state becomes `TakeTurn` of those picks, the turn-start invariant holds, and each player is sent exactly that turn's snapshots; a failed read aborts with its cause, leaves the board as `PartialTurn` (turn and scores unchanged, an accepted first pick face up) and has sent exactly `PartialSnapshots` |
| `Session.GameSession.PlayTurns` | src/CardGameWithTwoClients.java:64-99 | the loop ends where `PlayFrom` says: the final game, the outcome, both read positions, and exactly `PlayFrom`'s snapshots appended to each player's log; it ends normally only with every cell up, aborts on a closed stream only once the mover's stream is read to its end, and on an index only when that index is off the board |
| `Session.GameSession.PlaySession` | src/CardGameWithTwoClients.java:64-107 | the loop and the result end as `PlayFrom` says; each log grows by exactly `PlayFrom`'s snapshots, then the game-over snapshot if the game finished; an abort has a fully read mover stream or an index off the board as its cause; a finished game has every cell up, scores adding to 8 and the winner from the scores |
| `Session.GameSession.AnnounceWinner` | src/CardGameWithTwoClients.java:101-105 | with every cell up, the scores add up to 8, the result is `Winner` of the scores, and each player's log grows by exactly the game-over snapshot, after a log with no game-over snapshot |
| `Session.GameSession.Run` | src/CardGameWithTwoClients.java:53-124 | the session ends as `PlayFrom` on the two streams says, and each player's whole log is fixed: "Game Start", then `PlayFrom`'s snapshots, then, if the game finished, the game-over snapshot, the only one marked game over. A finished game has every cell up, scores adding to 8 and the winner message from the scores. An aborted session sends no result, and it aborts only because the mover's stream is read to its end or the mover sent an index off the board |

## Left out

- A connection that stays open but sends nothing is not modelled. In the source, `readObject` then blocks forever and the session stalls. Here every stream is finite, and reading past its end counts as a closed connection. That is why the session loop always terminates (`PlayTurns` decreases the number of unread objects).
- Sockets, object streams, `flush` and the closing of the connections in `finally` are not modelled. They are I/O. Each input stream is the sequence of objects a player sends, and each output stream is the sequence of snapshots written to it.
- Write failures are not modelled. Every send succeeds in the model. In the source, an `IOException` from `writeObject` would end the session like a failed read.
- `Thread.sleep(3000)` before a mismatch is turned back down is not modelled, and neither is its `InterruptedException`. It is timing only.
- `extends Thread` and the two sessions running side by side are not modelled.
- `Session.GameSession.BuildShuffledBoard`: the permutation is chosen arbitrarily, so only the multiset of faces is stated, not the randomness of `Collections.shuffle`.
- `Session.GameSession.GetValidIndex`: a `ClassNotFoundException` while reading is modelled as one object that is not an Integer, which is read past. A Java `null` is read past the same way.
- `Snapshot.Create`: the arrays are non-null by their Dafny type, so the `NullPointerException` that `Arrays.copyOf` throws on a null argument is not modelled.
- `BoardState.getIpFromUser` and `BoardState.getPortFromUser` are not modelled. They are dialog helpers.
- The server's accept loop, the client launcher and the JavaFX controller are not part of this model.
