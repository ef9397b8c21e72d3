/**
 * The card board of a memory game session: NUM_PAIRS faces, each dealt
 * onto exactly two of the 2 * NUM_PAIRS cells, and the count of cells
 * currently shown face up.
 */
module Board {

  /** Number of distinct faces; every face is dealt twice. */
  const NUM_PAIRS: nat := 8

  /** Number of cells on the board (a 4x4 grid). */
  const BOARD_SIZE: nat := NUM_PAIRS * 2

  /** `faces` is a full deck: 2 * NUM_PAIRS cells, faces drawn from [0, NUM_PAIRS), each exactly twice. */
  ghost predicate IsPairedDeck(faces: seq<int>)
  {
    && |faces| == BOARD_SIZE
    && (forall i | 0 <= i < |faces| :: 0 <= faces[i] < NUM_PAIRS)
    && (forall v | 0 <= v < NUM_PAIRS :: multiset(faces)[v] == 2)
  }

  /** Every cell is face up. */
  predicate AllRevealed(revealed: seq<bool>)
  {
    forall i | 0 <= i < |revealed| :: revealed[i]
  }

  /** Number of face-up cells. */
  function CountRevealed(revealed: seq<bool>): (n: nat)
    ensures n <= |revealed|
  {
    if revealed == [] then 0
    else (if revealed[0] then 1 else 0) + CountRevealed(revealed[1..])
  }

  /** A board with nothing face up counts zero. */
  lemma {:induction false} NoneRevealedCount(revealed: seq<bool>)
    requires forall i | 0 <= i < |revealed| :: !revealed[i]
    ensures CountRevealed(revealed) == 0
  {
    if revealed != [] {
      NoneRevealedCount(revealed[1..]);
    }
  }

  /** The count reaches the board size exactly when every cell is face up. */
  lemma {:induction false} AllRevealedCount(revealed: seq<bool>)
    ensures AllRevealed(revealed) <==> CountRevealed(revealed) == |revealed|
  {
    if revealed != [] {
      AllRevealedCount(revealed[1..]);
      if !revealed[0] {
        assert !AllRevealed(revealed);
      } else if !AllRevealed(revealed[1..]) {
        var i :| 0 <= i < |revealed[1..]| && !revealed[1..][i];
        assert !revealed[i + 1];
      } else {
        forall i | 0 <= i < |revealed| ensures revealed[i] {
          if i > 0 { assert revealed[i] == revealed[1..][i - 1]; }
        }
      }
    }
  }

  /** Turning one face-down cell face up raises the count by exactly one. */
  lemma {:induction false} RevealOneCount(revealed: seq<bool>, i: int)
    requires 0 <= i < |revealed| && !revealed[i]
    ensures CountRevealed(revealed[i := true]) == CountRevealed(revealed) + 1
  {
    if i > 0 {
      assert revealed[i := true][1..] == revealed[1..][i - 1 := true];
      RevealOneCount(revealed[1..], i - 1);
    } else {
      assert revealed[i := true][1..] == revealed[1..];
    }
  }

  /** Three distinct cells holding the same face make three copies of it. */
  lemma ThreeCopies(faces: seq<int>, a: int, b: int, c: int)
    requires 0 <= a < b < c < |faces|
    requires faces[a] == faces[b] == faces[c]
    ensures multiset(faces)[faces[a]] >= 3
  {
    var v := faces[a];
    assert faces == faces[..a] + [faces[a]] + faces[a + 1..b] + [faces[b]] + faces[b + 1..c] + [faces[c]] + faces[c + 1..];
    assert multiset(faces) == multiset(faces[..a]) + multiset{v} + multiset(faces[a + 1..b]) + multiset{v}
                              + multiset(faces[b + 1..c]) + multiset{v} + multiset(faces[c + 1..]);
  }

  /** In a paired deck a face sits on exactly two cells: once two of them are known, there is no third. */
  lemma PartnerUnique(faces: seq<int>, i: int, j: int, k: int)
    requires IsPairedDeck(faces)
    requires 0 <= i < |faces| && 0 <= j < |faces| && 0 <= k < |faces| && i != j
    requires faces[i] == faces[j] && faces[k] == faces[i]
    ensures k == i || k == j
  {
    if k != i && k != j {
      var v := faces[i];
      assert multiset(faces)[v] == 2;
      if i < j && j < k { ThreeCopies(faces, i, j, k); }
      else if i < k && k < j { ThreeCopies(faces, i, k, j); }
      else if j < i && i < k { ThreeCopies(faces, j, i, k); }
      else if j < k && k < i { ThreeCopies(faces, j, k, i); }
      else if k < i && i < j { ThreeCopies(faces, k, i, j); }
      else { ThreeCopies(faces, k, j, i); }
    }
  }

  /** In a paired deck every cell has a partner: another cell holding the same face. */
  lemma PartnerExists(faces: seq<int>, i: int) returns (j: int)
    requires IsPairedDeck(faces) && 0 <= i < |faces|
    ensures 0 <= j < |faces| && j != i && faces[j] == faces[i]
  {
    var v := faces[i];
    var rest := faces[..i] + faces[i + 1..];
    assert faces == faces[..i] + [v] + faces[i + 1..];
    assert multiset(faces) == multiset(faces[..i]) + multiset{v} + multiset(faces[i + 1..]);
    assert multiset(rest) == multiset(faces[..i]) + multiset(faces[i + 1..]);
    assert 0 <= v < NUM_PAIRS && multiset(faces)[v] == 2;
    assert multiset(rest)[v] == 1;
    assert v in multiset(rest);
    var m :| 0 <= m < |rest| && rest[m] == v;
    if m < i {
      j := m;
      assert faces[j] == faces[..i][m];
    } else {
      j := m + 1;
      assert faces[j] == faces[i + 1..][m - i];
    }
  }
}
