/** The verdict sent to each player at the end of a round: 7 carry on, 8 sunk, 9 lost, 10 won. */
module Verdicts {
  import opened Board
  import opened Shots

  /** The counter of the first loop after n ships. */
  ghost function CountSunk(b: Board, n: nat): (c: nat)
    requires Shape(b) && Sized(b) && n <= b.nbBateau
    ensures c <= n
  {
    if n == 0 then 0 else CountSunk(b, n - 1) + if Sunk(b, n - 1) then 1 else 0
  }

  /** The survivor flag after looking at n ships: the last one with an unhit cell, or -1. */
  ghost function LastAfloat(b: Board, n: nat): (k: int)
    requires Shape(b) && Sized(b) && n <= b.nbBateau
    ensures -1 <= k < n
  {
    if n == 0 then -1 else if !Sunk(b, n - 1) then n - 1 else LastAfloat(b, n - 1)
  }

  /** The id sent to player i, by the server's counting. */
  ghost function Verdict(b: Board, i: nat): int
    requires Shape(b) && Sized(b) && i < b.nbBateau
  {
    var sunk := CountSunk(b, b.nbBateau);
    if sunk == b.nbBateau then 9
    else if sunk == b.nbBateau - 1 then (if LastAfloat(b, b.nbBateau) == i then 10 else 9)
    else if Sunk(b, i) then 8 else 7
  }

  /** The game is decided: the ids sent this round are 9 and 10. */
  ghost predicate Decided(b: Board)
    requires Shape(b) && Sized(b)
  {
    CountSunk(b, b.nbBateau) >= b.nbBateau - 1
  }

  // ----- what the counting means -----

  ghost predicate AllSunkBut(b: Board, n: nat, k: int)
    requires Shape(b) && Sized(b) && n <= b.nbBateau
  {
    forall i: nat | i < n && i != k :: Sunk(b, i)
  }

  lemma {:induction false} CountMeaning(b: Board, n: nat)
    requires Shape(b) && Sized(b) && n <= b.nbBateau
    ensures CountSunk(b, n) == n <==> AllSunkBut(b, n, -1)
    ensures CountSunk(b, n) >= n - 1 <==> AllSunkBut(b, n, LastAfloat(b, n))
    ensures LastAfloat(b, n) >= 0 ==> !Sunk(b, LastAfloat(b, n))
    ensures LastAfloat(b, n) == -1 <==> AllSunkBut(b, n, -1)
  {
    if n > 0 {
      CountMeaning(b, n - 1);
      var k := LastAfloat(b, n - 1);
      if !Sunk(b, n - 1) && AllSunkBut(b, n, n - 1) {
        assert AllSunkBut(b, n - 1, -1);
      }
      if AllSunkBut(b, n, -1) {
        assert AllSunkBut(b, n - 1, -1) && Sunk(b, n - 1);
      }
      if Sunk(b, n - 1) {
        assert AllSunkBut(b, n, k) <==> AllSunkBut(b, n - 1, k);
      } else {
        assert AllSunkBut(b, n, n - 1) <==> AllSunkBut(b, n - 1, -1);
      }
    }
  }

  /** Ship k, and no other, is still afloat. */
  ghost predicate SoleSurvivor(b: Board, k: nat)
    requires Shape(b) && Sized(b)
  {
    k < b.nbBateau && !Sunk(b, k) && AllSunkBut(b, b.nbBateau, k)
  }

  ghost predicate TwoAfloat(b: Board)
    requires Shape(b) && Sized(b)
  {
    exists i: nat, k: nat :: i < k < b.nbBateau && !Sunk(b, i) && !Sunk(b, k)
  }

  /** Each verdict, as a statement about ships: won is being the only one afloat, lost is the game
      being decided against the player, and the other two split the players by their ship. */
  lemma VerdictMeaning(b: Board, i: nat)
    requires Shape(b) && Sized(b) && i < b.nbBateau
    ensures Verdict(b, i) == 10 <==> SoleSurvivor(b, i)
    ensures Verdict(b, i) == 9 <==> !TwoAfloat(b) && Sunk(b, i)
    ensures Verdict(b, i) == 8 <==> TwoAfloat(b) && Sunk(b, i)
    ensures Verdict(b, i) == 7 <==> TwoAfloat(b) && !Sunk(b, i)
    ensures Decided(b) <==> !TwoAfloat(b)
  {
    var n := b.nbBateau;
    CountMeaning(b, n);
    var k := LastAfloat(b, n);
    if Decided(b) {
      assert AllSunkBut(b, n, k);
    } else {
      var m: nat :| m < n && m != k && !Sunk(b, m);
      if m < k { assert !Sunk(b, m) && !Sunk(b, k); } else { assert !Sunk(b, k) && !Sunk(b, m); }
      assert TwoAfloat(b);
    }
  }

  /** At most one player is ever told it has won, and if the game is decided with a ship afloat
      exactly its owner is. */
  lemma OneWinner(b: Board, i: nat, k: nat)
    requires Shape(b) && Sized(b) && i < b.nbBateau && k < b.nbBateau
    ensures Verdict(b, i) == 10 && Verdict(b, k) == 10 ==> i == k
    ensures Decided(b) && !Sunk(b, i) ==> Verdict(b, i) == 10 && (k != i ==> Verdict(b, k) == 9)
  {
    VerdictMeaning(b, i);
    VerdictMeaning(b, k);
    if Decided(b) && !Sunk(b, i) && k != i {
      if i < k { assert !TwoAfloat(b); } else { assert !TwoAfloat(b); }
    }
  }
}
