/** On which boards of a game the client's view of them is right. */
module ViewLimits {
  import opened Board
  import opened Fleets
  import opened View
  import Requests

  /** The view of player i is right. */
  ghost predicate Faithful(b: Board, i: nat, size: nat, w: nat, stale: string)
    requires Agree(b, size) && i < b.nbBateau && size * size <= INFOS_SIZE && |stale| == INFOS_SIZE && w < INFOS_SIZE
  {
    ViewOf(b.cell, size, w, stale, ShipPoints(b.bateaux[i]))
  }

  /** If the scan is too short, there is a game in which no player sees the board right. */
  lemma ViewLosesShot(n: nat, size: nat, taille: nat, w: nat, stale: string) returns (b: Board)
    requires Fits(n, size, taille) && w < size * size <= INFOS_SIZE && |stale| == INFOS_SIZE
    ensures Played(b, n, size, taille) && Agree(b, size) && b.nbBateau == n
    ensures forall i: nat | i < n :: !Faithful(b, i, size, w, stale)
  {
    IndexSplit(size, w);
    b := MissPossible(n, size, taille, w / size, w % size);
    PlayedAgrees(b, n, size, taille);
    forall i: nat | i < n ensures !Faithful(b, i, size, w, stale) {
      CutCellLost(b.cell, size, w, stale, ShipPoints(b.bateaux[i]));
    }
  }

  /** The first cell cut away is shown without its shot. */
  lemma CutCellLost(g: Grid, n: nat, w: nat, stale: string, own: set<Point>)
    requires GridShape(g) && 0 < n <= MAX_BOARD_SIZE && w < n * n <= INFOS_SIZE && |stale| == INFOS_SIZE
    requires 0 <= w / n < n && 0 <= w % n < n && g[w % n][w / n] == MissedShot
    ensures !ViewOf(g, n, w, stale, own)
  {
    var x, y := w / n, w % n;
    IndexSplit(n, w);
    assert Scanned(Encode(g, n), w, stale)[w] == '\0';
    assert Decoded(Scanned(Encode(g, n), w, stale), n, own, x, y) != MissedShot;
  }

  ghost predicate RightFor(b: Board, n: nat, size: nat, i: nat, w: nat, stale: string)
    requires i < n && size * size <= INFOS_SIZE && |stale| == INFOS_SIZE && w < INFOS_SIZE
  {
    Agree(b, size) && b.nbBateau == n && Faithful(b, i, size, w, stale)
  }

  /** In every game of n players, every player's view is right, whatever its buffer held before. */
  ghost predicate AlwaysFaithful(n: nat, size: nat, taille: nat, w: nat)
    requires size * size <= INFOS_SIZE && w < INFOS_SIZE
  {
    forall b, i: nat, stale: string | Played(b, n, size, taille) && i < n && |stale| == INFOS_SIZE ::
      RightFor(b, n, size, i, w, stale)
  }

  lemma PlayedFaithful(b: Board, n: nat, size: nat, taille: nat, w: nat, i: nat, stale: string)
    requires Played(b, n, size, taille) && i < n && size * size <= w < INFOS_SIZE && |stale| == INFOS_SIZE
    ensures RightFor(b, n, size, i, w, stale)
  {
    PlayedAgrees(b, n, size, taille);
    ViewIsProjection(b.cell, size, w, stale, ShipPoints(b.bateaux[i]));
  }

  lemma SometimesWrong(n: nat, size: nat, taille: nat, w: nat)
    requires Fits(n, size, taille) && n > 0 && w < size * size <= INFOS_SIZE && w < INFOS_SIZE
    ensures !AlwaysFaithful(n, size, taille, w)
  {
    var stale := seq(INFOS_SIZE, i requires 0 <= i < INFOS_SIZE => '0');
    var b := ViewLosesShot(n, size, taille, w, stale);
    assert !RightFor(b, n, size, 0, w, stale);
  }

  /** The view is right in every game exactly when the whole string fits the scan. */
  lemma ViewFaithfulIff(n: nat, size: nat, taille: nat, w: nat)
    requires Fits(n, size, taille) && n > 0 && size * size <= INFOS_SIZE && w < INFOS_SIZE
    ensures AlwaysFaithful(n, size, taille, w) <==> size * size <= w
  {
    if size * size <= w {
      forall b, i: nat, stale: string | Played(b, n, size, taille) && i < n && |stale| == INFOS_SIZE
        ensures RightFor(b, n, size, i, w, stale)
      {
        PlayedFaithful(b, n, size, taille, w, i, stale);
      }
    } else {
      SometimesWrong(n, size, taille, w);
    }
  }

  /** With the client's own scan width: boards up to 9, so not the default board of 11. */
  lemma ClientViewFaithfulIff(n: nat, size: nat, taille: nat)
    requires Fits(n, size, taille) && n > 0 && size * size <= INFOS_SIZE
    ensures AlwaysFaithful(n, size, taille, Requests.CLIENT_SCAN) <==> size <= 9
  {
    ViewFaithfulIff(n, size, taille, Requests.CLIENT_SCAN);
    if size <= 9 { MulMonotone(size, 9, size); } else { MulMonotone(10, size, size); }
  }
}
