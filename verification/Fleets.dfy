/** The boards that a game can bring about: any ships placed on an empty board, then any shots. */
module Fleets {
  import opened Board
  import opened Placement
  import opened Shots
  import opened Verdicts

  /** The board before the first ship; the ship records may hold anything. */
  ghost predicate Cleared(b: Board) {
    Shape(b) && b.nbBateau == 0 && forall x, y | InArray(x, y) :: b.cell[y][x] == Empty
  }

  ghost predicate Fits(n: nat, size: int, taille: int) {
    n <= MAX_PLAYER && 1 <= taille <= MAX_BOAT_SIZE && 2 * taille <= size <= MAX_BOARD_SIZE
  }

  ghost predicate AllConforming(ships: seq<Anchor>, size: int, taille: int) {
    forall k | 0 <= k < |ships| :: Conforming(ships[k], size, taille)
  }

  /** The ships placed one after the other, under ids 0, 1, ... */
  ghost function Fleet(b: Board, size: int, taille: int, ships: seq<Anchor>): (r: Board)
    requires Cleared(b) && Fits(|ships|, size, taille) && AllConforming(ships, size, taille)
    ensures Agree(r, size) && NoShotsYet(r) && r.nbBateau == |ships|
  {
    if ships == [] then
      EmptyBoardAgrees(b, size);
      b
    else
      var n := |ships| - 1;
      var r, a := Fleet(b, size, taille, ships[..n]), ships[n];
      PlacementAgrees(r, size, taille, a.x, a.y, a.direction);
      PlaceCellsClosed(r, n, taille, a.x, a.y, a.direction, taille);
      Placed(r, n, taille, a.x, a.y, a.direction)
  }

  /** A board on which n players have placed ships of this size, and any cells have been shot. */
  ghost predicate Played(b: Board, n: nat, size: int, taille: int) {
    && Fits(n, size, taille)
    && exists start, ships: seq<Anchor>, shots: seq<Point> ::
         Cleared(start) && |ships| == n && AllConforming(ships, size, taille)
         && b == AfterShots(Fleet(start, size, taille, ships), size, shots)
  }

  lemma PlayedAgrees(b: Board, n: nat, size: int, taille: int)
    requires Played(b, n, size, taille)
    ensures Agree(b, size) && b.nbBateau == n
  {
    var start, ships: seq<Anchor>, shots: seq<Point> :|
      Cleared(start) && |ships| == n && AllConforming(ships, size, taille)
      && b == AfterShots(Fleet(start, size, taille, ships), size, shots);
    ShotsAgree(Fleet(start, size, taille, ships), size, shots);
    ShotsRefine(Fleet(start, size, taille, ships), size, shots);
  }

  function EmptySea(): (b: Board)
    ensures Cleared(b)
  {
    var row := seq(MAX_BOARD_SIZE, i requires 0 <= i < MAX_BOARD_SIZE => Empty);
    var ship := Ship(seq(MAX_BOAT_SIZE, i requires 0 <= i < MAX_BOAT_SIZE => ShipCell(0, 0, Empty)), 0);
    Board(seq(MAX_BOARD_SIZE, i requires 0 <= i < MAX_BOARD_SIZE => row),
          seq(MAX_PLAYER, i requires 0 <= i < MAX_PLAYER => ship), 0)
  }

  /** n ships in row y, all in the same place. */
  function Stacked(n: nat, y: int): (s: seq<Anchor>)
    ensures |s| == n && forall k | 0 <= k < n :: s[k] == Anchor(0, y, 'd')
  {
    seq(n, k requires 0 <= k < n => Anchor(0, y, 'd'))
  }

  lemma RowConforming(a: Anchor, size: int, taille: int)
    requires a.x == 0 && a.direction == 'd' && 0 <= a.y < size && taille <= size
    ensures Conforming(a, size, taille)
  {
  }

  /** Ship k of a fleet is where its anchor says. */
  lemma {:induction false} FleetShip(b: Board, size: int, taille: int, ships: seq<Anchor>, k: nat)
    requires Cleared(b) && Fits(|ships|, size, taille) && AllConforming(ships, size, taille) && k < |ships|
    ensures var s := Fleet(b, size, taille, ships).bateaux[k];
      && s.taille == taille
      && forall j | 0 <= j < taille :: s.cell[j] ==
           ShipCell(ShipX(ships[k].x, ships[k].direction, j), ShipY(ships[k].y, ships[k].direction, j), Boat)
    decreases |ships|
  {
    var n := |ships| - 1;
    var r, a := Fleet(b, size, taille, ships[..n]), ships[n];
    PlaceCellsClosed(r, n, taille, a.x, a.y, a.direction, taille);
    if k < n { FleetShip(b, size, taille, ships[..n], k); }
  }

  /** A cell that no ship of the fleet reaches stays empty. */
  lemma {:induction false} FleetMisses(b: Board, size: int, taille: int, ships: seq<Anchor>, x: int, y: int)
    requires Cleared(b) && Fits(|ships|, size, taille) && AllConforming(ships, size, taille) && InArray(x, y)
    requires forall k | 0 <= k < |ships| :: !OnShip(ships[k].x, ships[k].y, ships[k].direction, taille, x, y)
    ensures Fleet(b, size, taille, ships).cell[y][x] == Empty
    decreases |ships|
  {
    if ships != [] {
      var n := |ships| - 1;
      var r, a := Fleet(b, size, taille, ships[..n]), ships[n];
      PlaceCellsClosed(r, n, taille, a.x, a.y, a.direction, taille);
      FleetMisses(b, size, taille, ships[..n], x, y);
    }
  }

  /** Whatever the players and the sizes, and wherever it falls, a shot can miss on a board of a game. */
  lemma MissPossible(n: nat, size: int, taille: int, x: int, y: int) returns (b: Board)
    requires Fits(n, size, taille) && InBoard(size, x, y)
    ensures Played(b, n, size, taille) && b.cell[y][x] == MissedShot
  {
    var ships, p := Stacked(n, if y == 0 then 1 else 0), Point(x, y);
    forall k | 0 <= k < n ensures Conforming(ships[k], size, taille) { RowConforming(ships[k], size, taille); }
    var sea := Fleet(EmptySea(), size, taille, ships);
    FleetMisses(EmptySea(), size, taille, ships, x, y);
    b := AfterShot(sea, size, p);
    OneShot(sea, size, p);
    assert b == AfterShots(sea, size, [p]);
  }

  lemma OneShot(b: Board, size: int, p: Point)
    requires Shape(b) && size <= MAX_BOARD_SIZE
    ensures AfterShots(b, size, [p]) == AfterShot(b, size, p)
  {
    assert [p][..0] == [];
  }

  // ----- a game with one survivor -----

  function RowShots(taille: nat, y: int): (s: seq<Point>)
    ensures |s| == taille && forall j | 0 <= j < taille :: s[j] == Point(j, y)
  {
    seq(taille, j requires 0 <= j < taille => Point(j, y))
  }

  /** A game that leaves one ship afloat: the sunk counter is one short of the number of ships, so the
      server announces a winner and leaves its state as it is. */
  lemma OneSurvivorPossible(n: nat, size: int, taille: int) returns (b: Board)
    requires Fits(n, size, taille) && n >= 2
    ensures Played(b, n, size, taille) && Shape(b) && Sized(b) && b.nbBateau == n
    ensures Decided(b) && SoleSurvivor(b, 0) && CountSunk(b, n) == n - 1
  {
    var ships, shots := [Anchor(0, 0, 'd')] + Stacked(n - 1, 1), RowShots(taille, 1);
    forall k | 0 <= k < n ensures Conforming(ships[k], size, taille) { RowConforming(ships[k], size, taille); }
    var sea := Fleet(EmptySea(), size, taille, ships);
    b := AfterShots(sea, size, shots);
    PlayedAgrees(b, n, size, taille);
    forall k: nat | k < n ensures Sunk(b, k) <==> k != 0 {
      FleetShip(EmptySea(), size, taille, ships, k);
      SunkExactly(sea, size, shots, k);
      RowShot(sea, size, shots, k, if k == 0 then 0 else 1, taille);
    }
    assert SoleSurvivor(b, 0);
    VerdictMeaning(b, 0);
    CountMeaning(b, n);
  }

  lemma RowShot(b: Board, size: int, shots: seq<Point>, k: nat, y: int, taille: int)
    requires Agree(b, size) && k < b.nbBateau && b.bateaux[k].taille == taille && 1 <= taille && 0 <= y < size
    requires forall j | 0 <= j < taille :: b.bateaux[k].cell[j] == ShipCell(j, y, Boat)
    requires shots == RowShots(taille, 1) && taille <= size && 2 <= size
    ensures ShipShot(b, k, InRange(shots, size)) <==> y == 1
  {
    if y == 1 {
      forall j | 0 <= j < taille ensures Point(j, 1) in InRange(shots, size) { assert shots[j] in shots; }
    } else {
      assert b.bateaux[k].cell[0] == ShipCell(0, y, Boat);
      assert Point(0, y) !in shots;
    }
  }
}
