/** Shots, one after the other, against a closed form that knows only which cells were shot. */
module Shots {
  import opened Board

  ghost function InRange(shots: seq<Point>, size: int): (s: set<Point>)
    ensures forall p :: p in s <==> p in shots && InBoard(size, p.x, p.y)
  {
    set p | p in shots && InBoard(size, p.x, p.y)
  }

  function BatteredStatus(s: Status, shot: bool): Status {
    if !shot then s else if s == Boat || s == HitShot then HitShot else MissedShot
  }

  function BatteredCell(c: ShipCell, hits: set<Point>): ShipCell {
    if Point(c.x, c.y) in hits then c.(status := HitShot) else c
  }

  /** The board after every cell in `hits` has been shot: covered cells are hit, bare cells are
      missed, ship cells follow, and nothing else changes. */
  ghost function Battered(b: Board, hits: set<Point>): (r: Board)
    requires Shape(b)
    ensures Shape(r)
  {
    b.(cell := seq(MAX_BOARD_SIZE, y requires 0 <= y < MAX_BOARD_SIZE =>
         seq(MAX_BOARD_SIZE, x requires 0 <= x < MAX_BOARD_SIZE => BatteredStatus(b.cell[y][x], Point(x, y) in hits))),
       bateaux := seq(MAX_PLAYER, i requires 0 <= i < MAX_PLAYER =>
         if i < b.nbBateau then
           b.bateaux[i].(cell := seq(MAX_BOAT_SIZE, j requires 0 <= j < MAX_BOAT_SIZE =>
             if j < b.bateaux[i].taille then BatteredCell(b.bateaux[i].cell[j], hits) else b.bateaux[i].cell[j]))
         else b.bateaux[i]))
  }

  ghost predicate HitsInBoard(hits: set<Point>, size: int) {
    forall p | p in hits :: InBoard(size, p.x, p.y)
  }

  lemma {:induction false} BatteredNone(b: Board)
    requires Shape(b)
    ensures Battered(b, {}) == b
  {
    var r := Battered(b, {});
    forall y | 0 <= y < MAX_BOARD_SIZE ensures r.cell[y] == b.cell[y] {}
    forall i | 0 <= i < MAX_PLAYER ensures r.bateaux[i] == b.bateaux[i] {
      assert r.bateaux[i].cell == b.bateaux[i].cell;
    }
  }

  lemma BatteredCovers(b: Board, hits: set<Point>, x: int, y: int)
    requires Shape(b) && Sized(b)
    ensures Covered(Battered(b, hits), x, y) <==> Covered(b, x, y)
  {
    var r := Battered(b, hits);
    if i, j :| 0 <= i < r.nbBateau && 0 <= j < r.bateaux[i].taille && OnCell(r.bateaux[i].cell[j], x, y) {
      assert OnCell(b.bateaux[i].cell[j], x, y);
    }
    if i, j :| 0 <= i < b.nbBateau && 0 <= j < b.bateaux[i].taille && OnCell(b.bateaux[i].cell[j], x, y) {
      assert OnCell(r.bateaux[i].cell[j], x, y);
    }
  }

  lemma BatteredMatches(b: Board, size: int, hits: set<Point>, i: int, j: int)
    requires Agree(b, size) && HitsInBoard(hits, size) && 0 <= i < b.nbBateau && 0 <= j < b.bateaux[i].taille
    ensures CellAgrees(Battered(b, hits), size, Battered(b, hits).bateaux[i].cell[j])
  {
    CoveredAt(b, size, i, j);
  }

  lemma {:induction false} BatteredAgrees(b: Board, size: int, hits: set<Point>)
    requires Agree(b, size) && HitsInBoard(hits, size)
    ensures Agree(Battered(b, hits), size)
  {
    var r := Battered(b, hits);
    assert Sized(r);
    assert ShipsMatchGrid(r, size) by {
      forall i, j | 0 <= i < r.nbBateau && 0 <= j < r.bateaux[i].taille
        ensures CellAgrees(r, size, r.bateaux[i].cell[j])
      {
        BatteredMatches(b, size, hits, i, j);
      }
    }
    assert GridMatchesShips(r) by {
      forall x, y | InArray(x, y)
        ensures (r.cell[y][x] == Boat || r.cell[y][x] == HitShot) <==> Covered(r, x, y)
      {
        BatteredCovers(b, hits, x, y);
      }
    }
  }

  /** A ship cell of an agreeing board is on the board, and the grid there is BOAT or HIT like it. */
  lemma CoveredAt(b: Board, size: int, i: int, j: int)
    requires Agree(b, size) && 0 <= i < b.nbBateau && 0 <= j < b.bateaux[i].taille
    ensures CellAgrees(b, size, b.bateaux[i].cell[j])
    ensures b.bateaux[i].cell[j].status == Boat || b.bateaux[i].cell[j].status == HitShot
  {
    var c := b.bateaux[i].cell[j];
    assert CellAgrees(b, size, c);
    assert OnCell(c, c.x, c.y);
    assert Covered(b, c.x, c.y);
  }

  lemma ShotExtendsGrid(b: Board, size: int, hits: set<Point>, p: Point, x: int, y: int)
    requires Agree(b, size) && InBoard(size, p.x, p.y) && InArray(x, y)
    ensures AfterShot(Battered(b, hits), size, p).cell[y][x] == Battered(b, hits + {p}).cell[y][x]
  {
  }

  lemma ShotExtendsShips(b: Board, size: int, hits: set<Point>, p: Point, i: int, j: int)
    requires Agree(b, size) && HitsInBoard(hits, size) && InBoard(size, p.x, p.y)
    requires 0 <= i < MAX_PLAYER && 0 <= j < MAX_BOAT_SIZE
    ensures AfterShot(Battered(b, hits), size, p).bateaux[i].cell[j] == Battered(b, hits + {p}).bateaux[i].cell[j]
  {
    if i < b.nbBateau && j < b.bateaux[i].taille {
      CoveredAt(b, size, i, j);
      BatteredAgrees(b, size, hits);
      CoveredAt(Battered(b, hits), size, i, j);
    }
  }

  /** One shot adds one cell to the set. */
  lemma {:induction false} ShotExtends(b: Board, size: int, hits: set<Point>, p: Point)
    requires Agree(b, size) && HitsInBoard(hits, size) && InBoard(size, p.x, p.y)
    ensures AfterShot(Battered(b, hits), size, p) == Battered(b, hits + {p})
  {
    var r := AfterShot(Battered(b, hits), size, p);
    var t := Battered(b, hits + {p});
    forall y | 0 <= y < MAX_BOARD_SIZE ensures r.cell[y] == t.cell[y] {
      forall x | 0 <= x < MAX_BOARD_SIZE ensures r.cell[y][x] == t.cell[y][x] {
        ShotExtendsGrid(b, size, hits, p, x, y);
      }
    }
    forall i | 0 <= i < MAX_PLAYER ensures r.bateaux[i] == t.bateaux[i] {
      forall j | 0 <= j < MAX_BOAT_SIZE ensures r.bateaux[i].cell[j] == t.bateaux[i].cell[j] {
        ShotExtendsShips(b, size, hits, p, i, j);
      }
      assert r.bateaux[i].cell == t.bateaux[i].cell;
    }
    assert r.bateaux == t.bateaux && r.cell == t.cell;
  }

  /** The loop of mutating shots is the closed form on the set of cells shot. */
  lemma {:induction false} ShotsRefine(b: Board, size: int, shots: seq<Point>)
    requires Agree(b, size)
    ensures AfterShots(b, size, shots) == Battered(b, InRange(shots, size))
  {
    if shots == [] {
      assert InRange(shots, size) == {};
      BatteredNone(b);
    } else {
      var front, p := shots[..|shots| - 1], shots[|shots| - 1];
      ShotsRefine(b, size, front);
      assert shots == front + [p];
      if InBoard(size, p.x, p.y) {
        assert InRange(shots, size) == InRange(front, size) + {p};
        ShotExtends(b, size, InRange(front, size), p);
      } else {
        assert InRange(shots, size) == InRange(front, size);
      }
    }
  }

  /** Order, repetition and out-of-range shots do not matter. */
  lemma ShotsOrderIrrelevant(b: Board, size: int, shots: seq<Point>, others: seq<Point>)
    requires Agree(b, size) && InRange(shots, size) == InRange(others, size)
    ensures AfterShots(b, size, shots) == AfterShots(b, size, others)
  {
    ShotsRefine(b, size, shots);
    ShotsRefine(b, size, others);
  }

  /** The grid and the ship records still agree after any shots. */
  lemma ShotsAgree(b: Board, size: int, shots: seq<Point>)
    requires Agree(b, size)
    ensures Agree(AfterShots(b, size, shots), size)
  {
    ShotsRefine(b, size, shots);
    BatteredAgrees(b, size, InRange(shots, size));
  }

  // ----- sunk ships -----

  /** Every cell of ship i is hit. */
  ghost predicate Sunk(b: Board, i: nat)
    requires Shape(b) && Sized(b) && i < b.nbBateau
  {
    forall j | 0 <= j < b.bateaux[i].taille :: b.bateaux[i].cell[j].status == HitShot
  }

  ghost predicate ShipShot(b: Board, i: nat, hits: set<Point>)
    requires Shape(b) && Sized(b) && i < b.nbBateau
  {
    forall j | 0 <= j < b.bateaux[i].taille ::
      b.bateaux[i].cell[j].status == HitShot || Point(b.bateaux[i].cell[j].x, b.bateaux[i].cell[j].y) in hits
  }

  /** A ship is sunk exactly when each of its cells was hit before or is among the cells shot,
      whichever shots struck first and whichever other ships share the cell. */
  lemma SunkExactly(b: Board, size: int, shots: seq<Point>, i: nat)
    requires Agree(b, size) && i < b.nbBateau
    ensures Agree(AfterShots(b, size, shots), size) && AfterShots(b, size, shots).nbBateau == b.nbBateau
    ensures Sunk(AfterShots(b, size, shots), i) <==> ShipShot(b, i, InRange(shots, size))
  {
    var hits := InRange(shots, size);
    var r := AfterShots(b, size, shots);
    ShotsAgree(b, size, shots);
    ShotsRefine(b, size, shots);
    forall j | 0 <= j < b.bateaux[i].taille
      ensures r.bateaux[i].cell[j] == BatteredCell(b.bateaux[i].cell[j], hits)
    {}
  }

  /** A shot never raises a ship, moves one or changes how many there are. */
  lemma ShotKeeps(b: Board, size: int, p: Point)
    requires Agree(b, size)
    ensures var r := AfterShot(b, size, p);
      && Agree(r, size) && r.nbBateau == b.nbBateau
      && (forall i: nat | i < b.nbBateau :: Sunk(b, i) ==> Sunk(r, i))
      && (forall i: nat | i < b.nbBateau :: SameCells(b.bateaux[i], r.bateaux[i]))
  {
    assert [p][..0] == [];
    assert AfterShots(b, size, [p]) == AfterShot(b, size, p);
    ShotsRefine(b, size, [p]);
    ShotsAgree(b, size, [p]);
    forall i: nat | i < b.nbBateau ensures Sunk(b, i) ==> Sunk(AfterShot(b, size, p), i) {
      SunkExactly(b, size, [p], i);
    }
  }

  ghost predicate SameCells(s: Ship, t: Ship) {
    && |s.cell| == |t.cell| && s.taille == t.taille
    && (forall j | 0 <= j < |s.cell| :: s.cell[j].x == t.cell[j].x && s.cell[j].y == t.cell[j].y)
  }
}
