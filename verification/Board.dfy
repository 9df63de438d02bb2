/** The server's two records of the same battle: the grid of cell statuses and the ship records.
    Everything here is on values; class `Game` in Server.dfy holds them in arrays and is proved
    against these functions. */
module Board {

  const MAX_BOARD_SIZE := 50
  const MAX_BOAT_SIZE := 10
  const MAX_PLAYER := 100

  datatype Status = Empty | MissedShot | HitShot | Boat

  datatype Point = Point(x: int, y: int)

  datatype ShipCell = ShipCell(x: int, y: int, status: Status)

  datatype Ship = Ship(cell: seq<ShipCell>, taille: int)

  /** `cell[y][x]`, as in the source: row first. */
  type Grid = seq<seq<Status>>

  datatype Board = Board(cell: Grid, bateaux: seq<Ship>, nbBateau: nat)

  /** The fixed array sizes of `board_t`. */
  ghost predicate GridShape(g: Grid) {
    |g| == MAX_BOARD_SIZE && forall y | 0 <= y < MAX_BOARD_SIZE :: |g[y]| == MAX_BOARD_SIZE
  }

  ghost predicate Shape(b: Board) {
    && GridShape(b.cell)
    && |b.bateaux| == MAX_PLAYER
    && (forall i | 0 <= i < MAX_PLAYER :: |b.bateaux[i].cell| == MAX_BOAT_SIZE)
  }

  predicate InArray(x: int, y: int) {
    0 <= x < MAX_BOARD_SIZE && 0 <= y < MAX_BOARD_SIZE
  }

  predicate InBoard(size: int, x: int, y: int) {
    0 <= x < size && 0 <= y < size
  }

  function SetCell(g: Grid, x: int, y: int, s: Status): (r: Grid)
    requires GridShape(g) && InArray(x, y)
    ensures GridShape(r)
  {
    g[y := g[y][x := s]]
  }

  // ----- placing a ship -----

  predicate IsDirection(d: char) {
    d == 'h' || d == 'b' || d == 'g' || d == 'd'
  }

  /** Column of the i-th cell of a ship anchored at column x. */
  function ShipX(x: int, d: char, i: int): int {
    if d == 'g' then x - i else if d == 'd' then x + i else x
  }

  /** Row of the i-th cell of a ship anchored at row y. */
  function ShipY(y: int, d: char, i: int): int {
    if d == 'h' then y - i else if d == 'b' then y + i else y
  }

  /** The first `taille` cells of the ship lie in a board of the given size. */
  ghost predicate ShipInside(size: int, taille: int, x: int, y: int, d: char) {
    forall i | 0 <= i < taille :: InBoard(size, ShipX(x, d, i), ShipY(y, d, i))
  }

  function PlaceCell(b: Board, id: nat, taille: int, x: int, y: int, d: char, i: nat): (r: Board)
    requires Shape(b) && id < MAX_PLAYER && i < MAX_BOAT_SIZE
    requires InArray(ShipX(x, d, i), ShipY(y, d, i))
    ensures Shape(r)
  {
    var px, py := ShipX(x, d, i), ShipY(y, d, i);
    b.(bateaux := b.bateaux[id := Ship(b.bateaux[id].cell[i := ShipCell(px, py, Boat)], taille)],
       cell := SetCell(b.cell, px, py, Boat))
  }

  /** The first n iterations of the placement loop. */
  function PlaceCells(b: Board, id: nat, taille: int, x: int, y: int, d: char, n: nat): (r: Board)
    requires Shape(b) && id < MAX_PLAYER && n <= MAX_BOAT_SIZE
    requires ShipInside(MAX_BOARD_SIZE, n, x, y, d)
    ensures Shape(r)
  {
    if n == 0 then b
    else PlaceCell(PlaceCells(b, id, taille, x, y, d, n - 1), id, taille, x, y, d, n - 1)
  }

  ghost predicate CanPlace(b: Board, id: int, taille: int, x: int, y: int, d: char) {
    && Shape(b) && 0 <= id < MAX_PLAYER && 0 <= taille <= MAX_BOAT_SIZE
    && (IsDirection(d) ==> ShipInside(MAX_BOARD_SIZE, taille, x, y, d))
  }

  /** placer_bateau: an unknown direction letter changes nothing. */
  function Placed(b: Board, id: nat, taille: nat, x: int, y: int, d: char): (r: Board)
    requires CanPlace(b, id, taille, x, y, d)
    ensures Shape(r)
  {
    if IsDirection(d) then
      var c := PlaceCells(b, id, taille, x, y, d, taille);
      c.(nbBateau := c.nbBateau + 1)
    else b
  }

  /** What the placement loop has written after n iterations, without reference to the loop. */
  lemma {:induction false} PlaceCellsClosed(b: Board, id: nat, taille: int, x: int, y: int, d: char, n: nat)
    requires Shape(b) && id < MAX_PLAYER && n <= MAX_BOAT_SIZE
    requires ShipInside(MAX_BOARD_SIZE, n, x, y, d)
    ensures var r := PlaceCells(b, id, taille, x, y, d, n);
      && r.nbBateau == b.nbBateau
      && (forall k | 0 <= k < MAX_PLAYER && k != id :: r.bateaux[k] == b.bateaux[k])
      && (n > 0 ==> r.bateaux[id].taille == taille)
      && (n == 0 ==> r == b)
      && (forall j | 0 <= j < MAX_BOAT_SIZE :: r.bateaux[id].cell[j] ==
            if j < n then ShipCell(ShipX(x, d, j), ShipY(y, d, j), Boat) else b.bateaux[id].cell[j])
      && (forall p, q | InArray(p, q) :: r.cell[q][p] ==
            if OnShip(x, y, d, n, p, q) then Boat else b.cell[q][p])
  {
    if n > 0 {
      PlaceCellsClosed(b, id, taille, x, y, d, n - 1);
      forall p, q | InArray(p, q)
        ensures OnShip(x, y, d, n, p, q) <==>
                OnShip(x, y, d, n - 1, p, q) || (p == ShipX(x, d, n - 1) && q == ShipY(y, d, n - 1))
      {
        if OnShip(x, y, d, n, p, q) {
          var i :| 0 <= i < n && ShipX(x, d, i) == p && ShipY(y, d, i) == q;
          assert i == n - 1 || i < n - 1;
        }
      }
    }
  }

  ghost predicate OnShip(x: int, y: int, d: char, n: nat, p: int, q: int) {
    exists i :: 0 <= i < n && ShipX(x, d, i) == p && ShipY(y, d, i) == q
  }

  /** The interval of cells that a ship of n cells anchored at (x, y) covers: leftwards for 'g', rightwards for 'd',
      upwards for 'h', downwards for 'b'. */
  ghost predicate InInterval(x: int, y: int, d: char, n: int, p: int, q: int) {
    || (d == 'g' && q == y && x - n < p <= x)
    || (d == 'd' && q == y && x <= p < x + n)
    || (d == 'h' && p == x && y - n < q <= y)
    || (d == 'b' && p == x && y <= q < y + n)
  }

  lemma ShipIsInterval(x: int, y: int, d: char, n: nat, p: int, q: int)
    requires IsDirection(d)
    ensures OnShip(x, y, d, n, p, q) <==> InInterval(x, y, d, n, p, q)
  {
    if InInterval(x, y, d, n, p, q) {
      var i := if d == 'g' then x - p else if d == 'd' then p - x else if d == 'h' then y - q else q - y;
      assert 0 <= i < n && ShipX(x, d, i) == p && ShipY(y, d, i) == q;
    }
  }

  /** A ship lies on the board exactly if its anchor does and the board reaches far enough in its direction. */
  lemma ShipInsideIff(size: int, n: int, x: int, y: int, d: char)
    requires IsDirection(d) && n >= 1
    ensures d == 'g' ==> (ShipInside(size, n, x, y, d) <==> InBoard(size, x, y) && x >= n - 1)
    ensures d == 'd' ==> (ShipInside(size, n, x, y, d) <==> InBoard(size, x, y) && x + n <= size)
    ensures d == 'h' ==> (ShipInside(size, n, x, y, d) <==> InBoard(size, x, y) && y >= n - 1)
    ensures d == 'b' ==> (ShipInside(size, n, x, y, d) <==> InBoard(size, x, y) && y + n <= size)
  {
    if ShipInside(size, n, x, y, d) {
      assert InBoard(size, ShipX(x, d, 0), ShipY(y, d, 0));
      assert InBoard(size, ShipX(x, d, n - 1), ShipY(y, d, n - 1));
    }
  }

  /** placer_bateau, cell by cell: record cell j is at distance j from the anchor in the ship's direction, the grid
      turns BOAT on exactly the interval, one ship more is counted, and an unknown letter changes nothing. */
  lemma PlacedShip(b: Board, id: nat, taille: nat, x: int, y: int, d: char)
    requires CanPlace(b, id, taille, x, y, d) && taille > 0
    ensures !(d == 'g' || d == 'd' || d == 'h' || d == 'b') ==> Placed(b, id, taille, x, y, d) == b
    ensures d == 'g' || d == 'd' || d == 'h' || d == 'b' ==>
      var r := Placed(b, id, taille, x, y, d);
      && r.nbBateau == b.nbBateau + 1 && r.bateaux[id].taille == taille
      && (forall k | 0 <= k < MAX_PLAYER && k != id :: r.bateaux[k] == b.bateaux[k])
      && (forall j | 0 <= j < taille :: r.bateaux[id].cell[j] ==
            match d
            case 'g' => ShipCell(x - j, y, Boat)
            case 'd' => ShipCell(x + j, y, Boat)
            case 'h' => ShipCell(x, y - j, Boat)
            case _ => ShipCell(x, y + j, Boat))
      && (forall p, q | InArray(p, q) ::
            r.cell[q][p] == if InInterval(x, y, d, taille, p, q) then Boat else b.cell[q][p])
  {
    if IsDirection(d) {
      PlaceCellsClosed(b, id, taille, x, y, d, taille);
      forall p, q | InArray(p, q) ensures OnShip(x, y, d, taille, p, q) <==> InInterval(x, y, d, taille, p, q) {
        ShipIsInterval(x, y, d, taille, p, q);
      }
    }
  }

  // ----- shooting -----

  function HitShipCell(c: ShipCell, x: int, y: int): ShipCell {
    if c.x == y && c.y == x then c.(status := HitShot) else c
  }

  function HitShip(s: Ship, x: int, y: int): (r: Ship)
    ensures |r.cell| == |s.cell| && r.taille == s.taille
  {
    s.(cell := seq(|s.cell|, j requires 0 <= j < |s.cell| =>
         if j < s.taille then HitShipCell(s.cell[j], x, y) else s.cell[j]))
  }

  /** tirer_bateau. Its caller passes (row, column) for the parameters named (x, y). */
  function Struck(b: Board, x: int, y: int): (r: Board)
    requires Shape(b)
    ensures Shape(r)
  {
    b.(bateaux := seq(MAX_PLAYER, i requires 0 <= i < MAX_PLAYER =>
         if i < b.nbBateau then HitShip(b.bateaux[i], x, y) else b.bateaux[i]))
  }

  /** recevoir_tir on a "coup" request, for a board of the given size. */
  function AfterShot(b: Board, size: int, p: Point): (r: Board)
    requires Shape(b) && size <= MAX_BOARD_SIZE
    ensures Shape(r)
  {
    if InBoard(size, p.x, p.y) then
      match b.cell[p.y][p.x]
      case Boat => Struck(b.(cell := SetCell(b.cell, p.x, p.y, HitShot)), p.y, p.x)
      case HitShot => b
      case _ => b.(cell := SetCell(b.cell, p.x, p.y, MissedShot))
    else b
  }

  function AfterShots(b: Board, size: int, shots: seq<Point>): (r: Board)
    requires Shape(b) && size <= MAX_BOARD_SIZE
    ensures Shape(r)
  {
    if shots == [] then b
    else AfterShot(AfterShots(b, size, shots[..|shots| - 1]), size, shots[|shots| - 1])
  }

  // ----- the two records agree -----

  predicate OnCell(c: ShipCell, x: int, y: int) {
    c.x == x && c.y == y
  }

  /** Some placed ship has a cell at (x, y). */
  ghost predicate Covered(b: Board, x: int, y: int)
    requires Shape(b) && b.nbBateau <= MAX_PLAYER && Sized(b)
  {
    exists i, j :: 0 <= i < b.nbBateau && 0 <= j < b.bateaux[i].taille && OnCell(b.bateaux[i].cell[j], x, y)
  }

  ghost predicate Sized(b: Board)
    requires Shape(b)
  {
    && b.nbBateau <= MAX_PLAYER
    && (forall i | 0 <= i < b.nbBateau :: 0 <= b.bateaux[i].taille <= MAX_BOAT_SIZE)
  }

  ghost predicate CellAgrees(b: Board, size: int, c: ShipCell)
    requires Shape(b) && size <= MAX_BOARD_SIZE
  {
    InBoard(size, c.x, c.y) && c.status == b.cell[c.y][c.x]
  }

  /** Every ship cell lies on the board and carries the grid's status there. */
  ghost predicate ShipsMatchGrid(b: Board, size: int)
    requires Shape(b) && Sized(b) && size <= MAX_BOARD_SIZE
  {
    forall i, j | 0 <= i < b.nbBateau && 0 <= j < b.bateaux[i].taille ::
      CellAgrees(b, size, b.bateaux[i].cell[j])
  }

  /** A grid cell is BOAT or HIT exactly when a ship covers it; so no MISSED cell is covered. */
  ghost predicate GridMatchesShips(b: Board)
    requires Shape(b) && Sized(b)
  {
    forall x, y | InArray(x, y) ::
      (b.cell[y][x] == Boat || b.cell[y][x] == HitShot) <==> Covered(b, x, y)
  }

  ghost predicate Agree(b: Board, size: int) {
    && Shape(b) && Sized(b) && 0 <= size <= MAX_BOARD_SIZE
    && ShipsMatchGrid(b, size) && GridMatchesShips(b)
  }

  ghost predicate NoShotsYet(b: Board)
    requires Shape(b)
  {
    forall x, y | InArray(x, y) :: b.cell[y][x] == Empty || b.cell[y][x] == Boat
  }

  lemma {:induction false} EmptyBoardAgrees(b: Board, size: int)
    requires Shape(b) && 0 <= size <= MAX_BOARD_SIZE && b.nbBateau == 0
    requires forall x, y | InArray(x, y) :: b.cell[y][x] == Empty
    ensures Agree(b, size) && NoShotsYet(b)
  {
  }

  /** Placing the next ship, even over others, keeps the two records in agreement. */
  lemma {:induction false} PlacementAgrees(b: Board, size: int, taille: nat, x: int, y: int, d: char)
    requires Agree(b, size) && NoShotsYet(b) && b.nbBateau < MAX_PLAYER
    requires taille <= MAX_BOAT_SIZE && IsDirection(d) && ShipInside(size, taille, x, y, d) && taille > 0
    ensures CanPlace(b, b.nbBateau, taille, x, y, d)
    ensures Agree(Placed(b, b.nbBateau, taille, x, y, d), size)
    ensures NoShotsYet(Placed(b, b.nbBateau, taille, x, y, d))
  {
    forall i | 0 <= i < taille
      ensures InBoard(MAX_BOARD_SIZE, ShipX(x, d, i), ShipY(y, d, i))
    {
      assert InBoard(size, ShipX(x, d, i), ShipY(y, d, i));
    }
    var id := b.nbBateau;
    var r := Placed(b, id, taille, x, y, d);
    PlaceCellsClosed(b, id, taille, x, y, d, taille);
    forall i, j | 0 <= i < r.nbBateau && 0 <= j < r.bateaux[i].taille
      ensures CellAgrees(r, size, r.bateaux[i].cell[j])
    {
      var c := r.bateaux[i].cell[j];
      if i == id {
        assert InBoard(size, ShipX(x, d, j), ShipY(y, d, j));
        assert OnShip(x, y, d, taille, c.x, c.y);
      } else {
        assert CellAgrees(b, size, b.bateaux[i].cell[j]);
        assert OnCell(b.bateaux[i].cell[j], c.x, c.y);
        assert Covered(b, c.x, c.y);
      }
    }
    forall p, q | InArray(p, q)
      ensures (r.cell[q][p] == Boat || r.cell[q][p] == HitShot) <==> Covered(r, p, q)
    {
      PlacementCovers(b, taille, x, y, d, p, q);
    }
  }

  lemma {:induction false} PlacementCovers(b: Board, taille: nat, x: int, y: int, d: char, p: int, q: int)
    requires Shape(b) && Sized(b) && b.nbBateau < MAX_PLAYER
    requires CanPlace(b, b.nbBateau, taille, x, y, d) && IsDirection(d) && taille > 0
    ensures Sized(Placed(b, b.nbBateau, taille, x, y, d))
    ensures Covered(Placed(b, b.nbBateau, taille, x, y, d), p, q)
            <==> OnShip(x, y, d, taille, p, q) || Covered(b, p, q)
  {
    var id := b.nbBateau;
    var r := Placed(b, id, taille, x, y, d);
    PlaceCellsClosed(b, id, taille, x, y, d, taille);
    if Covered(r, p, q) {
      var i, j :| 0 <= i < r.nbBateau && 0 <= j < r.bateaux[i].taille && OnCell(r.bateaux[i].cell[j], p, q);
      if i == id {
        assert ShipX(x, d, j) == p && ShipY(y, d, j) == q;
      } else {
        assert OnCell(b.bateaux[i].cell[j], p, q);
      }
    }
    if OnShip(x, y, d, taille, p, q) {
      var i :| 0 <= i < taille && ShipX(x, d, i) == p && ShipY(y, d, i) == q;
      assert OnCell(r.bateaux[id].cell[i], p, q);
    }
    if Covered(b, p, q) {
      var i, j :| 0 <= i < b.nbBateau && 0 <= j < b.bateaux[i].taille && OnCell(b.bateaux[i].cell[j], p, q);
      assert OnCell(r.bateaux[i].cell[j], p, q);
    }
  }
}
