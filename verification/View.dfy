/** The board string: printed by the server, cut by the scan at the client, decoded there. */
module View {
  import opened Board
  import Requests

  /** The `infos` member of a request, terminator included. */
  const INFOS_SIZE := 1000

  function Digit(s: Status): char {
    match s
    case MissedShot => '1'
    case HitShot => '2'
    case Empty => '0'
    case Boat => '0'
  }

  function DigitStatus(c: char): Status {
    if c == '0' then Empty else if c == '1' then MissedShot
    else if c == '2' then HitShot else if c == '3' then Boat else Empty
  }

  lemma MulMonotone(a: int, b: int, n: nat)
    requires a <= b
    ensures a * n <= b * n
  {
  }

  lemma DivUnique(n: nat, q: int, r: int, p: int, t: int)
    requires 0 <= r < n && 0 <= t < n && q * n + r == p * n + t
    ensures q == p && r == t
  {
    if q < p { MulMonotone(q + 1, p, n); }
    if p < q { MulMonotone(p + 1, q, n); }
  }

  lemma IndexRange(n: nat, x: int, y: int)
    requires 0 <= x < n && 0 <= y < n
    ensures 0 <= x * n + y < n * n
    ensures (x * n + y) / n == x && (x * n + y) % n == y
  {
    MulMonotone(0, x, n);
    MulMonotone(x, n - 1, n);
    var k := x * n + y;
    DivUnique(n, x, y, k / n, k % n);
  }

  lemma IndexSplit(n: nat, k: int)
    requires 0 <= k < n * n
    ensures 0 <= k / n < n && 0 <= k % n < n && (k / n) * n + k % n == k
  {
    var q := k / n;
    if q >= n { MulMonotone(n, q, n); }
    if q < 0 { MulMonotone(q, -1, n); }
  }

  /** The string of envoyer_plateau: the k-th digit is for column k / n, row k % n. */
  function Encode(g: Grid, n: nat): (s: string)
    requires GridShape(g) && n <= MAX_BOARD_SIZE
    ensures |s| == n * n
  {
    seq(n * n, k requires 0 <= k < n * n => IndexSplit(n, k); Digit(g[k % n][k / n]))
  }

  lemma EncodeAt(g: Grid, n: nat, x: int, y: int)
    requires GridShape(g) && n <= MAX_BOARD_SIZE && 0 <= x < n && 0 <= y < n
    ensures 0 <= x * n + y < n * n && Encode(g, n)[x * n + y] == Digit(g[y][x])
  {
    IndexRange(n, x, y);
  }

  /** The digits: 1 for a miss, 2 for a hit, 0 for anything else. */
  lemma EncodeDigits(g: Grid, n: nat, x: int, y: int)
    requires GridShape(g) && n <= MAX_BOARD_SIZE && 0 <= x < n && 0 <= y < n
    ensures 0 <= x * n + y < n * n
    ensures Encode(g, n)[x * n + y] == if g[y][x] == MissedShot then '1' else if g[y][x] == HitShot then '2' else '0'
  {
    EncodeAt(g, n, x, y);
  }

  /** What a `%Ws` conversion leaves in a buffer that held `stale`: at most W characters, a
      terminator, and whatever was there before. */
  function Scanned(s: string, w: nat, stale: string): (r: string)
    requires |stale| == INFOS_SIZE && w < INFOS_SIZE
    ensures |r| == INFOS_SIZE
  {
    var t := Requests.Cut(s, w);
    t + ['\0'] + stale[|t| + 1..]
  }

  /** Sent as the payload of a request and scanned with width w, the board string arrives cut to w digits. */
  lemma BoardStringReceived(g: Grid, n: nat, w: nat, prior: Requests.Req)
    requires GridShape(g) && 0 < n <= MAX_BOARD_SIZE && w > 0
    ensures var sent := Requests.Req(2, "plateau", Encode(g, n));
            Requests.Unserial(Requests.Serial(sent), w, prior) == sent.(infos := Requests.Cut(Encode(g, n), w))
  {
    IndexRange(n, 0, 0);
    forall k | 0 <= k < n * n ensures Requests.NotSpace(Encode(g, n)[k]) { IndexSplit(n, k); }
    Requests.PayloadCut(Requests.Req(2, "plateau", Encode(g, n)), w, prior);
  }

  /** decode_plateau, per cell: the digit, then the client's own ship over what is still EMPTY. */
  function Decoded(infos: string, n: nat, own: set<Point>, x: int, y: int): Status
    requires 0 <= x < n && 0 <= y < n && n * n <= |infos|
  {
    IndexRange(n, x, y);
    var s := DigitStatus(infos[x * n + y]);
    if s == Empty && Point(x, y) in own then Boat else s
  }

  /** Which digits show what: any but 1, 2 and 3 leaves the cell to the own ship. */
  lemma DigitsShown(infos: string, n: nat, own: set<Point>, x: int, y: int)
    requires 0 <= x < n && 0 <= y < n && n * n <= |infos|
    ensures 0 <= x * n + y < |infos|
    ensures var shown, digit := Decoded(infos, n, own, x, y), infos[x * n + y];
      && (shown == MissedShot <==> digit == '1') && (shown == HitShot <==> digit == '2')
      && (shown == Boat <==> digit == '3' || (digit != '1' && digit != '2' && Point(x, y) in own))
  {
    IndexRange(n, x, y);
  }

  /** What a player may see of a cell: every shot, and nothing of the other players' ships. */
  function Projected(s: Status, own: bool): Status {
    if s == HitShot || s == MissedShot then s else if own then Boat else Empty
  }

  /** Every cell the client shows is the projection of the server's cell. */
  ghost predicate ViewOf(g: Grid, n: nat, w: nat, stale: string, own: set<Point>)
    requires GridShape(g) && n <= MAX_BOARD_SIZE && n * n <= INFOS_SIZE
    requires |stale| == INFOS_SIZE && w < INFOS_SIZE
  {
    forall x, y | 0 <= x < n && 0 <= y < n ::
      Decoded(Scanned(Encode(g, n), w, stale), n, own, x, y) == Projected(g[y][x], Point(x, y) in own)
  }

  lemma ViewIsProjection(g: Grid, n: nat, w: nat, stale: string, own: set<Point>)
    requires GridShape(g) && n <= MAX_BOARD_SIZE && n * n <= w < INFOS_SIZE && |stale| == INFOS_SIZE
    ensures ViewOf(g, n, w, stale, own)
  {
    forall x, y | 0 <= x < n && 0 <= y < n
      ensures Decoded(Scanned(Encode(g, n), w, stale), n, own, x, y) == Projected(g[y][x], Point(x, y) in own)
    {
      EncodeAt(g, n, x, y);
    }
  }

  /** The string tells two grids apart exactly by their shots: unhit ships leave no trace. */
  lemma EncodeHidesShips(g: Grid, h: Grid, n: nat)
    requires GridShape(g) && GridShape(h) && n <= MAX_BOARD_SIZE
    ensures Encode(g, n) == Encode(h, n) <==>
            forall x, y | 0 <= x < n && 0 <= y < n :: Projected(g[y][x], false) == Projected(h[y][x], false)
  {
    if Encode(g, n) == Encode(h, n) {
      forall x, y | 0 <= x < n && 0 <= y < n
        ensures Projected(g[y][x], false) == Projected(h[y][x], false)
      {
        EncodeAt(g, n, x, y);
        EncodeAt(h, n, x, y);
      }
    }
    if forall x, y | 0 <= x < n && 0 <= y < n :: Projected(g[y][x], false) == Projected(h[y][x], false) {
      forall k | 0 <= k < n * n ensures Encode(g, n)[k] == Encode(h, n)[k] {
        IndexSplit(n, k);
      }
    }
  }

  /** The cells of a ship record, as points. */
  ghost function ShipPoints(s: Ship): set<Point>
    requires 0 <= s.taille <= |s.cell|
  {
    set j | 0 <= j < s.taille :: Point(s.cell[j].x, s.cell[j].y)
  }

  /** On an agreeing board a player is shown BOAT exactly on its own unhit cells. */
  lemma OwnUnhitCellsShown(b: Board, size: int, i: nat, x: int, y: int)
    requires Agree(b, size) && i < b.nbBateau && InBoard(size, x, y)
    ensures Projected(b.cell[y][x], Point(x, y) in ShipPoints(b.bateaux[i])) == Boat <==>
            exists j :: 0 <= j < b.bateaux[i].taille && b.bateaux[i].cell[j] == ShipCell(x, y, Boat)
  {
    var s := b.bateaux[i];
    if Point(x, y) in ShipPoints(s) {
      var j :| 0 <= j < s.taille && Point(s.cell[j].x, s.cell[j].y) == Point(x, y);
      assert CellAgrees(b, size, s.cell[j]);
      assert OnCell(s.cell[j], x, y) && Covered(b, x, y);
    }
    if j :| 0 <= j < s.taille && s.cell[j] == ShipCell(x, y, Boat) {
      assert CellAgrees(b, size, s.cell[j]);
    }
  }
}
