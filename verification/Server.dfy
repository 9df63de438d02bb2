/** The server's `game_t` and the functions of serveur.c that update it in place. */
module Server {
  import opened Board
  import opened Shots
  import opened Verdicts
  import View
  import opened Placement

  ghost predicate RecordsShip(s: Ship, taille: int, m: Anchor) {
    && |s.cell| == MAX_BOAT_SIZE && s.taille == taille <= MAX_BOAT_SIZE
    && (forall j | 0 <= j < taille ::
          s.cell[j] == ShipCell(ShipX(m.x, m.direction, j), ShipY(m.y, m.direction, j), Boat))
  }

  /** The first n ships are those of the first n requests. */
  ghost predicate Collected(b: Board, taille: int, mail: seq<Anchor>, n: nat)
    requires n <= |mail|
  {
    n <= |b.bateaux| && forall k | 0 <= k < n :: RecordsShip(b.bateaux[k], taille, mail[k])
  }

  /** The loop state of the collection: n ships in, under ids 0 .. n - 1, nothing shot yet. */
  ghost predicate Collecting(b: Board, size: int, taille: int, mail: seq<Anchor>, n: nat)
    requires n <= |mail|
  {
    Agree(b, size) && NoShotsYet(b) && b.nbBateau == n && Collected(b, taille, mail, n)
  }

  lemma CollectOne(b: Board, size: int, taille: nat, mail: seq<Anchor>, j: nat)
    requires j < |mail| && j < MAX_PLAYER && Collecting(b, size, taille, mail, j)
    requires 1 <= taille <= MAX_BOAT_SIZE && Conforming(mail[j], size, taille)
    ensures CanPlace(b, j, taille, mail[j].x, mail[j].y, mail[j].direction)
    ensures Collecting(Placed(b, j, taille, mail[j].x, mail[j].y, mail[j].direction), size, taille, mail, j + 1)
  {
    var m := mail[j];
    PlacementAgrees(b, size, taille, m.x, m.y, m.direction);
    PlaceCellsClosed(b, j, taille, m.x, m.y, m.direction, taille);
  }

  lemma PrefixGrows(s: string, all: string)
    requires s <= all && |s| < |all|
    ensures s + [all[|s|]] <= all
  {
  }

  ghost function GridOf(a: array2<Status>): (g: Grid)
    requires a.Length0 == a.Length1 == MAX_BOARD_SIZE
    reads a
    ensures GridShape(g)
  {
    seq(MAX_BOARD_SIZE, y requires 0 <= y < a.Length0 reads a =>
      seq(MAX_BOARD_SIZE, x requires 0 <= x < a.Length1 reads a => a[y, x]))
  }

  class Game {
    var cell: array2<Status>
    var bateaux: array<Ship>
    var nbBateau: nat
    var nbJoueur: nat
    var taillePlateau: nat
    var tailleBateau: nat
    var etat: int

    ghost predicate Valid()
      reads `cell, `bateaux, bateaux
    {
      && cell.Length0 == cell.Length1 == MAX_BOARD_SIZE
      && bateaux.Length == MAX_PLAYER
      && (forall i | 0 <= i < MAX_PLAYER :: |bateaux[i].cell| == MAX_BOAT_SIZE)
    }

    /** The arrays as a value. */
    ghost function Contents(): (b: Board)
      requires Valid()
      reads `cell, `bateaux, `nbBateau, cell, bateaux
      ensures Shape(b)
    {
      Board(GridOf(cell), bateaux[..], nbBateau)
    }

    twostate predicate SameSettings()
      reads this
    {
      && cell == old(cell) && bateaux == old(bateaux)
      && nbJoueur == old(nbJoueur) && taillePlateau == old(taillePlateau) && tailleBateau == old(tailleBateau)
    }

    method PlacerBateau(id: nat, taille: nat, x: int, y: int, direction: char)
      requires Valid() && CanPlace(Contents(), id, taille, x, y, direction)
      modifies this`nbBateau, cell, bateaux
      ensures Valid() && SameSettings()
      ensures Contents() == Placed(old(Contents()), id, taille, x, y, direction)
    {
      if IsDirection(direction) {
        ghost var start := Contents();
        var i := 0;
        while i < taille
          invariant 0 <= i <= taille && Valid() && SameSettings() && nbBateau == old(nbBateau)
          invariant Contents() == PlaceCells(start, id, taille, x, y, direction, i)
        {
          ghost var prev := Contents();
          var px, py := ShipX(x, direction, i), ShipY(y, direction, i);
          assert InBoard(MAX_BOARD_SIZE, px, py);
          bateaux[id] := Ship(bateaux[id].cell[i := ShipCell(px, py, Boat)], taille);
          cell[py, px] := Boat;
          SameBoard(PlaceCell(prev, id, taille, x, y, direction, i));
          i := i + 1;
        }
        ghost var done := Contents();
        nbBateau := nbBateau + 1;
        SameBoard(done.(nbBateau := nbBateau));
      }
    }

    /** Equality with a board value, cell by cell and ship by ship. */
    lemma SameBoard(b: Board)
      requires Valid() && Shape(b) && b.nbBateau == nbBateau
      requires forall p, q | InArray(p, q) :: cell[q, p] == b.cell[q][p]
      requires forall i | 0 <= i < MAX_PLAYER :: bateaux[i] == b.bateaux[i]
      ensures Contents() == b
    {
      forall q | 0 <= q < MAX_BOARD_SIZE ensures Contents().cell[q] == b.cell[q] {
        forall p | 0 <= p < MAX_BOARD_SIZE ensures Contents().cell[q][p] == b.cell[q][p] {
          assert InArray(p, q);
        }
      }
      assert Contents().cell == b.cell;
    }

    /** recevoir_bateaux: polls player j until its ship arrives, then moves on. `mail[k]` is the one
        request player k sends and `delays[k]` how many polls find its socket empty first. Returns
        the players served, in order. */
    method RecevoirBateaux(mail: seq<Anchor>, delays: seq<nat>) returns (served: seq<nat>)
      requires Valid() && 1 <= nbJoueur <= MAX_PLAYER && |mail| == |delays| == nbJoueur
      requires taillePlateau <= MAX_BOARD_SIZE && 1 <= tailleBateau <= MAX_BOAT_SIZE
      requires nbBateau == 0 && Agree(Contents(), taillePlateau) && NoShotsYet(Contents())
      requires forall k | 0 <= k < nbJoueur :: Conforming(mail[k], taillePlateau, tailleBateau)
      modifies this`nbBateau, cell, bateaux
      ensures Valid() && SameSettings()
      ensures |served| == nbJoueur && forall k | 0 <= k < nbJoueur :: served[k] == k
      ensures Collecting(Contents(), taillePlateau, tailleBateau, mail, nbJoueur)
    {
      var nbBateauxRecu, j, wait := 0, 0, delays[0];
      served := [];
      while nbBateauxRecu != nbJoueur
        invariant 0 <= nbBateauxRecu == j <= nbJoueur && Valid() && SameSettings()
        invariant |served| == j && forall k | 0 <= k < j :: served[k] == k
        invariant Collecting(Contents(), taillePlateau, tailleBateau, mail, j)
        decreases nbJoueur - nbBateauxRecu, wait
      {
        if wait > 0 {
          wait := wait - 1;
        } else {
          RecevoirBateau(mail, j);
          served := served + [j];
          nbBateauxRecu := nbBateauxRecu + 1;
          if j == nbJoueur + 1 { j := 0; } else { j := j + 1; }
          wait := if j < nbJoueur then delays[j] else 0;
        }
      }
    }

    /** The request of player j has arrived. */
    method RecevoirBateau(mail: seq<Anchor>, j: nat)
      requires Valid() && j < |mail| && j < MAX_PLAYER && 1 <= tailleBateau <= MAX_BOAT_SIZE
      requires Collecting(Contents(), taillePlateau, tailleBateau, mail, j)
      requires Conforming(mail[j], taillePlateau, tailleBateau)
      modifies this`nbBateau, cell, bateaux
      ensures Valid() && SameSettings()
      ensures Collecting(Contents(), taillePlateau, tailleBateau, mail, j + 1)
    {
      CollectOne(Contents(), taillePlateau, tailleBateau, mail, j);
      PlacerBateau(j, tailleBateau, mail[j].x, mail[j].y, mail[j].direction);
    }

    method TirerBateau(x: int, y: int)
      requires Valid() && Sized(Contents())
      modifies bateaux
      ensures Valid()
      ensures Contents() == Struck(old(Contents()), x, y)
    {
      ghost var start := Contents();
      var i := 0;
      while i < nbBateau
        invariant 0 <= i <= nbBateau && Valid()
        invariant forall k | 0 <= k < MAX_PLAYER ::
          bateaux[k] == if k < i then HitShip(start.bateaux[k], x, y) else start.bateaux[k]
      {
        var j := 0;
        while j < bateaux[i].taille
          invariant 0 <= j <= bateaux[i].taille <= MAX_BOAT_SIZE && Valid()
          invariant bateaux[i].taille == start.bateaux[i].taille
          invariant forall k | 0 <= k < MAX_BOAT_SIZE ::
            bateaux[i].cell[k] ==
              if k < j then HitShipCell(start.bateaux[i].cell[k], x, y) else start.bateaux[i].cell[k]
          invariant forall k | 0 <= k < MAX_PLAYER && k != i ::
            bateaux[k] == if k < i then HitShip(start.bateaux[k], x, y) else start.bateaux[k]
        {
          if bateaux[i].cell[j].x == y && bateaux[i].cell[j].y == x {
            var s := bateaux[i];
            bateaux[i] := s.(cell := s.cell[j := s.cell[j].(status := HitShot)]);
          }
          j := j + 1;
        }
        assert bateaux[i].cell == HitShip(start.bateaux[i], x, y).cell;
        i := i + 1;
      }
      SameBoard(Struck(start, x, y));
    }

    /** recevoir_tir, for a "coup" request carrying (x, y). */
    method RecevoirTir(x: int, y: int)
      requires Valid() && Sized(Contents()) && taillePlateau <= MAX_BOARD_SIZE
      modifies cell, bateaux
      ensures Valid()
      ensures Contents() == AfterShot(old(Contents()), taillePlateau, Point(x, y))
    {
      ghost var start := Contents();
      if 0 <= x < taillePlateau && 0 <= y < taillePlateau {
        if cell[y, x] == Boat {
          cell[y, x] := HitShot;
          SameBoard(start.(cell := SetCell(start.cell, x, y, HitShot)));
          TirerBateau(y, x);
        } else if cell[y, x] == HitShot {
        } else {
          cell[y, x] := MissedShot;
          SameBoard(start.(cell := SetCell(start.cell, x, y, MissedShot)));
        }
      }
    }

    /** The shots of one round, in the order of the players. */
    method RecevoirTirs(shots: seq<Point>)
      requires Valid() && taillePlateau <= MAX_BOARD_SIZE && Agree(Contents(), taillePlateau)
      modifies cell, bateaux
      ensures Valid() && Agree(Contents(), taillePlateau)
      ensures Contents() == Battered(old(Contents()), InRange(shots, taillePlateau))
    {
      ghost var start := Contents();
      var i := 0;
      while i < |shots|
        invariant 0 <= i <= |shots| && Valid()
        invariant Contents() == AfterShots(start, taillePlateau, shots[..i])
      {
        ShotsAgree(start, taillePlateau, shots[..i]);
        RecevoirTir(shots[i].x, shots[i].y);
        assert shots[..i + 1][..i] == shots[..i];
        i := i + 1;
      }
      assert shots[..i] == shots;
      ShotsRefine(start, taillePlateau, shots);
      ShotsAgree(start, taillePlateau, shots);
    }

    /** verifier_fin_partie: the ids sent to players 0, 1, ... */
    method VerifierFinPartie() returns (sent: seq<int>)
      requires Valid() && Sized(Contents()) && nbBateau == nbJoueur
      requires forall i | 0 <= i < nbBateau :: bateaux[i].taille == tailleBateau
      modifies this`etat
      ensures Contents() == old(Contents())
      ensures |sent| == nbJoueur
      ensures forall i: nat | i < nbJoueur :: sent[i] == Verdict(Contents(), i)
      ensures etat == if CountSunk(Contents(), nbBateau) == nbBateau then 2 else old(etat)
    {
      ghost var b := Contents();
      var nbBateauCoule := 0;
      for i := 0 to nbBateau
        invariant nbBateauCoule == CountSunk(b, i) && etat == old(etat)
      {
        var flag := ADesCellulesIntactes(i, tailleBateau);
        if !flag { nbBateauCoule := nbBateauCoule + 1; }
      }
      sent := [];
      if nbBateauCoule == nbBateau {
        etat := 2;
        for i := 0 to nbJoueur
          invariant etat == 2 && |sent| == i && forall k | 0 <= k < i :: sent[k] == 9
        {
          sent := sent + [9];
        }
      } else if nbBateauCoule == nbBateau - 1 {
        var flag := -1;
        for i := 0 to nbJoueur
          invariant flag == LastAfloat(b, i) && etat == old(etat)
        {
          var afloat := ADesCellulesIntactes(i, bateaux[i].taille);
          if afloat { flag := i; }
        }
        for i := 0 to nbJoueur
          invariant etat == old(etat) && |sent| == i && forall k | 0 <= k < i :: sent[k] == if flag == k then 10 else 9
        {
          sent := sent + [if flag == i then 10 else 9];
        }
      } else {
        for i := 0 to nbJoueur
          invariant etat == old(etat) && |sent| == i && forall k: nat | k < i :: sent[k] == if Sunk(b, k) then 8 else 7
        {
          var afloat := ADesCellulesIntactes(i, bateaux[i].taille);
          sent := sent + [if afloat then 7 else 8];
        }
      }
    }

    /** The inner loop shared by the three passes: some of the ship's cells is not hit. */
    method ADesCellulesIntactes(i: nat, taille: int) returns (flag: bool)
      requires Valid() && Sized(Contents()) && i < nbBateau && taille == bateaux[i].taille
      ensures flag <==> !Sunk(Contents(), i)
    {
      flag := false;
      for j := 0 to taille
        invariant flag <==> exists k :: 0 <= k < j && bateaux[i].cell[k].status != HitShot
      {
        if bateaux[i].cell[j].status != HitShot { flag := true; }
      }
    }

    /** envoyer_plateau: the string of digits sent to every player. */
    method EncoderPlateau() returns (plateau: string)
      requires Valid() && taillePlateau <= MAX_BOARD_SIZE
      ensures plateau == View.Encode(Contents().cell, taillePlateau)
    {
      var n := taillePlateau;
      ghost var all := View.Encode(Contents().cell, n);
      plateau := "";
      for i := 0 to n
        invariant |plateau| == i * n && plateau <= all
      {
        for j := 0 to n
          invariant |plateau| == i * n + j && plateau <= all
        {
          View.EncodeAt(Contents().cell, n, i, j);
          PrefixGrows(plateau, all);
          plateau := plateau + [View.Digit(cell[j, i])];
        }
        assert i * n + n == (i + 1) * n;
      }
    }
  }
}
