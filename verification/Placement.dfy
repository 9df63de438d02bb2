/** The parameter menu of the server and the placement keys of the client. */
module Placement {
  import opened Board

  datatype Key = Up | Down | Left | Right | Enter | Quit | Other

  // ----- parameter menu -----

  datatype Params = Params(maxJoueur: int, taillePlateau: int, tailleBateau: int, timeout: int, affichage: bool)

  /** init_game */
  const INITIAL := Params(2, 11, 5, 15, true)

  function ClampBoat(p: Params): Params {
    if p.taillePlateau < 2 * p.tailleBateau then p.(tailleBateau := p.taillePlateau / 2) else p
  }

  /** LEFT on the selected line. */
  function Lower(p: Params, line: int): Params {
    match line
    case 0 => if p.maxJoueur > 2 then p.(maxJoueur := p.maxJoueur - 1) else p
    case 1 => ClampBoat(if p.taillePlateau > 4 then p.(taillePlateau := p.taillePlateau - 1) else p)
    case 2 => if p.tailleBateau > 2 then p.(tailleBateau := p.tailleBateau - 1) else p
    case 3 => if p.timeout > 5 then p.(timeout := p.timeout - 1) else p
    case 4 => p.(affichage := !p.affichage)
    case _ => p
  }

  /** RIGHT on the selected line. */
  function Raise(p: Params, line: int): Params {
    match line
    case 0 => if p.maxJoueur < MAX_PLAYER then p.(maxJoueur := p.maxJoueur + 1) else p
    case 1 => ClampBoat(if p.taillePlateau < MAX_BOARD_SIZE then p.(taillePlateau := p.taillePlateau + 1) else p)
    case 2 =>
      var q := if p.tailleBateau < MAX_BOAT_SIZE then p.(tailleBateau := p.tailleBateau + 1) else p;
      if q.taillePlateau < 2 * q.tailleBateau then q.(taillePlateau := q.tailleBateau * 2) else q
    case 3 => p.(timeout := p.timeout + 1)
    case 4 => p.(affichage := !p.affichage)
    case _ => p
  }

  predicate ParamsOk(p: Params) {
    && 2 <= p.maxJoueur <= MAX_PLAYER
    && 4 <= p.taillePlateau <= MAX_BOARD_SIZE
    && 2 <= p.tailleBateau <= MAX_BOAT_SIZE
    && 2 * p.tailleBateau <= p.taillePlateau
    && p.timeout >= 5
  }

  /** The menu's variables, the games it has launched, and whether it was left with 'q'. */
  datatype Menu = Menu(game: Params, line: int, launched: seq<Params>, left: bool)

  function Press(m: Menu, k: Key): Menu {
    if m.left then m else
    match k
    case Up => if m.line > 0 then m.(line := m.line - 1) else m
    case Down => if m.line < 4 then m.(line := m.line + 1) else m
    case Left => m.(game := Lower(m.game, m.line))
    case Right => m.(game := Raise(m.game, m.line))
    case Enter => m.(launched := m.launched + [m.game])
    case Quit => m.(left := true)
    case Other => m
  }

  function Pressed(keys: seq<Key>): Menu {
    if keys == [] then Menu(INITIAL, 0, [], false) else Press(Pressed(keys[..|keys| - 1]), keys[|keys| - 1])
  }

  /** menu_parametrage_game: the games launched before the keys run out or 'q' is pressed. */
  method ParameterMenu(keys: seq<Key>) returns (launched: seq<Params>)
    ensures launched == Pressed(keys).launched
  {
    var p, line := INITIAL, 0;
    launched := [];
    for k := 0 to |keys|
      invariant Pressed(keys[..k]) == Menu(p, line, launched, false)
    {
      assert keys[..k + 1][..k] == keys[..k];
      match keys[k] {
        case Up => if line > 0 { line := line - 1; }
        case Down => if line < 4 { line := line + 1; }
        case Left => p := Lower(p, line);
        case Right => p := Raise(p, line);
        case Enter => launched := launched + [p];
        case Quit =>
          LeftForGood(keys, k + 1);
          return;
        case Other =>
      }
    }
    assert keys[..|keys|] == keys;
  }

  lemma {:induction false} LeftForGood(keys: seq<Key>, k: nat)
    requires k <= |keys| && Pressed(keys[..k]).left
    ensures Pressed(keys) == Pressed(keys[..k])
    decreases |keys| - k
  {
    if k == |keys| {
      assert keys[..k] == keys;
    } else {
      assert keys[..k + 1][..k] == keys[..k];
      LeftForGood(keys, k + 1);
    }
  }

  /** Whatever the keys, every setting on screen and every game launched is playable: in
      particular a ship is at most half the board. */
  lemma {:induction false} MenuKeepsParams(keys: seq<Key>)
    ensures ParamsOk(Pressed(keys).game) && 0 <= Pressed(keys).line <= 4
    ensures forall i | 0 <= i < |Pressed(keys).launched| :: ParamsOk(Pressed(keys).launched[i])
  {
    if keys != [] {
      var m := Pressed(keys[..|keys| - 1]);
      MenuKeepsParams(keys[..|keys| - 1]);
      LowerKeeps(m.game, m.line);
      RaiseKeeps(m.game, m.line);
    }
  }

  lemma LowerKeeps(p: Params, line: int)
    requires ParamsOk(p)
    ensures ParamsOk(Lower(p, line))
  {
  }

  lemma RaiseKeeps(p: Params, line: int)
    requires ParamsOk(p)
    ensures ParamsOk(Raise(p, line))
  {
  }

  // ----- placement -----

  /** A ship as the client sends it: the cell under the cursor and a direction letter. */
  datatype Anchor = Anchor(x: int, y: int, direction: char)

  /** What a client that follows the placement menu sends. */
  ghost predicate Conforming(a: Anchor, size: int, taille: int) {
    IsDirection(a.direction) && ShipInside(size, taille, a.x, a.y, a.direction)
  }

  /** The direction logic of afficher_plateau_placer_bateau: a direction that would leave the board
      is turned round. */
  function Turned(size: int, taille: int, x: int, y: int, d: char): char {
    match d
    case 'h' => if y >= taille - 1 then 'h' else 'b'
    case 'b' => if y <= size - taille then 'b' else 'h'
    case 'g' => if x >= taille - 1 then 'g' else 'd'
    case 'd' => if x <= size - taille then 'd' else 'g'
    case _ => d
  }

  lemma TurnedInside(size: int, taille: int, x: int, y: int, d: char)
    requires 2 * taille - 2 <= size && InBoard(size, x, y) && IsDirection(d)
    ensures IsDirection(Turned(size, taille, x, y, d))
    ensures ShipInside(size, taille, x, y, Turned(size, taille, x, y, d))
  {
  }

  ghost predicate AlwaysInside(size: int, taille: int) {
    forall x, y, d | InBoard(size, x, y) && IsDirection(d) ::
      ShipInside(size, taille, x, y, Turned(size, taille, x, y, d))
  }

  /** Turning round is enough for every cursor and direction exactly when the board is at least
      2 * taille - 2 wide; the menu keeps it at 2 * taille. */
  lemma AlwaysInsideIff(size: int, taille: int)
    requires 1 <= size && 1 <= taille
    ensures AlwaysInside(size, taille) <==> 2 * taille - 2 <= size
  {
    if 2 * taille - 2 <= size {
      forall x, y, d | InBoard(size, x, y) && IsDirection(d)
        ensures ShipInside(size, taille, x, y, Turned(size, taille, x, y, d))
      {
        TurnedInside(size, taille, x, y, d);
      }
    } else if taille - 2 < size {
      var y := taille - 2;
      assert Turned(size, taille, 0, y, 'h') == 'b';
      assert !InBoard(size, ShipX(0, 'b', taille - 1), ShipY(y, 'b', taille - 1));
      assert InBoard(size, 0, y) && !ShipInside(size, taille, 0, y, Turned(size, taille, 0, y, 'h'));
    } else {
      assert Turned(size, taille, 0, 0, 'h') == 'b';
      assert !InBoard(size, ShipX(0, 'b', taille - 1), ShipY(0, 'b', taille - 1));
      assert InBoard(size, 0, 0) && !ShipInside(size, taille, 0, 0, Turned(size, taille, 0, 0, 'h'));
    }
  }
}
