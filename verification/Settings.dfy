/** What the keys of the parameter menu do to the settings, counted in key presses. */
module Settings {
  import opened Choosing
  import opened Placement

  function Toggled(b: bool, n: nat): bool { if n % 2 == 0 then b else !b }

  /** n presses of RIGHT on a line: its setting goes up by n, at most to its limit. A ship longer than half the board
      widens the board. */
  function Raised(p: Params, line: int, n: nat): Params {
    match line
    case 0 => p.(maxJoueur := Min(p.maxJoueur + n, 100))
    case 1 => p.(taillePlateau := Min(p.taillePlateau + n, 50))
    case 2 =>
      var t := Min(p.tailleBateau + n, 10);
      p.(tailleBateau := t, taillePlateau := Max(p.taillePlateau, 2 * t))
    case 3 => p.(timeout := p.timeout + n)
    case _ => p.(affichage := Toggled(p.affichage, n))
  }

  /** n presses of LEFT on a line: its setting goes down by n, at most to its limit. A board less than two ships wide
      shortens the ship. */
  function Lowered(p: Params, line: int, n: nat): Params {
    match line
    case 0 => p.(maxJoueur := Max(p.maxJoueur - n, 2))
    case 1 =>
      var b := Max(p.taillePlateau - n, 4);
      p.(taillePlateau := b, tailleBateau := Min(p.tailleBateau, b / 2))
    case 2 => p.(tailleBateau := Max(p.tailleBateau - n, 2))
    case 3 => p.(timeout := Max(p.timeout - n, 5))
    case _ => p.(affichage := Toggled(p.affichage, n))
  }

  lemma RaisedOnce(p: Params, line: int, n: nat)
    requires ParamsOk(p) && 0 <= line <= 4
    ensures Raised(p, line, 0) == p && Raise(Raised(p, line, n), line) == Raised(p, line, n + 1)
  {
  }

  lemma LoweredOnce(p: Params, line: int, n: nat)
    requires ParamsOk(p) && 0 <= line <= 4
    ensures Lowered(p, line, 0) == p && Lower(Lowered(p, line, n), line) == Lowered(p, line, n + 1)
  {
  }

  lemma PressedMore(keys: seq<Key>, k: Key)
    ensures Pressed(keys + [k]) == Press(Pressed(keys), k)
  {
    assert (keys + [k])[..|keys|] == keys;
  }

  lemma PressedAgain(keys: seq<Key>, k: Key, n: nat)
    requires n > 0
    ensures Pressed(keys + Times(k, n)) == Press(Pressed(keys + Times(k, n - 1)), k)
  {
    assert keys + Times(k, n) == (keys + Times(k, n - 1)) + [k];
    PressedMore(keys + Times(k, n - 1), k);
  }

  lemma NoKeys(keys: seq<Key>, k: Key)
    ensures Pressed(keys + Times(k, 0)) == Pressed(keys)
  {
    assert keys + Times(k, 0) == keys;
  }

  /** What the menu shows first, before any key. */
  lemma MenuStarts()
    ensures Pressed([]) == Menu(Params(2, 11, 5, 15, true), 0, [], false)
  {
  }

  /** n presses of RIGHT change the setting on the selected line and no other, but for the board that a longer ship
      needs. */
  lemma {:induction false} RightKeys(keys: seq<Key>, n: nat)
    requires !Pressed(keys).left
    ensures var m := Pressed(keys); Pressed(keys + Times(Right, n)) == m.(game := Raised(m.game, m.line, n))
    decreases n
  {
    var m := Pressed(keys);
    MenuKeepsParams(keys);
    if n == 0 {
      NoKeys(keys, Right);
      RaisedOnce(m.game, m.line, 0);
    } else {
      RightKeys(keys, n - 1);
      PressedAgain(keys, Right, n);
      RaisedOnce(m.game, m.line, n - 1);
    }
  }

  /** n presses of LEFT change the setting on the selected line and no other, but for the ship that a smaller board
      allows. */
  lemma {:induction false} LeftKeys(keys: seq<Key>, n: nat)
    requires !Pressed(keys).left
    ensures var m := Pressed(keys); Pressed(keys + Times(Left, n)) == m.(game := Lowered(m.game, m.line, n))
    decreases n
  {
    var m := Pressed(keys);
    MenuKeepsParams(keys);
    if n == 0 {
      NoKeys(keys, Left);
      LoweredOnce(m.game, m.line, 0);
    } else {
      LeftKeys(keys, n - 1);
      PressedAgain(keys, Left, n);
      LoweredOnce(m.game, m.line, n - 1);
    }
  }

  /** n presses of UP or DOWN move the selection n lines, at most to the first or last, and do nothing else. */
  lemma {:induction false} UpDownKeys(keys: seq<Key>, n: nat)
    requires !Pressed(keys).left
    ensures Pressed(keys + Times(Up, n)) == Pressed(keys).(line := Max(Pressed(keys).line - n, 0))
    ensures Pressed(keys + Times(Down, n)) == Pressed(keys).(line := Min(Pressed(keys).line + n, 4))
    decreases n
  {
    MenuKeepsParams(keys);
    if n == 0 {
      NoKeys(keys, Up);
      NoKeys(keys, Down);
    } else {
      UpDownKeys(keys, n - 1);
      PressedAgain(keys, Up, n);
      PressedAgain(keys, Down, n);
    }
  }

  /** ENTER launches a game with the settings on screen, 'q' leaves the menu, another key does nothing; and after 'q'
      no key does anything. */
  lemma OtherKeys(keys: seq<Key>, more: seq<Key>)
    requires !Pressed(keys).left
    ensures Pressed(keys + [Enter]) == Pressed(keys).(launched := Pressed(keys).launched + [Pressed(keys).game])
    ensures Pressed(keys + [Other]) == Pressed(keys)
    ensures Pressed(keys + [Quit]) == Pressed(keys).(left := true)
    ensures Pressed(keys + [Quit] + more) == Pressed(keys + [Quit])
  {
    PressedMore(keys, Enter);
    PressedMore(keys, Other);
    PressedMore(keys, Quit);
    var all := keys + [Quit] + more;
    assert all[..|keys| + 1] == keys + [Quit];
    LeftForGood(all, |keys| + 1);
  }

  // ----- keys undone -----

  /** LEFT takes back what RIGHT did, exactly if no limit was met on the way, or met from the opposite one, and no
      longer ship has widened the board. */
  lemma LeftUndoesRight(keys: seq<Key>, n: nat)
    requires !Pressed(keys).left
    ensures Pressed(keys + Times(Right, n) + Times(Left, n)) == Pressed(keys) <==>
            var p := Pressed(keys).game;
            match Pressed(keys).line
            case 0 => p.maxJoueur + n <= 100 || p.maxJoueur == 2
            case 1 => p.taillePlateau + n <= 50 || p.taillePlateau == 4
            case 2 =>
              && (p.tailleBateau + n <= 10 || p.tailleBateau == 2)
              && 2 * Min(p.tailleBateau + n, 10) <= p.taillePlateau
            case _ => true
  {
    var m := Pressed(keys);
    MenuKeepsParams(keys);
    RightKeys(keys, n);
    LeftKeys(keys + Times(Right, n), n);
    RaisedLowered(m.game, m.line, n);
  }

  lemma RaisedLowered(p: Params, line: int, n: nat)
    requires ParamsOk(p) && 0 <= line <= 4
    ensures Lowered(Raised(p, line, n), line, n) == p <==>
            match line
            case 0 => p.maxJoueur + n <= 100 || p.maxJoueur == 2
            case 1 => p.taillePlateau + n <= 50 || p.taillePlateau == 4
            case 2 =>
              && (p.tailleBateau + n <= 10 || p.tailleBateau == 2)
              && 2 * Min(p.tailleBateau + n, 10) <= p.taillePlateau
            case _ => true
  {
  }

  /** RIGHT takes back what LEFT did, exactly if no limit was met on the way, or met from the opposite one, and no
      smaller board has shortened the ship. */
  lemma RightUndoesLeft(keys: seq<Key>, n: nat)
    requires !Pressed(keys).left
    ensures Pressed(keys + Times(Left, n) + Times(Right, n)) == Pressed(keys) <==>
            var p := Pressed(keys).game;
            match Pressed(keys).line
            case 0 => p.maxJoueur - n >= 2 || p.maxJoueur == 100
            case 1 =>
              && (p.taillePlateau - n >= 4 || p.taillePlateau == 50)
              && 2 * p.tailleBateau <= Max(p.taillePlateau - n, 4)
            case 2 => p.tailleBateau - n >= 2 || p.tailleBateau == 10
            case 3 => p.timeout - n >= 5
            case _ => true
  {
    var m := Pressed(keys);
    MenuKeepsParams(keys);
    LeftKeys(keys, n);
    RightKeys(keys + Times(Left, n), n);
    LoweredRaised(m.game, m.line, n);
  }

  lemma LoweredRaised(p: Params, line: int, n: nat)
    requires ParamsOk(p) && 0 <= line <= 4
    ensures Raised(Lowered(p, line, n), line, n) == p <==>
            match line
            case 0 => p.maxJoueur - n >= 2 || p.maxJoueur == 100
            case 1 =>
              && (p.taillePlateau - n >= 4 || p.taillePlateau == 50)
              && 2 * p.tailleBateau <= Max(p.taillePlateau - n, 4)
            case 2 => p.tailleBateau - n >= 2 || p.tailleBateau == 10
            case 3 => p.timeout - n >= 5
            case _ => true
  {
  }
}
