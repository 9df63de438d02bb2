/** What the keys of a player choose: where the cursor goes, which way each ship points, and which ships are sent. */
module Choosing {
  import opened Board
  import opened Placement

  predicate IsArrow(k: Key) { k == Up || k == Down || k == Left || k == Right }

  /** The direction letter of an arrow key. */
  function Letter(k: Key): char
    requires IsArrow(k)
  {
    match k
    case Up => 'h'
    case Down => 'b'
    case Left => 'g'
    case Right => 'd'
  }

  function Opposite(d: char): char {
    match d
    case 'h' => 'b'
    case 'b' => 'h'
    case 'g' => 'd'
    case 'd' => 'g'
    case _ => d
  }

  /** The direction that a wish comes to: itself if the ship fits that way, else the opposite. */
  ghost function Fitting(size: int, taille: int, x: int, y: int, d: char): char {
    if ShipInside(size, taille, x, y, d) then d else Opposite(d)
  }

  /** The drawing routine of the client turns a ship round only if it does not fit, and then it fits. */
  lemma TurnedFits(size: int, taille: int, x: int, y: int, d: char)
    requires 1 <= taille && 2 * taille <= size && InBoard(size, x, y) && IsDirection(d)
    ensures Turned(size, taille, x, y, d) == Fitting(size, taille, x, y, d)
    ensures ShipInside(size, taille, x, y, Fitting(size, taille, x, y, d))
    ensures Turned(size, taille, x, y, Fitting(size, taille, x, y, d)) == Fitting(size, taille, x, y, d)
  {
    ShipInsideIff(size, taille, x, y, d);
    ShipInsideIff(size, taille, x, y, Opposite(d));
  }

  // ----- the placement menu -----

  /** The direction last wished for in the menu: the letter of the last arrow key, 'd' before the first. */
  function LastWish(keys: seq<Key>): (d: char)
    ensures IsDirection(d)
  {
    if keys == [] then 'd'
    else
      var k := keys[|keys| - 1];
      if IsArrow(k) then Letter(k) else LastWish(keys[..|keys| - 1])
  }

  lemma {:induction false} LastWishIsLastArrow(keys: seq<Key>, j: nat)
    requires j <= |keys| && (forall i | j <= i < |keys| :: !IsArrow(keys[i])) && (j > 0 ==> IsArrow(keys[j - 1]))
    ensures LastWish(keys) == if j == 0 then 'd' else Letter(keys[j - 1])
    decreases |keys|
  {
    if j < |keys| { LastWishIsLastArrow(keys[..|keys| - 1], j); }
  }

  /** The wishes in force at the ENTER keys. */
  function Wishes(keys: seq<Key>): (w: seq<char>)
    ensures forall i | 0 <= i < |w| :: IsDirection(w[i])
  {
    if keys == [] then []
    else
      var before := keys[..|keys| - 1];
      if keys[|keys| - 1] == Enter then Wishes(before) + [LastWish(before)] else Wishes(before)
  }

  /** One ship for each ENTER, anchored at the cursor, pointing the way wished for if it fits. */
  ghost function Aimed(size: int, taille: int, x: int, y: int, w: seq<char>): (s: seq<Anchor>)
    ensures |s| == |w| && forall i | 0 <= i < |s| :: s[i] == Anchor(x, y, Fitting(size, taille, x, y, w[i]))
  {
    seq(|w|, i requires 0 <= i < |w| => Anchor(x, y, Fitting(size, taille, x, y, w[i])))
  }

  lemma OneKeyMore(keys: seq<Key>, n: nat)
    requires n < |keys|
    ensures LastWish(keys[..n + 1]) == if IsArrow(keys[n]) then Letter(keys[n]) else LastWish(keys[..n])
    ensures Wishes(keys[..n + 1]) == Wishes(keys[..n]) + if keys[n] == Enter then [LastWish(keys[..n])] else []
  {
    assert keys[..n + 1][..n] == keys[..n];
  }

  lemma OneShipMore(size: int, taille: int, x: int, y: int, w: seq<char>, d: char)
    ensures Aimed(size, taille, x, y, w + [d]) ==
            Aimed(size, taille, x, y, w) + [Anchor(x, y, Fitting(size, taille, x, y, d))]
  {
  }

  // ----- cursor and menus together -----

  /** The cursor, whether the placement menu is open, the direction wished for in it, and the ships sent so far. */
  datatype Choice = Choice(x: int, y: int, menu: bool, wish: char, sent: seq<Anchor>)

  ghost function After(size: int, taille: int, c: Choice, k: Key): Choice {
    if c.menu then
      if IsArrow(k) then c.(wish := Letter(k))
      else if k == Enter then c.(sent := c.sent + [Anchor(c.x, c.y, Fitting(size, taille, c.x, c.y, c.wish))])
      else if k == Quit then c.(menu := false)
      else c
    else
      match k
      case Up => if c.y > 0 then c.(y := c.y - 1) else c
      case Down => if c.y < size - 1 then c.(y := c.y + 1) else c
      case Left => if c.x > 0 then c.(x := c.x - 1) else c
      case Right => if c.x < size - 1 then c.(x := c.x + 1) else c
      case Enter => c.(menu := true, wish := 'd')
      case _ => c
  }

  /** What the keys choose as long as no ship has been accepted. */
  ghost function Chosen(size: int, taille: int, keys: seq<Key>): Choice {
    if keys == [] then Choice(0, 0, false, 'd', [])
    else After(size, taille, Chosen(size, taille, keys[..|keys| - 1]), keys[|keys| - 1])
  }

  lemma ChosenMore(size: int, taille: int, keys: seq<Key>, k: Key)
    ensures Chosen(size, taille, keys + [k]) == After(size, taille, Chosen(size, taille, keys), k)
  {
    assert (keys + [k])[..|keys|] == keys;
  }

  lemma ChosenUpTo(size: int, taille: int, keys: seq<Key>, n: nat)
    requires n < |keys|
    ensures Chosen(size, taille, keys[..n + 1]) == After(size, taille, Chosen(size, taille, keys[..n]), keys[n])
  {
    assert keys[..n + 1][..n] == keys[..n];
  }

  function Times(k: Key, n: nat): (s: seq<Key>)
    ensures |s| == n && forall i | 0 <= i < n :: s[i] == k
  {
    seq(n, _ => k)
  }

  function Min(a: int, b: int): int { if a < b then a else b }

  function Max(a: int, b: int): int { if a < b then b else a }

  /** The cursor after n presses of an arrow key: n cells that way or at the edge. */
  ghost function Moved(size: int, c: Choice, k: Key, n: nat): Choice
    requires IsArrow(k)
  {
    match k
    case Up => c.(y := Max(c.y - n, 0))
    case Down => c.(y := Min(c.y + n, size - 1))
    case Left => c.(x := Max(c.x - n, 0))
    case Right => c.(x := Min(c.x + n, size - 1))
  }

  lemma {:induction false} MovedOnce(size: int, taille: int, c: Choice, k: Key, n: nat)
    requires IsArrow(k) && !c.menu && InBoard(size, c.x, c.y)
    ensures Moved(size, c, k, 0) == c
    ensures After(size, taille, Moved(size, c, k, n), k) == Moved(size, c, k, n + 1)
  {
  }

  /** The cursor starts at (0, 0); n presses of an arrow key move it n cells that way or to the edge, and do nothing
      else. */
  lemma {:induction false} CursorMoves(size: int, taille: int, keys: seq<Key>, k: Key, n: nat)
    requires IsArrow(k) && !Chosen(size, taille, keys).menu
    requires InBoard(size, Chosen(size, taille, keys).x, Chosen(size, taille, keys).y)
    ensures Chosen(size, taille, []) == Choice(0, 0, false, 'd', [])
    ensures Chosen(size, taille, keys + Times(k, n)) == Moved(size, Chosen(size, taille, keys), k, n)
    decreases n
  {
    MovedOnce(size, taille, Chosen(size, taille, keys), k, if n == 0 then 0 else n - 1);
    if n == 0 {
      assert keys + Times(k, 0) == keys;
    } else {
      CursorMoves(size, taille, keys, k, n - 1);
      assert keys + Times(k, n) == (keys + Times(k, n - 1)) + [k];
      ChosenMore(size, taille, keys + Times(k, n - 1), k);
    }
  }

  lemma {:induction false} CursorOnBoard(size: int, taille: int, keys: seq<Key>)
    requires size >= 1
    ensures InBoard(size, Chosen(size, taille, keys).x, Chosen(size, taille, keys).y)
  {
    if keys != [] { CursorOnBoard(size, taille, keys[..|keys| - 1]); }
  }

  /** From ENTER on, until the menu is left, the cursor rests and each ENTER sends one ship, pointing the way of the
      last arrow key pressed in the menu if it fits. */
  lemma {:induction false} MenuStretch(size: int, taille: int, keys: seq<Key>, more: seq<Key>)
    requires !Chosen(size, taille, keys).menu && (forall i | 0 <= i < |more| :: more[i] != Quit)
    ensures var c, r := Chosen(size, taille, keys), Chosen(size, taille, keys + [Enter] + more);
      r == c.(menu := true, wish := LastWish(more), sent := c.sent + Aimed(size, taille, c.x, c.y, Wishes(more)))
  {
    var c := Chosen(size, taille, keys);
    if more == [] {
      assert keys + [Enter] + more == keys + [Enter];
      ChosenMore(size, taille, keys, Enter);
      assert c.sent + Aimed(size, taille, c.x, c.y, []) == c.sent;
    } else {
      var n := |more| - 1;
      MenuStretch(size, taille, keys, more[..n]);
      assert keys + [Enter] + more == (keys + [Enter] + more[..n]) + [more[n]];
      ChosenMore(size, taille, keys + [Enter] + more[..n], more[n]);
      StretchStep(size, taille, c, more);
    }
  }

  lemma {:induction false} StretchStep(size: int, taille: int, c: Choice, more: seq<Key>)
    requires more != [] && more[|more| - 1] != Quit && !c.menu
    ensures var n := |more| - 1;
      After(size, taille, c.(menu := true, wish := LastWish(more[..n]),
                             sent := c.sent + Aimed(size, taille, c.x, c.y, Wishes(more[..n]))), more[n])
      == c.(menu := true, wish := LastWish(more), sent := c.sent + Aimed(size, taille, c.x, c.y, Wishes(more)))
  {
    var n := |more| - 1;
    if more[n] == Enter {
      var w, d := Wishes(more[..n]), LastWish(more[..n]);
      OneShipMore(size, taille, c.x, c.y, w, d);
      var a := Anchor(c.x, c.y, Fitting(size, taille, c.x, c.y, d));
      assert c.sent + (Aimed(size, taille, c.x, c.y, w) + [a]) == (c.sent + Aimed(size, taille, c.x, c.y, w)) + [a];
    }
  }

  /** The same for a stretch in the middle of the keys, begun by the ENTER before it. */
  lemma MenuSlice(size: int, taille: int, keys: seq<Key>, k: nat, stop: nat)
    requires 0 < k <= stop <= |keys| && keys[k - 1] == Enter && !Chosen(size, taille, keys[..k - 1]).menu
    requires forall i | k <= i < stop :: keys[i] != Quit
    ensures var c, more := Chosen(size, taille, keys[..k - 1]), keys[k..stop];
      Chosen(size, taille, keys[..stop])
      == c.(menu := true, wish := LastWish(more), sent := c.sent + Aimed(size, taille, c.x, c.y, Wishes(more)))
  {
    MenuStretch(size, taille, keys[..k - 1], keys[k..stop]);
    assert keys[..k - 1] + [Enter] + keys[k..stop] == keys[..stop];
  }

  lemma WishesBeforeQuit(keys: seq<Key>, k: nat, stop: nat)
    requires k <= stop < |keys| && keys[stop] == Quit
    ensures Wishes(keys[k..stop + 1]) == Wishes(keys[k..stop])
  {
    assert keys[k..stop + 1][..stop - k] == keys[k..stop];
  }

  /** 'q' leaves the menu and nothing else; outside the menu it does nothing, nor does any key without a meaning. */
  lemma QuitAndOthers(size: int, taille: int, keys: seq<Key>)
    ensures Chosen(size, taille, keys + [Quit]) == Chosen(size, taille, keys).(menu := false)
    ensures Chosen(size, taille, keys + [Other]) == Chosen(size, taille, keys)
  {
    ChosenMore(size, taille, keys, Quit);
    ChosenMore(size, taille, keys, Other);
  }
}
