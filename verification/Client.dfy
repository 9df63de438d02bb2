/** The client's global `game` and the functions of client.c that update it in place. */
module Client {
  import opened Board
  import opened Choosing
  import opened Placement
  import View

  /** Code 0, code -1 (left with 'q'), or still waiting for a key or a reply. */
  datatype Outcome = Accepted | Abandoned | Waiting

  ghost function Points(s: seq<Point>): set<Point> {
    set i | 0 <= i < |s| :: s[i]
  }

  /** Every ship sent has been answered, with something other than 0. */
  ghost predicate Refused(sent: seq<Anchor>, replies: seq<int>) {
    |sent| <= |replies| && forall j | 0 <= j < |sent| :: replies[j] != 0
  }

  /** The outcome is acceptance exactly if a ship sent was answered with 0, and it was the last one. */
  ghost predicate Settled(outcome: Outcome, sent: seq<Anchor>, replies: seq<int>) {
    && (outcome == Accepted ==> 0 < |sent| <= |replies| && replies[|sent| - 1] == 0)
    && (forall j | 0 <= j < |sent| && j < |replies| && replies[j] == 0 :: outcome == Accepted && j == |sent| - 1)
    && (outcome == Abandoned ==> Refused(sent, replies))
  }

  lemma SettledLater(outcome: Outcome, before: seq<Anchor>, more: seq<Anchor>, replies: seq<int>)
    requires Refused(before, replies) && Settled(outcome, more, replies[|before|..])
    ensures Settled(outcome, before + more, replies)
  {
    var rest, sent := replies[|before|..], before + more;
    forall j | 0 <= j < |sent| && j < |replies| && replies[j] == 0 ensures outcome == Accepted && j == |sent| - 1 {
      assert j >= |before| && rest[j - |before|] == 0;
    }
    if outcome == Abandoned {
      forall j | 0 <= j < |sent| ensures j < |replies| && replies[j] != 0 {
        if j >= |before| { assert rest[j - |before|] != 0; }
      }
    }
  }

  /** Of the first `used` keys 'q' can only be the last, and then it has closed the menu. */
  ghost predicate LeftBy(keys: seq<Key>, used: nat, outcome: Outcome) {
    && used <= |keys| && (forall i | 0 <= i < used - 1 :: keys[i] != Quit)
    && if outcome == Abandoned then used > 0 && keys[used - 1] == Quit else used > 0 ==> keys[used - 1] != Quit
  }

  class ClientGame {
    var plateau: array2<Status>
    const bateau: array<Point>
    var taillePlateau: nat
    var tailleBateau: nat

    ghost predicate Valid()
      reads this
    {
      && plateau.Length0 == plateau.Length1 == MAX_BOARD_SIZE
      && bateau.Length == MAX_BOAT_SIZE
      && 1 <= taillePlateau <= MAX_BOARD_SIZE && 1 <= tailleBateau <= MAX_BOAT_SIZE
    }

    /** decode_plateau: a fresh board filled from the digits, then the client's own ship over the
        cells still EMPTY. */
    method DecodePlateau(infos: string)
      requires Valid() && taillePlateau * taillePlateau <= |infos|
      requires forall i | 0 <= i < tailleBateau :: InBoard(taillePlateau, bateau[i].x, bateau[i].y)
      modifies this`plateau
      ensures Valid() && fresh(plateau)
      ensures forall x, y | 0 <= x < taillePlateau && 0 <= y < taillePlateau ::
        plateau[y, x] == View.Decoded(infos, taillePlateau, Points(bateau[..tailleBateau]), x, y)
    {
      var n := taillePlateau;
      var board := new Status[MAX_BOARD_SIZE, MAX_BOARD_SIZE];
      for i := 0 to n
        invariant forall x, y | 0 <= x < i && 0 <= y < n :: board[y, x] == View.Decoded(infos, n, {}, x, y)
      {
        for j := 0 to n
          invariant forall x, y | 0 <= x < i && 0 <= y < n :: board[y, x] == View.Decoded(infos, n, {}, x, y)
          invariant forall y | 0 <= y < j :: board[y, i] == View.Decoded(infos, n, {}, i, y)
        {
          View.IndexRange(n, i, j);
          board[j, i] := View.DigitStatus(infos[i * n + j]);
        }
      }
      plateau := board;
      for i := 0 to tailleBateau
        invariant Valid() && plateau == board && taillePlateau == n
        invariant forall x, y | 0 <= x < n && 0 <= y < n ::
          plateau[y, x] == View.Decoded(infos, n, Points(bateau[..i]), x, y)
      {
        var c := bateau[i];
        assert Points(bateau[..i + 1]) == Points(bateau[..i]) + {c};
        if plateau[c.y, c.x] == Empty {
          plateau[c.y, c.x] := Boat;
        }
      }
    }

    /** The ship recorded is the one the server records for the anchor sent. */
    ghost predicate Recorded(a: Anchor)
      requires bateau.Length == MAX_BOAT_SIZE && tailleBateau <= MAX_BOAT_SIZE
      reads this, bateau
    {
      forall i | 0 <= i < tailleBateau ::
        bateau[i] == Point(ShipX(a.x, a.direction, i), ShipY(a.y, a.direction, i))
    }

    /** The ship recorded is the last one sent. */
    ghost predicate LastRecorded(sent: seq<Anchor>)
      requires bateau.Length == MAX_BOAT_SIZE && tailleBateau <= MAX_BOAT_SIZE
      reads this, bateau
    {
      sent != [] ==> Recorded(sent[|sent| - 1])
    }

    ghost predicate Sendable(a: Anchor)
      reads this
    {
      Conforming(a, taillePlateau, tailleBateau)
    }

    ghost predicate AllSendable(sent: seq<Anchor>)
      reads this
    {
      forall j | 0 <= j < |sent| :: Sendable(sent[j])
    }

    /** The ships that the ENTER keys among these send, with the cursor at (x, y). */
    ghost function Ships(x: int, y: int, keys: seq<Key>): seq<Anchor>
      reads this
    {
      Aimed(taillePlateau, tailleBateau, x, y, Wishes(keys))
    }

    /** menu_placer_bateau: direction keys, then ENTER sends the ship. `replies` are the ids the
        server answers with, in order. Each ENTER sends one ship, at the cursor and pointing the way of the
        last arrow key if it fits that way, else the opposite way. */
    method MenuPlacerBateau(x: int, y: int, keys: seq<Key>, replies: seq<int>)
      returns (outcome: Outcome, used: nat, sent: seq<Anchor>)
      requires Valid() && 2 * tailleBateau <= taillePlateau && InBoard(taillePlateau, x, y)
      modifies bateau
      ensures LeftBy(keys, used, outcome) && (outcome == Waiting ==> used == |keys| || |sent| > |replies|)
      ensures sent == Ships(x, y, keys[..used]) && AllSendable(sent)
      ensures LastRecorded(sent)
      ensures sent == [] ==> bateau[..] == old(bateau[..])
      ensures Settled(outcome, sent, replies)
    {
      TurnedFits(taillePlateau, tailleBateau, x, y, 'd');
      var direction := Turned(taillePlateau, tailleBateau, x, y, 'd');
      sent, used := [], 0;
      outcome := Waiting;
      while used < |keys|
        invariant LeftBy(keys, used, outcome) && InMenu(x, y, keys[..used], direction, sent)
        invariant Settled(outcome, sent, replies)
        invariant outcome == Waiting && Refused(sent, replies) && LastRecorded(sent)
        invariant sent == [] ==> bateau[..] == old(bateau[..])
      {
        ghost var d, before := direction, sent;
        direction, sent, outcome := TraiterTouche(keys[used], x, y, direction, sent, replies);
        NextKey(x, y, keys, used, d, before, direction, sent, outcome);
        used := used + 1;
        if outcome != Waiting || |sent| > |replies| { break; }
      }
      ShipsFit(x, y, keys[..used]);
    }

    /** One key of the menu, and the drawing after it. */
    method TraiterTouche(ch: Key, x: int, y: int, d: char, sent: seq<Anchor>, replies: seq<int>)
      returns (direction: char, after: seq<Anchor>, outcome: Outcome)
      requires Valid() && IsDirection(d) && Refused(sent, replies) && LastRecorded(sent)
      modifies bateau
      ensures after == sent + (if ch == Enter then [Anchor(x, y, d)] else []) && LastRecorded(after)
      ensures outcome ==
        if ch == Quit then Abandoned
        else if ch == Enter && |sent| < |replies| && replies[|sent|] == 0 then Accepted
        else Waiting
      ensures Settled(outcome, after, replies)
      ensures outcome != Accepted ==> |after| > |replies| || Refused(after, replies)
      ensures direction == Turned(taillePlateau, tailleBateau, x, y, if IsArrow(ch) then Letter(ch) else d)
      ensures ch != Enter ==> bateau[..] == old(bateau[..])
    {
      direction, after, outcome := d, sent, Waiting;
      match ch {
        case Up => direction := 'h';
        case Down => direction := 'b';
        case Left => direction := 'g';
        case Right => direction := 'd';
        case Enter => after, outcome := EnvoyerBateau(x, y, direction, sent, replies);
        case Quit => outcome := Abandoned;
        case Other =>
      }
      direction := Turned(taillePlateau, tailleBateau, x, y, direction);
    }

    /** The direction in force after these keys. */
    ghost function Heading(x: int, y: int, keys: seq<Key>): char
      reads this
    {
      Fitting(taillePlateau, tailleBateau, x, y, LastWish(keys))
    }

    /** What these keys of the menu have led to. */
    ghost predicate InMenu(x: int, y: int, keys: seq<Key>, direction: char, sent: seq<Anchor>)
      reads this
    {
      IsDirection(direction) && direction == Heading(x, y, keys) && sent == Ships(x, y, keys)
    }

    lemma NextKey(x: int, y: int, keys: seq<Key>, n: nat, d: char, sent: seq<Anchor>, direction: char,
                  after: seq<Anchor>, outcome: Outcome)
      requires Valid() && 2 * tailleBateau <= taillePlateau && InBoard(taillePlateau, x, y) && n < |keys|
      requires InMenu(x, y, keys[..n], d, sent) && LeftBy(keys, n, Waiting)
      requires outcome == Abandoned <==> keys[n] == Quit
      requires after == sent + if keys[n] == Enter then [Anchor(x, y, d)] else []
      requires direction == Turned(taillePlateau, tailleBateau, x, y, if IsArrow(keys[n]) then Letter(keys[n]) else d)
      ensures InMenu(x, y, keys[..n + 1], direction, after) && LeftBy(keys, n + 1, outcome)
    {
      OneKeyMore(keys, n);
      TurnedFits(taillePlateau, tailleBateau, x, y, LastWish(keys[..n]));
      TurnedFits(taillePlateau, tailleBateau, x, y, LastWish(keys[..n + 1]));
      OneShipMore(taillePlateau, tailleBateau, x, y, Wishes(keys[..n]), LastWish(keys[..n]));
    }

    lemma ShipsFit(x: int, y: int, keys: seq<Key>)
      requires Valid() && 2 * tailleBateau <= taillePlateau && InBoard(taillePlateau, x, y)
      ensures AllSendable(Ships(x, y, keys))
    {
      var w := Wishes(keys);
      forall j | 0 <= j < |w| ensures Sendable(Ships(x, y, keys)[j]) {
        TurnedFits(taillePlateau, tailleBateau, x, y, w[j]);
      }
    }

    /** The ENTER branch: record the ship, send it, and read the reply if there is one. */
    method EnvoyerBateau(x: int, y: int, direction: char, sent: seq<Anchor>, replies: seq<int>)
      returns (after: seq<Anchor>, outcome: Outcome)
      requires Valid() && IsDirection(direction) && Refused(sent, replies)
      modifies bateau
      ensures after == sent + [Anchor(x, y, direction)] && LastRecorded(after)
      ensures outcome == if |sent| < |replies| && replies[|sent|] == 0 then Accepted else Waiting
      ensures Settled(outcome, after, replies)
      ensures outcome == Waiting ==> |after| > |replies| || Refused(after, replies)
    {
      EnregistrerBateau(x, y, direction);
      after := sent + [Anchor(x, y, direction)];
      outcome := if |after| <= |replies| && replies[|after| - 1] == 0 then Accepted else Waiting;
    }

    /** The ENTER branch's loops: one loop for each of the four directions. */
    method EnregistrerBateau(x: int, y: int, direction: char)
      requires Valid() && IsDirection(direction)
      modifies bateau
      ensures Recorded(Anchor(x, y, direction))
      ensures direction == 'g' ==> forall i | 0 <= i < tailleBateau :: bateau[i] == Point(x - i, y)
      ensures direction == 'd' ==> forall i | 0 <= i < tailleBateau :: bateau[i] == Point(x + i, y)
      ensures direction == 'h' ==> forall i | 0 <= i < tailleBateau :: bateau[i] == Point(x, y - i)
      ensures direction == 'b' ==> forall i | 0 <= i < tailleBateau :: bateau[i] == Point(x, y + i)
    {
      for i := 0 to tailleBateau
        invariant forall k | 0 <= k < i :: bateau[k] == Point(ShipX(x, direction, k), ShipY(y, direction, k))
      {
        bateau[i] := Point(ShipX(x, direction, i), ShipY(y, direction, i));
      }
    }

    /** What these keys choose as long as no ship is accepted. */
    ghost function Choices(keys: seq<Key>): Choice
      reads this
    {
      Chosen(taillePlateau, tailleBateau, keys)
    }

    /** The cursor is there, the menu is closed, and these ships have been sent. */
    ghost predicate Browsing(keys: seq<Key>, x: int, y: int, sent: seq<Anchor>)
      reads this
    {
      var c := Choices(keys);
      c.x == x && c.y == y && !c.menu && c.sent == sent
    }

    /** The keys from k on, up to m, were pressed in a menu opened by the ENTER before them. */
    lemma MenuKeys(keys: seq<Key>, k: nat, m: nat, x: int, y: int, sent: seq<Anchor>)
      requires 0 < k <= m <= |keys| && keys[k - 1] == Enter && Browsing(keys[..k - 1], x, y, sent)
      requires forall i | k <= i < m - 1 :: keys[i] != Quit
      ensures Choices(keys[..m]).sent == sent + Ships(x, y, keys[k..m])
      ensures m > k && keys[m - 1] == Quit ==> Browsing(keys[..m], x, y, sent + Ships(x, y, keys[k..m]))
    {
      var stop := if m > k && keys[m - 1] == Quit then m - 1 else m;
      MenuSlice(taillePlateau, tailleBateau, keys, k, stop);
      if stop < m {
        ChosenUpTo(taillePlateau, tailleBateau, keys, stop);
        WishesBeforeQuit(keys, k, stop);
      }
    }

    /** choix_bateau: cursor keys move over the board, ENTER opens the placement menu there. `sent` are
        the ships sent from all the menus opened by the first `used` keys. The one accepted is the first to be
        answered with 0, and nothing is sent after it; it lies on the board and is the one recorded. Only for want of
        a key or a reply does the client wait. */
    method ChoixBateau(keys: seq<Key>, replies: seq<int>)
      returns (outcome: Outcome, ship: Anchor, sent: seq<Anchor>, used: nat)
      requires Valid() && 2 * tailleBateau <= taillePlateau
      modifies bateau
      ensures outcome == Accepted || outcome == Waiting
      ensures used <= |keys| && sent == Choices(keys[..used]).sent
      ensures outcome == Waiting ==> used == |keys| || |sent| > |replies|
      ensures AllSendable(sent) && Settled(outcome, sent, replies)
      ensures outcome == Accepted ==> ship == sent[|sent| - 1] && Recorded(ship)
    {
      var cursor_x, cursor_y := 0, 0;
      ship, sent, used := Anchor(0, 0, 'd'), [], 0;
      while used < |keys|
        invariant used <= |keys| && InBoard(taillePlateau, cursor_x, cursor_y)
        invariant Browsing(keys[..used], cursor_x, cursor_y, sent)
        invariant AllSendable(sent) && Refused(sent, replies)
      {
        var ch := keys[used];
        ChosenUpTo(taillePlateau, tailleBateau, keys, used);
        used := used + 1;
        match ch {
          case Up => if cursor_y > 0 { cursor_y := cursor_y - 1; }
          case Down => if cursor_y < taillePlateau - 1 { cursor_y := cursor_y + 1; }
          case Left => if cursor_x > 0 { cursor_x := cursor_x - 1; }
          case Right => if cursor_x < taillePlateau - 1 { cursor_x := cursor_x + 1; }
          case Enter =>
            outcome, used, sent := OuvrirMenu(cursor_x, cursor_y, keys, used, sent, replies);
            if outcome == Accepted {
              ship := sent[|sent| - 1];
              return;
            }
            if outcome == Waiting { return; }
          case Quit =>
          case Other =>
        }
      }
      outcome := Waiting;
    }

    /** The placement menu, opened by key k - 1 after `before` have been sent. */
    method OuvrirMenu(x: int, y: int, keys: seq<Key>, k: nat, before: seq<Anchor>, replies: seq<int>)
      returns (outcome: Outcome, used: nat, sent: seq<Anchor>)
      requires Valid() && 2 * tailleBateau <= taillePlateau && InBoard(taillePlateau, x, y)
      requires 0 < k <= |keys| && keys[k - 1] == Enter && Browsing(keys[..k - 1], x, y, before)
      requires AllSendable(before) && Refused(before, replies)
      modifies bateau
      ensures k <= used <= |keys| && sent == Choices(keys[..used]).sent
      ensures outcome == Waiting ==> used == |keys| || |sent| > |replies|
      ensures outcome == Abandoned ==> Browsing(keys[..used], x, y, sent)
      ensures AllSendable(sent) && Settled(outcome, sent, replies)
      ensures outcome == Accepted ==> Recorded(sent[|sent| - 1])
    {
      var more;
      outcome, used, more := MenuPlacerBateau(x, y, keys[k..], replies[|before|..]);
      SettledLater(outcome, before, more, replies);
      assert keys[k..][..used] == keys[k..k + used];
      MenuKeys(keys, k, k + used, x, y, before);
      used := k + used;
      sent := before + more;
    }
  }
}
