/** The boards of the running game are those that ships and shots can bring about, and nothing else. */
module ProtocolBoards {
  import opened Board
  import opened Fleets
  import opened Placement
  import opened Protocol
  import opened ProtocolInvariant
  import opened ProtocolServerSteps
  import opened ProtocolTheorems
  import opened Shots

  /** The board comes from an empty one by placing conforming ships and then firing; while ships are collected no
      shot has been fired. */
  ghost predicate Story(c: Config, b: Board, collecting: bool, start: Board, ships: seq<Anchor>, shots: seq<Point>) {
    && Cleared(start) && Fits(|ships|, c.size, c.taille) && AllConforming(ships, c.size, c.taille)
    && b == AfterShots(Fleet(start, c.size, c.taille, ships), c.size, shots) && (collecting ==> shots == [])
  }

  ghost predicate Explained(s: State) {
    exists start, ships, shots :: Story(s.c, s.server.board, Collecting(s.server.phase), start, ships, shots)
  }

  lemma StartExplained(s: State)
    requires Initial(s)
    ensures Explained(s)
  {
    assert AfterShots(Fleet(s.server.board, s.c.size, s.c.taille, []), s.c.size, []) == s.server.board;
    assert Story(s.c, s.server.board, Collecting(s.server.phase), s.server.board, [], []);
  }

  /** A ship more, before any shot. */
  lemma ShipStory(c: Config, b: Board, start: Board, ships: seq<Anchor>, a: Anchor)
    requires Story(c, b, true, start, ships, []) && |ships| < MAX_PLAYER && Conforming(a, c.size, c.taille)
    requires CanPlace(b, |ships|, c.taille, a.x, a.y, a.direction)
    ensures Story(c, Placed(b, |ships|, c.taille, a.x, a.y, a.direction), true, start, ships + [a], [])
  {
    assert (ships + [a])[..|ships|] == ships;
  }

  lemma ShotStory(c: Config, b: Board, start: Board, ships: seq<Anchor>, shots: seq<Point>, p: Point)
    requires Story(c, b, false, start, ships, shots)
    ensures Story(c, AfterShot(b, c.size, p), false, start, ships, shots + [p])
  {
    assert (shots + [p])[..|shots|] == shots;
  }

  /** The number of ships told is the number on the board. */
  lemma StoryShips(c: Config, b: Board, collecting: bool, start: Board, ships: seq<Anchor>, shots: seq<Point>)
    requires Story(c, b, collecting, start, ships, shots)
    ensures Agree(b, c.size) && b.nbBateau == |ships|
  {
    ShotsRefine(Fleet(start, c.size, c.taille, ships), c.size, shots);
    ShotsAgree(Fleet(start, c.size, c.taille, ships), c.size, shots);
  }

  lemma ShipExplained(s: State)
    requires Inv(s) && Explained(s) && ServerEnabled(s) && s.server.phase == AckBoat
    ensures Explained(ServerNext(s))
  {
    var a := s.peers[s.server.i].boat;
    NextBoat(s);
    ShipBoard(s);
    PlacedExplained(s, ServerNext(s), a);
  }

  /** The ship taken is the one its client chose, and it conforms. */
  lemma NextBoat(s: State)
    requires Inv(s) && ServerEnabled(s) && s.server.phase == AckBoat
    ensures var a, i, b := s.peers[s.server.i].boat, s.server.i, s.server.board;
      && Conforming(a, s.c.size, s.c.taille) && b.nbBateau == i < s.c.n <= MAX_PLAYER
      && CanPlace(b, i, s.c.taille, a.x, a.y, a.direction)
      && TakeShip(s).server.board == Placed(b, i, s.c.taille, a.x, a.y, a.direction)
  {
    var v, i, p := s.server, s.server.i, s.peers[s.server.i];
    assert PeerInv(s.c, 4, false, v.board, p, i);
    ShipRecorded(s.c, v.board, i, p.boat);
    ShipTakenBoard(s, p.boat);
  }

  lemma PlacedExplained(s: State, t: State, a: Anchor)
    requires Explained(s) && Collecting(s.server.phase) && t.c == s.c && Conforming(a, s.c.size, s.c.taille)
    requires s.server.board.nbBateau < MAX_PLAYER
    requires CanPlace(s.server.board, s.server.board.nbBateau, s.c.taille, a.x, a.y, a.direction)
    requires t.server.board == Placed(s.server.board, s.server.board.nbBateau, s.c.taille, a.x, a.y, a.direction)
    ensures Explained(t)
  {
    var start, ships, shots :| Story(s.c, s.server.board, true, start, ships, shots);
    StoryShips(s.c, s.server.board, true, start, ships, shots);
    ShipStory(s.c, s.server.board, start, ships, a);
    assert Story(t.c, t.server.board, Collecting(t.server.phase), start, ships + [a], []);
  }

  lemma ShipBoard(s: State)
    requires ServerEnabled(s) && s.server.phase == AckBoat
    ensures ServerNext(s).server.board == TakeShip(s).server.board && ServerNext(s).c == s.c
  {
  }

  lemma ShotExplained(s: State)
    requires Inv(s) && Explained(s) && ServerEnabled(s) && s.server.phase == AckShot
    ensures Explained(ServerNext(s))
  {
    ShotTakenState(s);
    ShotLeaves(s);
    FiredExplained(s, ServerNext(s));
  }

  lemma ShotLeaves(s: State)
    requires s.server.phase == AckShot
    ensures !Collecting(Loop(s, RecvShot, SendStatus).server.phase)
    ensures TakeShot(s).server.board == s.server.board
      || (Shape(s.server.board) && s.c.size <= MAX_BOARD_SIZE && s.server.reponse.body.Coup?
          && TakeShot(s).server.board == AfterShot(s.server.board, s.c.size, s.server.reponse.body.p))
  {
  }

  lemma FiredExplained(s: State, t: State)
    requires Explained(s) && t.c == s.c && !Collecting(s.server.phase) && !Collecting(t.server.phase)
    requires t.server.board == s.server.board
      || (Shape(s.server.board) && s.c.size <= MAX_BOARD_SIZE && s.server.reponse.body.Coup?
          && t.server.board == AfterShot(s.server.board, s.c.size, s.server.reponse.body.p))
    ensures Explained(t)
  {
    var start, ships, shots :| Story(s.c, s.server.board, false, start, ships, shots);
    if t.server.board == s.server.board {
      assert Story(t.c, t.server.board, false, start, ships, shots);
    } else {
      var p := s.server.reponse.body.p;
      ShotStory(s.c, s.server.board, start, ships, shots, p);
      assert Story(t.c, t.server.board, false, start, ships, shots + [p]);
    }
  }

  lemma QuietStep(s: State)
    requires ServerEnabled(s) && s.server.phase != AckBoat && s.server.phase != AckShot
    ensures ServerNext(s).c == s.c && ServerNext(s).server.board == s.server.board
    ensures Collecting(ServerNext(s).server.phase) ==> Collecting(s.server.phase)
  {
  }

  lemma StepExplained(s: State, a: Action)
    requires Inv(s) && Explained(s)
    ensures Explained(Next(s, a))
  {
    if a == ServerStep && Enabled(s, a) {
      if s.server.phase == AckBoat {
        ShipExplained(s);
      } else if s.server.phase == AckShot {
        ShotExplained(s);
      } else {
        QuietStep(s);
        SameExplained(s, ServerNext(s));
      }
    } else {
      SameExplained(s, Next(s, a));
    }
  }

  lemma SameExplained(s: State, t: State)
    requires Explained(s) && t.c == s.c && t.server.board == s.server.board
    requires Collecting(t.server.phase) ==> Collecting(s.server.phase)
    ensures Explained(t)
  {
    var start, ships, shots :| Story(s.c, s.server.board, Collecting(s.server.phase), start, ships, shots);
    assert Story(t.c, t.server.board, Collecting(t.server.phase), start, ships, shots);
  }

  lemma {:induction false} RunExplained(s: State, schedule: seq<Action>)
    requires Initial(s)
    ensures Inv(Run(s, schedule)) && Explained(Run(s, schedule))
  {
    if schedule == [] {
      InitialInv(s);
      StartExplained(s);
    } else {
      RunExplained(s, schedule[..|schedule| - 1]);
      var t, a := Run(s, schedule[..|schedule| - 1]), schedule[|schedule| - 1];
      StepKeeps(t, a);
      StepExplained(t, a);
    }
  }

  /** Once all ships are in, the board of every reachable state is one of a game of these players and sizes: the
      boards that the limits of the view are about. */
  lemma ReachablePlayed(s: State)
    requires Reachable(s) && !Collecting(s.server.phase)
    ensures Played(s.server.board, s.c.n, s.c.size, s.c.taille)
  {
    var start, schedule :| Initial(start) && Run(start, schedule) == s;
    RunExplained(start, schedule);
    var empty, ships, shots :| Story(s.c, s.server.board, false, empty, ships, shots);
    StoryShips(s.c, s.server.board, false, empty, ships, shots);
  }

  // ----- the ships of the players -----

  /** The ship that a client chooses is the one its message carries, and the one it remembers. */
  lemma ShipSent(s: State, k: nat, ship: Anchor, shot: Point)
    requires k < |s.peers| && s.peers[k].pc == SendBoat && Enabled(s, ClientStep(k, ship, shot))
    ensures var q := Next(s, ClientStep(k, ship, shot)).peers[k];
      q.up == s.peers[k].up + [Msg(3, ShipAt(ship))] && q.boat == ship
  {
  }

  /** It remembers it for good. */
  lemma ShipKept(s: State, a: Action, k: nat)
    requires k < |s.peers|
    ensures |Next(s, a).peers| == |s.peers|
    ensures Next(s, a).peers[k].boat != s.peers[k].boat ==> a.ClientStep? && a.k == k && s.peers[k].pc == SendBoat
  {
    if Enabled(s, a) {
      match a
      case ServerStep => ServerKeepsShips(s, k);
      case ClientStep(m, ship, shot) => if s.peers[m].pc != SendBoat { ClientKeepsShip(s.peers[m], ship, shot); }
    }
  }

  lemma ServerKeepsShips(s: State, k: nat)
    requires ServerEnabled(s) && k < |s.peers|
    ensures |ServerNext(s).peers| == |s.peers| && ServerNext(s).peers[k].boat == s.peers[k].boat
  {
  }

  lemma ClientKeepsShip(p: Peer, ship: Anchor, shot: Point)
    requires PeerEnabled(p, ship) && p.pc != SendBoat
    ensures PeerNext(p, ship, shot).boat == p.boat
  {
  }

  /** Once all ships are in, the ship on the board under a client's id is the one the client chose. */
  lemma ShipsStand(s: State, k: nat, j: nat)
    requires Reachable(s) && !Collecting(s.server.phase) && k < s.c.n == |s.peers| && j < s.c.taille
    ensures Agree(s.server.board, s.c.size) && s.server.board.nbBateau == s.c.n && s.c.taille <= MAX_BOAT_SIZE
    ensures var a, cell := s.peers[k].boat, s.server.board.bateaux[k].cell[j];
      && (a.direction == 'g' ==> cell.x == a.x - j && cell.y == a.y)
      && (a.direction == 'd' ==> cell.x == a.x + j && cell.y == a.y)
      && (a.direction == 'h' ==> cell.x == a.x && cell.y == a.y - j)
      && (a.direction == 'b' ==> cell.x == a.x && cell.y == a.y + j)
  {
    ReachableInv(s);
    assert PeerInv(s.c, Stage(s.server, k), FreshPhase(s.server.phase), s.server.board, s.peers[k], k);
    assert Stage(s.server, k) >= 5;
  }
}
