/** The results about whole runs, read off the invariant. */
module ProtocolTheorems {
  import opened Board
  import opened Shots
  import opened Verdicts
  import opened Placement
  import opened Protocol
  import opened ProtocolInvariant
  import opened ProtocolServerSteps
  import Requests
  import View

  ghost predicate Reachable(s: State) {
    exists start, schedule :: Initial(start) && Run(start, schedule) == s
  }

  lemma ReachableInv(s: State)
    requires Reachable(s)
    ensures Inv(s)
  {
    var start, schedule :| Initial(start) && Run(start, schedule) == s;
    InitialInv(start);
    RunKeeps(start, schedule);
  }

  // ----- lockstep -----

  /** The id a client waits for at each of its reads. */
  ghost predicate ClientExpects(pc: Pc, id: int) {
    match pc
    case WaitInfos => id == 4
    case WaitBoatReq => id == 3
    case WaitBoatAck => id == 0
    case WaitView => id == 2
    case WaitGo => id == 5
    case WaitShotAck => id == 0
    case WaitStatus => VerdictMsg(id)
    case _ => false
  }

  /** The id the server's next read from a client waits for, when its next event with it is e. */
  ghost predicate ServerExpects(e: int, id: int) {
    if e == 1 || e == 6 || e == 8 || e == 12 then id == 0 else if e == 3 then id == 3 else e == 9 && id == 6
  }

  /** Whatever is first in a channel is what its receiver is about to read and has the id it waits
      for; a direction holds at most two messages, and never both directions any. */
  ghost predicate InLockstep(s: State, k: int)
    requires 0 <= k < |s.peers|
  {
    var p := s.peers[k];
    && p.pc != Failed
    && (p.down != [] ==> ClientExpects(p.pc, p.down[0].id))
    && (p.up != [] ==> ServerExpects(Stage(s.server, k), p.up[0].id))
    && |p.down| <= 2 && |p.up| <= 2 && (p.down == [] || p.up == [])
  }

  lemma LinkedLockstep(e: int, p: Peer)
    requires Linked(e, p)
    ensures p.pc != Failed
    ensures p.down != [] ==> ClientExpects(p.pc, p.down[0].id)
    ensures p.up != [] ==> ServerExpects(e, p.up[0].id)
    ensures |p.down| <= 2 && |p.up| <= 2 && (p.down == [] || p.up == [])
  {
  }

  lemma Lockstep(s: State, k: int)
    requires Reachable(s) && 0 <= k < s.c.n
    ensures |s.peers| == s.c.n && InLockstep(s, k)
  {
    ReachableInv(s);
    LinkedLockstep(Stage(s.server, k), s.peers[k]);
  }

  lemma NoDeadlock(s: State)
    requires Reachable(s) && s.server.phase != Done
    ensures exists a :: Enabled(s, a)
  {
    ReachableInv(s);
    var i := s.server.i;
    var p, ship := s.peers[i], Anchor(0, 0, 'd');
    if ServerEnabled(s) {
      assert Enabled(s, ServerStep);
    } else {
      BlockedReadMeansClientMoves(s.c, PhaseEvent(s.server.phase), s.server.board, p, i, ship);
      assert Enabled(s, ClientStep(i, ship, Point(0, 0)));
    }
  }

  /** If the server waits for a client that has sent nothing, that client can move. */
  lemma BlockedReadMeansClientMoves(c: Config, e: int, b: Board, p: Peer, k: int, ship: Anchor)
    requires ConfigOk(c) && Shape(b) && Sized(b) && 0 <= k && Linked(e, p) && SetupData(c, e, b, p, k)
    requires (e == 1 || e == 3 || e == 6 || e == 8 || e == 9 || e == 12) && p.up == []
    requires ship == Anchor(0, 0, 'd')
    ensures PeerEnabled(p, ship)
  {
  }

  // ----- life, verdicts, view -----

  /** From the head of a round until its first shot, a client is alive exactly if its ship has an
      unhit cell on the server. */
  lemma LifeAgreement(s: State, k: int)
    requires Reachable(s) && 0 <= k < s.c.n && FreshPhase(s.server.phase)
    ensures |s.peers| == s.c.n && Agree(s.server.board, s.c.size) && s.server.board.nbBateau == s.c.n
    ensures s.peers[k].etat == EnJeu <==> !Sunk(s.server.board, k)
    ensures s.peers[k].etat == Dead <==> Sunk(s.server.board, k)
  {
    ReachableInv(s);
  }

  /** At any moment of a game, the two records of the server agree and a dead client's ship is sunk. */
  lemma DeadMeansSunk(s: State, k: int)
    requires Reachable(s) && 0 <= k < s.c.n == |s.peers| && s.peers[k].etat == Dead
    ensures Agree(s.server.board, s.c.size) && k < s.server.board.nbBateau && Sunk(s.server.board, k)
  {
    ReachableInv(s);
    assert PeerInv(s.c, Stage(s.server, k), FreshPhase(s.server.phase), s.server.board, s.peers[k], k);
  }

  /** When the protocol ends every client has finished, the winner is the one whose ship floats,
      and there is at most one. */
  lemma FinalAgreement(s: State, k: int, m: int)
    requires Reachable(s) && s.server.phase == Done && 0 <= k < s.c.n && 0 <= m < s.c.n
    ensures |s.peers| == s.c.n && Agree(s.server.board, s.c.size) && s.server.board.nbBateau == s.c.n
    ensures s.peers[k].pc == Finished
    ensures s.peers[k].etat == FinWin <==> !Sunk(s.server.board, k)
    ensures s.peers[k].etat == FinLose <==> Sunk(s.server.board, k)
    ensures s.peers[k].etat == FinWin && s.peers[m].etat == FinWin ==> k == m
  {
    ReachableInv(s);
    assert Linked(13, s.peers[k]) && Linked(13, s.peers[m]);
    VerdictMeaning(s.server.board, k);
    VerdictMeaning(s.server.board, m);
    OneWinner(s.server.board, k, m);
  }

  /** After an 8 a player is only ever sent 8 or 9, and nothing follows a 9 or a 10. */
  lemma DeadStaysDead(s: State, k: int, a: int, z: int)
    requires Reachable(s) && 0 <= k < s.c.n == |s.peers| && 0 <= a < z < |s.peers[k].sent|
    ensures s.peers[k].sent[a] == 7 || s.peers[k].sent[a] == 8
    ensures s.peers[k].sent[a] == 8 ==> s.peers[k].sent[z] == 8 || s.peers[k].sent[z] == 9
  {
    ReachableInv(s);
    assert PeerInv(s.c, Stage(s.server, k), FreshPhase(s.server.phase), s.server.board, s.peers[k], k);
  }

  /** The board changes only by a ship of the collection or a shot of a living player; in
      particular not when the server takes the "mort" of a dead one. */
  lemma OnlyTheLivingShoot(s: State, a: Action)
    requires Reachable(s) && Next(s, a).server.board != s.server.board
    ensures a == ServerStep && 0 <= s.server.i < |s.peers|
    ensures s.server.phase == AckBoat || (s.server.phase == AckShot && s.peers[s.server.i].etat == EnJeu)
  {
    ReachableInv(s);
    if a == ServerStep && s.server.phase == AckShot {
      ShotTakenState(s);
      ShotLands(s);
    }
  }

  /** The cells of the ship a client chose. */
  ghost function AnchorPoints(a: Anchor, taille: int): set<Point> {
    set j | 0 <= j < taille :: Point(ShipX(a.x, a.direction, j), ShipY(a.y, a.direction, j))
  }

  /** The cell of its board a client shows at (x, y). */
  ghost function Shown(c: Config, p: Peer, stale: string, x: int, y: int): Status
    requires 0 <= x < c.size && 0 <= y < c.size && c.size * c.size <= View.INFOS_SIZE && |stale| == View.INFOS_SIZE
  {
    View.Decoded(View.Scanned(p.digits, Requests.CLIENT_SCAN, stale), c.size, AnchorPoints(p.boat, c.taille), x, y)
  }

  /** Once a client has its view of the round, and until the first shot, the board it shows is the
      projection of the server's: every shot, BOAT exactly on its own unhit cells, nothing else. */
  lemma ViewAgreement(s: State, k: int, stale: string, x: int, y: int)
    requires Reachable(s) && 0 <= k < s.c.n && FreshPhase(s.server.phase) && Stage(s.server, k) >= 7
    requires s.c.size * s.c.size <= Requests.CLIENT_SCAN && |stale| == View.INFOS_SIZE && InBoard(s.c.size, x, y)
    ensures |s.peers| == s.c.n && Agree(s.server.board, s.c.size) && s.server.board.nbBateau == s.c.n
    ensures var shown, cell := Shown(s.c, s.peers[k], stale, x, y), s.server.board.cell[y][x];
      && (shown == HitShot <==> cell == HitShot)
      && (shown == MissedShot <==> cell == MissedShot)
      && (shown == Boat <==> exists j :: 0 <= j < s.server.board.bateaux[k].taille
                                      && s.server.board.bateaux[k].cell[j] == ShipCell(x, y, Boat))
  {
    ReachableInv(s);
    var b, p := s.server.board, s.peers[k];
    assert PeerInv(s.c, Stage(s.server, k), true, b, p, k);
    assert 7 <= Stage(s.server, k) <= 9;
    OwnPoints(s.c, b, p.boat, k);
    View.ViewIsProjection(b.cell, s.c.size, Requests.CLIENT_SCAN, stale, AnchorPoints(p.boat, s.c.taille));
    View.OwnUnhitCellsShown(b, s.c.size, k, x, y);
  }

  lemma OwnPoints(c: Config, b: Board, a: Anchor, k: int)
    requires Shape(b) && Sized(b) && 0 <= k && ShipOf(c, b, k, a)
    ensures AnchorPoints(a, c.taille) == View.ShipPoints(b.bateaux[k])
  {
    var s := b.bateaux[k];
    forall j | 0 <= j < c.taille
      ensures Point(s.cell[j].x, s.cell[j].y) == Point(ShipX(a.x, a.direction, j), ShipY(a.y, a.direction, j))
    {}
    forall q | q in AnchorPoints(a, c.taille) ensures q in View.ShipPoints(s) {
      var j :| 0 <= j < c.taille && q == Point(ShipX(a.x, a.direction, j), ShipY(a.y, a.direction, j));
      assert q == Point(s.cell[j].x, s.cell[j].y);
    }
    forall q | q in View.ShipPoints(s) ensures q in AnchorPoints(a, c.taille) {
      var j :| 0 <= j < s.taille && q == Point(s.cell[j].x, s.cell[j].y);
    }
  }

  // ----- progress -----

  /** How far a client is in the thirteen events of its round. */
  ghost function ClientEvent(e: int, pc: Pc): int {
    match pc
    case WaitInfos => 0 case AckInfos => 1
    case WaitBoatReq => 2 case SendBoat => 3 case WaitBoatAck => 4
    case WaitView => if e >= 12 then 13 else 5
    case AckView => 6
    case WaitGo => 7 case AckGo => 8 case SendShot => 9 case WaitShotAck => 10
    case WaitStatus => 11 case AckStatus => 12
    case Finished => 13 case Failed => 13
  }

  /** Events of this round still to come, on both sides, for the clients from k on. */
  ghost function Work(v: Server, peers: seq<Peer>, k: nat): int
    requires k <= |peers|
    decreases |peers| - k
  {
    if k == |peers| then 0
    else (13 - Stage(v, k)) + (13 - ClientEvent(Stage(v, k), peers[k].pc)) + Work(v, peers, k + 1)
  }

  /** The step that ends an undecided round and starts the next. */
  ghost predicate StartsNextRound(s: State, a: Action) {
    a == ServerStep && s.server.phase == RecvStatusAck && s.server.i + 1 == s.c.n && !GameOver(s.server.board)
  }

  /** One client's share of the work. */
  ghost function Share(v: Server, peers: seq<Peer>, k: nat): int
    requires k < |peers|
  {
    (13 - Stage(v, k)) + (13 - ClientEvent(Stage(v, k), peers[k].pc))
  }

  lemma {:induction false} WorkDrops(v: Server, peers: seq<Peer>, w: Server, after: seq<Peer>, i: nat, k: nat)
    requires |peers| == |after| && k <= |peers| && i < |peers|
    requires Share(w, after, i) == Share(v, peers, i) - 1
    requires forall m: nat | m < |peers| && m != i :: Share(w, after, m) == Share(v, peers, m)
    ensures Work(w, after, k) == Work(v, peers, k) - if k <= i then 1 else 0
    decreases |peers| - k
  {
    if k < |peers| {
      WorkDrops(v, peers, w, after, i, k + 1);
      assert Share(w, after, k) == Share(v, peers, k) - if k == i then 1 else 0;
    }
  }

  lemma {:induction false} WorkBounds(s: State, k: nat)
    requires Inv(s) && k <= s.c.n
    ensures 0 <= Work(s.server, s.peers, k) <= 26 * (s.c.n - k)
    decreases s.c.n - k
  {
    if k < s.c.n {
      WorkBounds(s, k + 1);
      assert Linked(Stage(s.server, k), s.peers[k]);
      ShareBounds(s.server, s.peers, k);
    }
  }

  lemma ShareBounds(v: Server, peers: seq<Peer>, k: nat)
    requires k < |peers| && Linked(Stage(v, k), peers[k])
    ensures 0 <= Share(v, peers, k) <= 26
  {
  }

  lemma ClientAdvances(e: int, p: Peer, ship: Anchor, shot: Point)
    requires Linked(e, p) && PeerEnabled(p, ship)
    requires e == 12 && p.pc == AckStatus ==> VerdictMsg(p.statut) && !Over(p)
    ensures ClientEvent(e, PeerNext(p, ship, shot).pc) == ClientEvent(e, p.pc) + 1
  {
  }

  lemma ServerLeavesPc(s: State, m: nat)
    requires ServerEnabled(s) && m < |s.peers|
    ensures |ServerNext(s).peers| == |s.peers| && ServerNext(s).peers[m].pc == s.peers[m].pc
  {
  }

  /** Between the two points of a loop body. */
  lemma GotoAdvances(s: State, m: nat)
    requires ServerEnabled(s)
    requires s.server.phase == SendInfos || s.server.phase == PollBoat || s.server.phase == SendView
          || s.server.phase == SendGo || s.server.phase == RecvShot || s.server.phase == SendStatus
    ensures Stage(ServerNext(s).server, m) == Stage(s.server, m) + if m == s.server.i then 1 else 0
  {
    assert ServerNext(s).server.i == s.server.i;
    assert PhaseEvent(ServerNext(s).server.phase) == PhaseEvent(s.server.phase) + 1;
  }

  /** At the end of a loop body. */
  lemma LoopAdvances(s: State, again: Phase, after: Phase, m: nat)
    requires ServerEnabled(s) && s.server.i < s.c.n && m < s.c.n
    requires (s.server.phase == RecvInfosAck && again == SendInfos && after == SendBoatReq)
          || (s.server.phase == SendBoatReq && again == SendBoatReq && after == PollBoat)
          || (s.server.phase == RecvViewAck && again == SendView && after == SendGo)
          || (s.server.phase == RecvGoAck && again == SendGo && after == RecvShot)
          || (s.server.phase == AckShot && again == RecvShot && after == SendStatus)
    ensures Stage(ServerNext(s).server, m) == Stage(s.server, m) + if m == s.server.i then 1 else 0
  {
    LoopMoves(s, again, after);
    LoopTarget(s, again, after);
    assert Stage(ServerNext(s).server, m) == Stage(Loop(s, again, after).server, m);
  }

  lemma LoopTarget(s: State, again: Phase, after: Phase)
    requires ServerEnabled(s)
    requires (s.server.phase == RecvInfosAck && again == SendInfos && after == SendBoatReq)
          || (s.server.phase == SendBoatReq && again == SendBoatReq && after == PollBoat)
          || (s.server.phase == RecvViewAck && again == SendView && after == SendGo)
          || (s.server.phase == RecvGoAck && again == SendGo && after == RecvShot)
          || (s.server.phase == AckShot && again == RecvShot && after == SendStatus)
    ensures ServerNext(s).server.phase == Loop(s, again, after).server.phase
    ensures ServerNext(s).server.i == Loop(s, again, after).server.i
  {
  }

  lemma CollectionAdvances(s: State, m: nat)
    requires Inv(s) && ServerEnabled(s) && m < s.c.n && s.server.phase == AckBoat
    ensures Stage(ServerNext(s).server, m) == Stage(s.server, m) + if m == s.server.i then 1 else 0
  {
    ShipTakenState(s);
  }

  lemma VerdictsAdvance(s: State, m: nat)
    requires Inv(s) && ServerEnabled(s) && m < s.c.n && s.server.phase == RecvStatusAck
    requires !StartsNextRound(s, ServerStep)
    ensures Stage(ServerNext(s).server, m) == Stage(s.server, m) + if m == s.server.i then 1 else 0
  {
    StatusAckReadState(s);
  }

  /** The server's step moves its stage with the current client on by one, and no other. */
  lemma StageAdvances(s: State, m: nat)
    requires Inv(s) && ServerEnabled(s) && !StartsNextRound(s, ServerStep) && m < s.c.n
    ensures Stage(ServerNext(s).server, m) == Stage(s.server, m) + if m == s.server.i then 1 else 0
  {
    match s.server.phase
    case SendInfos | PollBoat | SendView | SendGo | RecvShot | SendStatus => GotoAdvances(s, m);
    case AckBoat => CollectionAdvances(s, m);
    case RecvStatusAck => VerdictsAdvance(s, m);
    case RecvInfosAck => LoopAdvances(s, SendInfos, SendBoatReq, m);
    case SendBoatReq => LoopAdvances(s, SendBoatReq, PollBoat, m);
    case RecvViewAck => LoopAdvances(s, SendView, SendGo, m);
    case RecvGoAck => LoopAdvances(s, SendGo, RecvShot, m);
    case AckShot => LoopAdvances(s, RecvShot, SendStatus, m);
  }

  lemma SameEvent(e: int, p: Peer)
    requires Linked(e, p) && (e == 11 ==> p.pc != WaitView)
    ensures ClientEvent(e + 1, p.pc) == ClientEvent(e, p.pc)
  {
  }

  lemma ServerAdvances(s: State)
    requires Inv(s) && ServerEnabled(s) && !StartsNextRound(s, ServerStep)
    ensures var t := ServerNext(s);
      && |t.peers| == |s.peers|
      && Share(t.server, t.peers, s.server.i) == Share(s.server, s.peers, s.server.i) - 1
      && forall m: nat | m < |s.peers| && m != s.server.i ::
           Share(t.server, t.peers, m) == Share(s.server, s.peers, m)
  {
    var t, i := ServerNext(s), s.server.i;
    ServerLeavesPc(s, i);
    StageAdvances(s, i);
    SameEvent(Stage(s.server, i), s.peers[i]);
    forall m: nat | m < |s.peers| && m != i
      ensures Share(t.server, t.peers, m) == Share(s.server, s.peers, m)
    {
      ServerLeavesPc(s, m);
      StageAdvances(s, m);
    }
  }

  /** Every step taken uses up one of at most 26 events per client, except the one that starts the
      next round. */
  lemma StepsUseWork(s: State, a: Action)
    requires Reachable(s) && Enabled(s, a) && !StartsNextRound(s, a)
    ensures |Next(s, a).peers| == |s.peers| == s.c.n
    ensures Work(Next(s, a).server, Next(s, a).peers, 0) == Work(s.server, s.peers, 0) - 1
    ensures 0 < Work(s.server, s.peers, 0) <= 26 * s.c.n
  {
    ReachableInv(s);
    StepKeeps(s, a);
    WorkBounds(s, 0);
    WorkBounds(Next(s, a), 0);
    StepsUseWorkInv(s, a);
  }

  lemma StepsUseWorkInv(s: State, a: Action)
    requires Inv(s) && Enabled(s, a) && !StartsNextRound(s, a)
    ensures |Next(s, a).peers| == |s.peers| == s.c.n
    ensures Work(Next(s, a).server, Next(s, a).peers, 0) == Work(s.server, s.peers, 0) - 1
  {
    var t := Next(s, a);
    match a
    case ServerStep =>
      ServerAdvances(s);
      WorkDrops(s.server, s.peers, t.server, t.peers, s.server.i, 0);
    case ClientStep(k, ship, shot) =>
      var p, e := s.peers[k], Stage(s.server, k);
      assert PeerInv(s.c, e, FreshPhase(s.server.phase), s.server.board, p, k);
      if e == 12 && p.pc == AckStatus { StatutIsVerdict(s.c, e, FreshPhase(s.server.phase), s.server.board, p, k); }
      ClientAdvances(e, p, ship, shot);
      WorkDrops(s.server, s.peers, t.server, t.peers, k, 0);
  }

  lemma StatutIsVerdict(c: Config, e: int, early: bool, b: Board, p: Peer, k: nat)
    requires Shape(b) && Sized(b) && c.size <= MAX_BOARD_SIZE && PeerInv(c, e, early, b, p, k)
    requires e == 12 && p.pc == AckStatus
    ensures VerdictMsg(p.statut) && !Over(p)
  {
  }

  /** Every action of the schedule can be taken where it stands, and none starts a new round. */
  ghost predicate WithinRound(s: State, schedule: seq<Action>)
    decreases |schedule|
  {
    schedule == [] ||
      (Enabled(s, schedule[0]) && !StartsNextRound(s, schedule[0]) && WithinRound(Next(s, schedule[0]), schedule[1..]))
  }

  lemma {:induction false} ReachableNext(s: State, a: Action)
    requires Reachable(s)
    ensures Reachable(Next(s, a))
  {
    var start, schedule :| Initial(start) && Run(start, schedule) == s;
    var longer := schedule + [a];
    assert longer[..|longer| - 1] == schedule;
    assert Run(start, longer) == Next(s, a);
  }

  /** No scheduler can keep a round going: within one (the setup counted with the first), at most
      26 steps per client are taken. With NoDeadlock, every round therefore ends. */
  lemma {:induction false} RoundsEnd(s: State, schedule: seq<Action>)
    requires Reachable(s) && WithinRound(s, schedule)
    ensures |s.peers| == s.c.n && |schedule| <= Work(s.server, s.peers, 0) <= 26 * s.c.n
    decreases |schedule|
  {
    ReachableInv(s);
    WorkBounds(s, 0);
    if schedule != [] {
      StepsUseWork(s, schedule[0]);
      ReachableNext(s, schedule[0]);
      RoundsEnd(Next(s, schedule[0]), schedule[1..]);
    }
  }
}
