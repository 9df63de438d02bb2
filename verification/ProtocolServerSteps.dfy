/** Every step of the server keeps the invariant, program point by program point. */
module ProtocolServerSteps {
  import opened Board
  import opened Shots
  import opened Verdicts
  import opened Placement
  import opened Protocol
  import opened ProtocolInvariant
  import opened ProtocolSteps

  /** Leaving the fresh part of a round only forgets. */
  lemma Settle(c: Config, e: int, early: bool, later: bool, b: Board, p: Peer, k: int)
    requires Shape(b) && Sized(b) && 0 <= k && c.size <= MAX_BOARD_SIZE
    requires PeerInv(c, e, early, b, p, k) && (later ==> early)
    ensures PeerInv(c, e, later, b, p, k)
  {
  }

  /** The server moves from v to w, and only its current client is touched. */
  ghost predicate Moves(c: Config, v: Server, w: Server) {
    && w.board == v.board && v.i < c.n
    && (FreshPhase(w.phase) ==> FreshPhase(v.phase)) && (Collecting(w.phase) ==> Collecting(v.phase))
    && (forall k | 0 <= k < c.n && k != v.i :: Stage(w, k) == Stage(v, k))
  }

  lemma OneMoved(c: Config, v: Server, peers: seq<Peer>, w: Server, q: Peer)
    requires Shape(v.board) && Sized(v.board) && c.size <= MAX_BOARD_SIZE
    requires PeersInv(c, v, peers) && Moves(c, v, w)
    requires PeerInv(c, Stage(w, v.i), FreshPhase(v.phase), v.board, q, v.i)
    requires Collecting(w.phase) ==> q.etat == peers[v.i].etat && q.sent == peers[v.i].sent
    ensures PeersInv(c, w, peers[v.i := q])
  {
    var after := peers[v.i := q];
    forall k | 0 <= k < c.n
      ensures PeerInv(c, Stage(w, k), FreshPhase(w.phase), w.board, after[k], k)
    {
      Settle(c, Stage(w, k), FreshPhase(v.phase), FreshPhase(w.phase), v.board, after[k], k);
    }
  }

  lemma LoopMoves(s: State, again: Phase, after: Phase)
    requires s.server.i < s.c.n
    requires var e := PhaseEvent(s.server.phase);
      && PhaseEvent(again) == LoopStart(e) && LoopEnd(e) == e + 1
      && LoopStart(PhaseEvent(after)) == e + 1 == PhaseEvent(after)
    ensures var w := Loop(s, again, after).server;
      && w.board == s.server.board && w.i < s.c.n
      && Stage(w, s.server.i) == PhaseEvent(s.server.phase) + 1
      && forall k | 0 <= k < s.c.n && k != s.server.i :: Stage(w, k) == Stage(s.server, k)
  {
  }

  lemma ServerMoved(c: Config, v: Server, w: Server)
    requires ServerInv(c, v) && w.board == v.board && w.recu == v.recu && w.plateau == v.plateau
    requires w.i < c.n && ShipsIn(w, c.n) == ShipsIn(v, c.n) && (Collecting(w.phase) ==> Collecting(v.phase))
    requires w.phase == SendView || w.phase == RecvViewAck ==> v.phase == SendView || v.phase == RecvViewAck
    requires w.phase == Done ==> w.i == 0 && Decided(v.board)
    ensures ServerInv(c, w)
  {
  }

  lemma Rebuild(c: Config, w: Server, peers: seq<Peer>)
    requires ServerInv(c, w) && PeersInv(c, w, peers) && StoredRequest(State(c, w, peers))
    ensures Inv(State(c, w, peers))
  {
  }

  lemma SameStages(v: Server, w: Server)
    requires v.phase == w.phase && v.i == w.i
    ensures forall k :: Stage(w, k) == Stage(v, k)
  {
  }

  lemma LoopAlong(s: State, again: Phase, after: Phase, w: Server)
    requires s.server.i < s.c.n
    requires var e := PhaseEvent(s.server.phase);
      && PhaseEvent(again) == LoopStart(e) && LoopEnd(e) == e + 1
      && LoopStart(PhaseEvent(after)) == e + 1 == PhaseEvent(after)
    requires w.phase == Loop(s, again, after).server.phase && w.i == Loop(s, again, after).server.i
    ensures w.i < s.c.n && Stage(w, s.server.i) == PhaseEvent(s.server.phase) + 1
    ensures forall k | 0 <= k < s.c.n && k != s.server.i :: Stage(w, k) == Stage(s.server, k)
  {
    LoopMoves(s, again, after);
    SameStages(Loop(s, again, after).server, w);
  }

  /** Reads of acknowledgements: events 1, 6 and 8. */
  lemma AckRead(s: State, w: Server)
    requires Inv(s) && ServerEnabled(s)
    requires var e := PhaseEvent(s.server.phase); (e == 1 || e == 6 || e == 8) && Stage(w, s.server.i) == e + 1
    requires ServerInv(s.c, w) && Moves(s.c, s.server, w) && w.phase != AckBoat && w.phase != AckShot
    ensures Inv(State(s.c, w, s.peers[s.server.i := Took(s.peers[s.server.i])]))
  {
    var v, i := s.server, s.server.i;
    TakeKeeps(s.c, Stage(v, i), FreshPhase(v.phase), v.board, s.peers[i], i);
    OneMoved(s.c, v, s.peers, w, Took(s.peers[i]));
    Rebuild(s.c, w, s.peers[i := Took(s.peers[i])]);
  }

  lemma InfosAckRead(s: State)
    requires Inv(s) && ServerEnabled(s) && s.server.phase == RecvInfosAck
    ensures Inv(ServerNext(s))
  {
    var w := ServerNext(s).server;
    LoopAlong(s, SendInfos, SendBoatReq, w);
    ServerMoved(s.c, s.server, w);
    AckRead(s, w);
  }

  lemma ViewAckRead(s: State)
    requires Inv(s) && ServerEnabled(s) && s.server.phase == RecvViewAck
    ensures Inv(ServerNext(s))
  {
    var w := ServerNext(s).server;
    LoopAlong(s, SendView, SendGo, w);
    ServerMoved(s.c, s.server, w);
    AckRead(s, w);
  }

  lemma GoAckRead(s: State)
    requires Inv(s) && ServerEnabled(s) && s.server.phase == RecvGoAck
    ensures Inv(ServerNext(s))
  {
    var w := ServerNext(s).server;
    LoopAlong(s, SendGo, RecvShot, w);
    ServerMoved(s.c, s.server, w);
    AckRead(s, w);
  }

  /** Sends that leave the board alone: events 0, 2, 5 and 7. */
  lemma Tells(s: State, w: Server, m: Msg)
    requires Inv(s) && ServerEnabled(s)
    requires Due(s.c, PhaseEvent(s.server.phase), ViewString(s.c, s.server.board), m)
    requires Stage(w, s.server.i) == PhaseEvent(s.server.phase) + 1
    requires ServerInv(s.c, w) && Moves(s.c, s.server, w) && w.phase != AckBoat && w.phase != AckShot
    ensures Inv(State(s.c, w, s.peers[s.server.i := Told(s.peers[s.server.i], m)]))
  {
    var v, i := s.server, s.server.i;
    TellKeeps(s.c, Stage(v, i), FreshPhase(v.phase), v.board, s.peers[i], i, m);
    OneMoved(s.c, v, s.peers, w, Told(s.peers[i], m));
    Rebuild(s.c, w, s.peers[i := Told(s.peers[i], m)]);
  }

  lemma InfosTold(s: State)
    requires Inv(s) && ServerEnabled(s) && s.server.phase == SendInfos
    ensures Inv(ServerNext(s))
  {
    var w := s.server.(phase := RecvInfosAck);
    ServerMoved(s.c, s.server, w);
    Tells(s, w, Msg(4, Parameters(s.c)));
  }

  lemma BoatReqTold(s: State)
    requires Inv(s) && ServerEnabled(s) && s.server.phase == SendBoatReq
    ensures Inv(ServerNext(s))
  {
    var w := Loop(s, SendBoatReq, PollBoat).server;
    LoopMoves(s, SendBoatReq, PollBoat);
    ServerMoved(s.c, s.server, w);
    Tells(s, w, Msg(3, Blank));
  }

  lemma ViewTold(s: State)
    requires Inv(s) && ServerEnabled(s) && s.server.phase == SendView
    ensures Inv(ServerNext(s))
  {
    var w := s.server.(phase := RecvViewAck);
    ServerMoved(s.c, s.server, w);
    Tells(s, w, Msg(2, Digits(s.server.plateau)));
  }

  lemma GoTold(s: State)
    requires Inv(s) && ServerEnabled(s) && s.server.phase == SendGo
    ensures Inv(ServerNext(s))
  {
    var w := s.server.(phase := RecvGoAck);
    ServerMoved(s.c, s.server, w);
    Tells(s, w, Msg(5, Blank));
  }

  lemma SamePlayerMoves(c: Config, v: Server, w: Server)
    requires v.i < c.n && w.i == v.i && w.board == v.board && PhaseEvent(w.phase) == PhaseEvent(v.phase) + 1
    requires LoopStart(PhaseEvent(v.phase)) == LoopStart(PhaseEvent(w.phase))
    ensures Moves(c, v, w) && Stage(w, v.i) == Stage(v, v.i) + 1
  {
  }

  /** Reads of a ship or a shot: events 3 and 9. */
  lemma ShipRead(s: State)
    requires Inv(s) && ServerEnabled(s) && s.server.phase == PollBoat
    ensures Inv(ServerNext(s))
  {
    var v, i := s.server, s.server.i;
    var w, q := ServerNext(s).server, Took(s.peers[i]);
    SamePlayerMoves(s.c, v, w);
    TakeKeeps(s.c, 3, false, v.board, s.peers[i], i);
    OneMoved(s.c, v, s.peers, w, q);
    ServerMoved(s.c, v, w);
    Rebuild(s.c, w, s.peers[i := q]);
  }

  lemma ShotRead(s: State)
    requires Inv(s) && ServerEnabled(s) && s.server.phase == RecvShot
    ensures Inv(ServerNext(s))
  {
    var v, i := s.server, s.server.i;
    var w, q := ServerNext(s).server, Took(s.peers[i]);
    SamePlayerMoves(s.c, v, w);
    TakeKeeps(s.c, 9, false, v.board, s.peers[i], i);
    OneMoved(s.c, v, s.peers, w, q);
    ServerMoved(s.c, v, w);
    Rebuild(s.c, w, s.peers[i := q]);
  }

  // ----- a shot lands -----

  /** A board after a shot, or the same board: no ship moves and no sunk ship rises. */
  ghost predicate Worn(b: Board, r: Board)
    requires Shape(b) && Sized(b) && Shape(r)
  {
    && Sized(r) && r.nbBateau == b.nbBateau
    && (forall i: nat | i < b.nbBateau :: Sunk(b, i) ==> Sunk(r, i))
    && (forall i: nat | i < b.nbBateau :: SameCells(b.bateaux[i], r.bateaux[i]))
  }

  lemma WornKeeps(c: Config, e: int, b: Board, r: Board, p: Peer, k: int)
    requires Shape(b) && Sized(b) && Shape(r) && Worn(b, r) && 0 <= k && c.size <= MAX_BOARD_SIZE
    requires PeerInv(c, e, false, b, p, k) && 9 <= e <= 11
    ensures PeerInv(c, e, false, r, p, k)
  {
    assert SetupData(c, e, r, p, k);
    Assemble(c, e, false, r, p, k);
  }

  lemma AckShotSends(c: Config, b: Board, p: Peer, k: int)
    requires Shape(b) && Sized(b) && 0 <= k && c.size <= MAX_BOARD_SIZE
    requires PeerInv(c, 10, false, b, p, k)
    ensures PeerInv(c, 11, false, b, Told(p, Msg(0, Blank)), k)
  {
    var q, afloat, verdict := Told(p, Msg(0, Blank)), Afloat(b, k), VerdictId(b, k);
    assert SetupData(c, 11, b, q, k);
    assert LifeData(11, false, afloat, verdict, q);
    SameHistory(10, afloat, verdict, p, q);
    Assemble(c, 11, false, b, q, k);
  }

  /** recevoir_tir leaves a board that agrees, with every sunk ship still sunk; a "mort" leaves the
      very same board. */
  lemma ShotLands(s: State)
    requires Inv(s) && s.server.phase == AckShot
    ensures var r := TakeShot(s).server.board;
      Shape(r) && Worn(s.server.board, r) && Agree(r, s.c.size)
    ensures s.peers[s.server.i].etat != EnJeu ==> TakeShot(s).server.board == s.server.board
  {
    var m := s.server.reponse;
    if m.body.Coup? { ShotKeeps(s.server.board, s.c.size, m.body.p); }
  }

  lemma ShotTakenState(s: State)
    requires ServerEnabled(s) && s.server.phase == AckShot
    ensures ServerNext(s) == State(s.c, Loop(s, RecvShot, SendStatus).server.(board := TakeShot(s).server.board),
                                   s.peers[s.server.i := Told(s.peers[s.server.i], Msg(0, Blank))])
  {
  }

  lemma ShotPeers(s: State, w: Server)
    requires Inv(s) && ServerEnabled(s) && s.server.phase == AckShot && Moves(s.c, s.server, w)
    requires Stage(w, s.server.i) == 11
    ensures PeersInv(s.c, w, s.peers[s.server.i := Told(s.peers[s.server.i], Msg(0, Blank))])
  {
    var i := s.server.i;
    AckShotSends(s.c, s.server.board, s.peers[i], i);
    OneMoved(s.c, s.server, s.peers, w, Told(s.peers[i], Msg(0, Blank)));
  }

  lemma ShotTaken(s: State)
    requires Inv(s) && ServerEnabled(s) && s.server.phase == AckShot
    ensures Inv(ServerNext(s))
  {
    var r, w := TakeShot(s).server.board, Loop(s, RecvShot, SendStatus).server;
    ShotLands(s);
    ShotMoves(s);
    ShotAnswered(s, w, r);
    ShotTakenState(s);
  }

  lemma ShotMoves(s: State)
    requires s.server.phase == AckShot && s.server.i < s.c.n
    ensures var w := Loop(s, RecvShot, SendStatus).server;
      && Moves(s.c, s.server, w) && Stage(w, s.server.i) == 11 && w.recu == s.server.recu && w.i < s.c.n
      && (w.phase == RecvShot || (w.phase == SendStatus && w.i == 0))
  {
    LoopMoves(s, RecvShot, SendStatus);
  }

  /** The board is r, the client is answered, and the server has moved on to w. */
  lemma ShotAnswered(s: State, w: Server, r: Board)
    requires Inv(s) && ServerEnabled(s) && s.server.phase == AckShot && Moves(s.c, s.server, w)
    requires Stage(w, s.server.i) == 11 && w.recu == s.server.recu && w.i < s.c.n
    requires w.phase == RecvShot || (w.phase == SendStatus && w.i == 0)
    requires Shape(r) && Worn(s.server.board, r) && Agree(r, s.c.size)
    ensures Inv(State(s.c, w.(board := r), s.peers[s.server.i := Told(s.peers[s.server.i], Msg(0, Blank))]))
  {
    var after := s.peers[s.server.i := Told(s.peers[s.server.i], Msg(0, Blank))];
    ShotPeers(s, w);
    AllWorn(s.c, w, r, after);
    ShotServer(s.c, s.server, w, r);
    Rebuild(s.c, w.(board := r), after);
  }

  lemma ShotServer(c: Config, v: Server, w: Server, r: Board)
    requires ServerInv(c, v) && v.phase == AckShot && Shape(r) && Worn(v.board, r) && Agree(r, c.size)
    requires (w.phase == RecvShot || w.phase == SendStatus) && w.i < c.n && w.recu == v.recu
    ensures ServerInv(c, w.(board := r))
  {
  }

  lemma AllWorn(c: Config, w: Server, r: Board, peers: seq<Peer>)
    requires Shape(w.board) && Sized(w.board) && c.size <= MAX_BOARD_SIZE
    requires PeersInv(c, w, peers) && (w.phase == RecvShot || (w.phase == SendStatus && w.i == 0))
    requires Shape(r) && Worn(w.board, r)
    ensures PeersInv(c, w.(board := r), peers)
  {
    var z := w.(board := r);
    forall k | 0 <= k < c.n
      ensures PeerInv(c, Stage(z, k), FreshPhase(z.phase), r, peers[k], k)
    {
      assert Stage(z, k) == Stage(w, k);
      WornKeeps(c, Stage(w, k), w.board, r, peers[k], k);
    }
  }

  // ----- the verdict -----

  ghost function Judged(p: Peer, id: int): Peer {
    p.(down := p.down + [Msg(id, Blank)], sent := p.sent + [id])
  }

  lemma JudgeKeeps(c: Config, b: Board, p: Peer, k: int)
    requires Shape(b) && Sized(b) && 0 <= k < b.nbBateau && c.size <= MAX_BOARD_SIZE
    requires PeerInv(c, 11, false, b, p, k)
    ensures PeerInv(c, 12, false, b, Judged(p, VerdictId(b, k)), k)
  {
    var afloat, verdict := Afloat(b, k), VerdictId(b, k);
    var q := Judged(p, verdict);
    VerdictSound(b, k);
    JudgedHistory(afloat, verdict, p);
    assert Linked(12, q);
    assert SetupData(c, 12, b, q, k);
    assert LifeData(12, false, afloat, verdict, q);
    Assemble(c, 12, false, b, q, k);
  }

  lemma JudgedHistory(afloat: bool, verdict: int, p: Peer)
    requires HistoryData(11, afloat, verdict, p) && Sound(afloat, verdict)
    ensures HistoryData(12, afloat, verdict, Judged(p, verdict))
  {
    var q := Judged(p, verdict);
    forall a, z | 0 <= a < z < |q.sent| && q.sent[a] == 8 ensures q.sent[z] == 8 || q.sent[z] == 9 {
      if z == |p.sent| { assert 8 in p.sent; }
    }
    assert 8 in q.sent ==> 8 in p.sent || verdict == 8;
  }

  lemma VerdictSent(s: State)
    requires Inv(s) && ServerEnabled(s) && s.server.phase == SendStatus
    ensures Inv(ServerNext(s))
  {
    var v, i := s.server, s.server.i;
    var w, q := v.(phase := RecvStatusAck), Judged(s.peers[i], VerdictId(v.board, i));
    SamePlayerMoves(s.c, v, w);
    JudgeKeeps(s.c, v.board, s.peers[i], i);
    OneMoved(s.c, v, s.peers, w, q);
    ServerMoved(s.c, v, w);
    Rebuild(s.c, w, s.peers[i := q]);
    VerdictSentState(s);
  }

  lemma VerdictSentState(s: State)
    requires ServerEnabled(s) && s.server.phase == SendStatus
    ensures ServerNext(s) == State(s.c, s.server.(phase := RecvStatusAck),
              s.peers[s.server.i := Judged(s.peers[s.server.i], VerdictId(s.server.board, s.server.i))])
  {
  }

  // ----- the end of a round -----

  /** A round ends undecided: the client is ready for the next, alive exactly if its ship floats. */
  lemma NextRound(c: Config, b: Board, p: Peer, k: int)
    requires Shape(b) && Sized(b) && 0 <= k < b.nbBateau && c.size <= MAX_BOARD_SIZE
    requires PeerInv(c, 13, false, b, p, k) && !Decided(b)
    ensures PeerInv(c, 5, true, b, p, k)
  {
    VerdictMeaning(b, k);
    VerdictSound(b, k);
    assert LifeData(5, true, Afloat(b, k), VerdictId(b, k), p);
    assert HistoryData(5, Afloat(b, k), VerdictId(b, k), p);
    Assemble(c, 5, true, b, p, k);
  }

  lemma RoundRestarts(c: Config, w: Server, v: Server, peers: seq<Peer>)
    requires ConfigOk(c) && Shape(w.board) && Sized(w.board) && w.board.nbBateau == c.n && !Decided(w.board)
    requires PeersInv(c, w, peers) && w.phase == Done
    requires v.board == w.board && v.phase == SendView && v.i == 0
    ensures PeersInv(c, v, peers)
  {
    forall k | 0 <= k < c.n
      ensures PeerInv(c, Stage(v, k), true, v.board, peers[k], k)
    {
      assert Stage(w, k) == 13 && Stage(v, k) == 5;
      NextRound(c, w.board, peers[k], k);
    }
  }

  /** Verdicts remain to be sent, or the game is decided. */
  lemma StatusAckStep(s: State, w: Server)
    requires Inv(s) && ServerEnabled(s) && s.server.phase == RecvStatusAck
    requires ServerInv(s.c, w) && Moves(s.c, s.server, w) && Stage(w, s.server.i) == 13
    requires w.phase == SendStatus || w.phase == Done
    ensures Inv(State(s.c, w, s.peers[s.server.i := Took(s.peers[s.server.i])]))
  {
    var v, i := s.server, s.server.i;
    TakeKeeps(s.c, 12, false, v.board, s.peers[i], i);
    OneMoved(s.c, v, s.peers, w, Took(s.peers[i]));
    Rebuild(s.c, w, s.peers[i := Took(s.peers[i])]);
  }

  lemma LastVerdictMoves(c: Config, v: Server, w: Server)
    requires v.phase == RecvStatusAck && v.i + 1 == c.n && w.phase == Done && w.i == 0 && w.board == v.board
    ensures Moves(c, v, w) && Stage(w, v.i) == 13
  {
  }

  lemma NextVerdictMoves(c: Config, v: Server, w: Server)
    requires v.phase == RecvStatusAck && v.i + 1 < c.n && w.phase == SendStatus && w.i == v.i + 1 && w.board == v.board
    ensures Moves(c, v, w) && Stage(w, v.i) == 13
  {
  }

  lemma RoundEndPeers(s: State, w: Server)
    requires Inv(s) && ServerEnabled(s) && s.server.phase == RecvStatusAck && s.server.i + 1 == s.c.n
    requires w == s.server.(phase := Done, i := 0)
    ensures PeersInv(s.c, w, s.peers[s.server.i := Took(s.peers[s.server.i])])
  {
    var v, i := s.server, s.server.i;
    LastVerdictMoves(s.c, v, w);
    TakeKeeps(s.c, 12, false, v.board, s.peers[i], i);
    OneMoved(s.c, v, s.peers, w, Took(s.peers[i]));
  }

  lemma RoundStarts(s: State, m: Msg)
    requires Inv(s) && ServerEnabled(s) && s.server.phase == RecvStatusAck && s.server.i + 1 == s.c.n
    requires !GameOver(s.server.board)
    ensures Inv(State(s.c,
      s.server.(phase := SendView, i := 0, reponse := m, plateau := BoardString(s.server.board, s.c.size)),
      s.peers[s.server.i := Took(s.peers[s.server.i])]))
  {
    var v, after := s.server, s.peers[s.server.i := Took(s.peers[s.server.i])];
    var w := v.(phase := SendView, i := 0, reponse := m, plateau := BoardString(v.board, s.c.size));
    RoundEndPeers(s, v.(phase := Done, i := 0));
    RoundRestarts(s.c, v.(phase := Done, i := 0), w, after);
    RestartedServer(s.c, v, w);
    Rebuild(s.c, w, after);
  }

  lemma RestartedServer(c: Config, v: Server, w: Server)
    requires ServerInv(c, v) && v.phase == RecvStatusAck && w.board == v.board && w.recu == v.recu
    requires w.phase == SendView && w.i == 0 && w.plateau == BoardString(v.board, c.size)
    ensures ServerInv(c, w)
  {
  }

  lemma NextVerdict(s: State, m: Msg)
    requires Inv(s) && ServerEnabled(s) && s.server.phase == RecvStatusAck && s.server.i + 1 < s.c.n
    ensures Inv(State(s.c, s.server.(phase := SendStatus, i := s.server.i + 1, reponse := m),
                      s.peers[s.server.i := Took(s.peers[s.server.i])]))
  {
    var w := s.server.(phase := SendStatus, i := s.server.i + 1, reponse := m);
    NextVerdictMoves(s.c, s.server, w);
    ServerMoved(s.c, s.server, w);
    StatusAckStep(s, w);
  }

  lemma GameEnds(s: State, m: Msg)
    requires Inv(s) && ServerEnabled(s) && s.server.phase == RecvStatusAck && s.server.i + 1 == s.c.n
    requires GameOver(s.server.board)
    ensures Inv(State(s.c, s.server.(phase := Done, i := 0, reponse := m),
                      s.peers[s.server.i := Took(s.peers[s.server.i])]))
  {
    var w := s.server.(phase := Done, i := 0, reponse := m);
    LastVerdictMoves(s.c, s.server, w);
    ServerMoved(s.c, s.server, w);
    StatusAckStep(s, w);
  }

  lemma StatusAckRead(s: State)
    requires Inv(s) && ServerEnabled(s) && s.server.phase == RecvStatusAck
    ensures Inv(ServerNext(s))
  {
    var m := s.peers[s.server.i].up[0];
    StatusAckReadState(s);
    if s.server.i + 1 < s.c.n { NextVerdict(s, m); }
    else if GameOver(s.server.board) { GameEnds(s, m); }
    else { RoundStarts(s, m); }
  }

  lemma StatusAckReadState(s: State)
    requires ServerEnabled(s) && s.server.phase == RecvStatusAck
    ensures var i, m := s.server.i, s.peers[s.server.i].up[0];
      ServerNext(s) == State(s.c,
        if i + 1 < s.c.n then s.server.(phase := SendStatus, i := i + 1, reponse := m)
        else if GameOver(s.server.board) then s.server.(phase := Done, i := 0, reponse := m)
        else s.server.(phase := SendView, i := 0, reponse := m, plateau := BoardString(s.server.board, s.c.size)),
        s.peers[i := Took(s.peers[i])])
  {
  }

  // ----- a ship is placed -----

  /** Placing ship i leaves the ships before it as they were and records the one announced. */
  lemma ShipRecorded(c: Config, b: Board, i: nat, a: Anchor)
    requires ConfigOk(c) && Agree(b, c.size) && NoShotsYet(b) && b.nbBateau == i < c.n
    requires Conforming(a, c.size, c.taille)
    ensures CanPlace(b, i, c.taille, a.x, a.y, a.direction)
    ensures var r := Placed(b, i, c.taille, a.x, a.y, a.direction);
      && Agree(r, c.size) && NoShotsYet(r) && r.nbBateau == i + 1
      && ShipOf(c, r, i, a)
      && (forall k | 0 <= k < i :: r.bateaux[k] == b.bateaux[k])
  {
    PlacementAgrees(b, c.size, c.taille, a.x, a.y, a.direction);
    PlaceCellsClosed(b, i, c.taille, a.x, a.y, a.direction, c.taille);
  }

  /** With no shot fired every ship is afloat. */
  lemma UnshotAfloat(c: Config, b: Board, k: nat, a: Anchor)
    requires ConfigOk(c) && Agree(b, c.size) && NoShotsYet(b) && ShipOf(c, b, k, a)
    ensures Afloat(b, k)
  {
    assert CellAgrees(b, c.size, b.bateaux[k].cell[0]);
  }

  lemma AckBoatSends(c: Config, b: Board, r: Board, p: Peer, k: int)
    requires Shape(b) && Sized(b) && Shape(r) && Sized(r) && 0 <= k && c.size <= MAX_BOARD_SIZE
    requires PeerInv(c, 4, false, b, p, k) && ShipOf(c, r, k, p.boat)
    ensures PeerInv(c, 5, false, r, Told(p, Msg(0, Blank)), k)
  {
    var q, afloat, verdict := Told(p, Msg(0, Blank)), Afloat(r, k), VerdictId(r, k);
    assert SetupData(c, 5, r, q, k);
    assert LifeData(5, false, afloat, verdict, q);
    assert HistoryData(5, afloat, verdict, q);
    Assemble(c, 5, false, r, q, k);
  }

  /** The others: those already in keep their ship, those still to come have none. */
  lemma BystanderKeeps(c: Config, e: int, b: Board, r: Board, p: Peer, k: int)
    requires Shape(b) && Sized(b) && Shape(r) && Sized(r) && 0 <= k && c.size <= MAX_BOARD_SIZE
    requires PeerInv(c, e, false, b, p, k) && Unjudged(p) && (e == 3 || (e == 5 && ShipOf(c, r, k, p.boat)))
    ensures PeerInv(c, e, false, r, p, k)
  {
    assert SetupData(c, e, r, p, k);
    assert LifeData(e, false, Afloat(r, k), VerdictId(r, k), p);
    assert HistoryData(e, Afloat(r, k), VerdictId(r, k), p);
    Assemble(c, e, false, r, p, k);
  }

  /** All ships are in: the first round starts with everyone alive. */
  lemma FirstRound(c: Config, r: Board, p: Peer, k: int)
    requires Shape(r) && Sized(r) && 0 <= k && c.size <= MAX_BOARD_SIZE
    requires PeerInv(c, 5, false, r, p, k) && Unjudged(p) && Afloat(r, k)
    ensures PeerInv(c, 5, true, r, p, k)
  {
  }

  lemma ShipTakenState(s: State)
    requires ServerEnabled(s) && s.server.phase == AckBoat && s.server.reponse.id == 3
    ensures ServerNext(s).c == s.c
    ensures ServerNext(s).peers == s.peers[s.server.i := Told(s.peers[s.server.i], Msg(0, Blank))]
    ensures var b := TakeShip(s).server.board;
      ServerNext(s).server ==
        if s.server.recu + 1 == s.c.n
        then s.server.(board := b, recu := s.c.n, phase := SendView, i := 0, plateau := BoardString(b, s.c.size))
        else s.server.(board := b, recu := s.server.recu + 1, phase := PollBoat,
                       i := if s.server.i == s.c.n + 1 then 0 else s.server.i + 1)
  {
  }

  lemma ShipTakenBoard(s: State, a: Anchor)
    requires s.server.reponse == Msg(3, ShipAt(a))
    requires CanPlace(s.server.board, s.server.i, s.c.taille, a.x, a.y, a.direction)
    ensures TakeShip(s).server.board == Placed(s.server.board, s.server.i, s.c.taille, a.x, a.y, a.direction)
  {
  }

  lemma ShipServer(c: Config, v: Server, w: Server)
    requires ServerInv(c, v) && v.phase == AckBoat
    requires Agree(w.board, c.size) && NoShotsYet(w.board) && w.board.nbBateau == v.i + 1 && w.recu == v.i + 1
    requires if v.i + 1 == c.n then w.phase == SendView && w.i == 0 && w.plateau == BoardString(w.board, c.size)
             else w.phase == PollBoat && w.i == v.i + 1
    ensures ServerInv(c, w)
  {
  }

  lemma ShipTaken(s: State)
    requires Inv(s) && ServerEnabled(s) && s.server.phase == AckBoat
    ensures Inv(ServerNext(s))
  {
    var v, i, p := s.server, s.server.i, s.peers[s.server.i];
    assert PeerInv(s.c, 4, false, v.board, p, i);
    ShipRecorded(s.c, v.board, i, p.boat);
    ShipTakenBoard(s, p.boat);
    ShipTakenState(s);
    AckBoatSends(s.c, v.board, TakeShip(s).server.board, p, i);
    ShipTakenAfter(s, ServerNext(s));
  }

  lemma ShipTakenAfter(s: State, t: State)
    requires Inv(s) && ServerEnabled(s) && s.server.phase == AckBoat
    requires Agree(t.server.board, s.c.size) && NoShotsYet(t.server.board) && t.server.board.nbBateau == s.server.i + 1
    requires forall k | 0 <= k < s.server.i :: t.server.board.bateaux[k] == s.server.board.bateaux[k]
    requires t.c == s.c && t.peers == s.peers[s.server.i := Told(s.peers[s.server.i], Msg(0, Blank))]
    requires PeerInv(s.c, 5, false, t.server.board, t.peers[s.server.i], s.server.i)
    requires t.server.recu == s.server.i + 1
    requires if s.server.i + 1 == s.c.n
             then t.server.phase == SendView && t.server.i == 0
               && t.server.plateau == BoardString(t.server.board, s.c.size)
             else t.server.phase == PollBoat && t.server.i == s.server.i + 1
    ensures Inv(t)
  {
    ShipPeers(s.c, s.server, s.peers, t.server, t.peers);
    ShipServer(s.c, s.server, t.server);
  }

  lemma ShipPeers(c: Config, v: Server, peers: seq<Peer>, w: Server, after: seq<Peer>)
    requires ServerInv(c, v) && PeersInv(c, v, peers) && v.phase == AckBoat
    requires Agree(w.board, c.size) && NoShotsYet(w.board) && w.board.nbBateau == v.i + 1
    requires forall k | 0 <= k < v.i :: w.board.bateaux[k] == v.board.bateaux[k]
    requires after == peers[v.i := Told(peers[v.i], Msg(0, Blank))]
    requires PeerInv(c, 5, false, w.board, after[v.i], v.i)
    requires if v.i + 1 == c.n then w.phase == SendView && w.i == 0 else w.phase == PollBoat && w.i == v.i + 1
    ensures PeersInv(c, w, after)
  {
    forall k | 0 <= k < c.n ensures Unjudged(after[k]) { assert Unjudged(peers[k]); }
    forall k | 0 <= k < c.n
      ensures PeerInv(c, Stage(w, k), FreshPhase(w.phase), w.board, after[k], k)
    {
      var e := if k <= v.i then 5 else 3;
      assert Stage(w, k) == e;
      if k != v.i { OtherShips(c, v, peers, w, k); }
      if v.i + 1 == c.n { FirstRoundOf(c, w.board, after[k], k); }
    }
  }

  lemma OtherShips(c: Config, v: Server, peers: seq<Peer>, w: Server, k: int)
    requires ServerInv(c, v) && PeersInv(c, v, peers) && v.phase == AckBoat && 0 <= k < c.n && k != v.i
    requires Agree(w.board, c.size) && w.board.nbBateau == v.i + 1
    requires forall m | 0 <= m < v.i :: w.board.bateaux[m] == v.board.bateaux[m]
    ensures PeerInv(c, if k <= v.i then 5 else 3, false, w.board, peers[k], k)
  {
    var e := if k <= v.i then 5 else 3;
    assert Stage(v, k) == e && PeerInv(c, e, false, v.board, peers[k], k);
    BystanderKeeps(c, e, v.board, w.board, peers[k], k);
  }

  lemma FirstRoundOf(c: Config, b: Board, p: Peer, k: int)
    requires ConfigOk(c) && Agree(b, c.size) && NoShotsYet(b) && 0 <= k < b.nbBateau && c.size <= MAX_BOARD_SIZE
    requires PeerInv(c, 5, false, b, p, k) && Unjudged(p)
    ensures PeerInv(c, 5, true, b, p, k)
  {
    UnshotAfloat(c, b, k, p.boat);
    FirstRound(c, b, p, k);
  }

  // ----- all together -----

  lemma ServerStepKeeps(s: State)
    requires Inv(s) && ServerEnabled(s)
    ensures Inv(ServerNext(s))
  {
    match s.server.phase
    case SendInfos => InfosTold(s);
    case RecvInfosAck => InfosAckRead(s);
    case SendBoatReq => BoatReqTold(s);
    case PollBoat => ShipRead(s);
    case AckBoat => ShipTaken(s);
    case SendView => ViewTold(s);
    case RecvViewAck => ViewAckRead(s);
    case SendGo => GoTold(s);
    case RecvGoAck => GoAckRead(s);
    case RecvShot => ShotRead(s);
    case AckShot => ShotTaken(s);
    case SendStatus => VerdictSent(s);
    case RecvStatusAck => StatusAckRead(s);
  }

  lemma StepKeeps(s: State, a: Action)
    requires Inv(s)
    ensures Inv(Next(s, a))
  {
    if Enabled(s, a) {
      match a
      case ServerStep => ServerStepKeeps(s);
      case ClientStep(k, ship, shot) => ClientStepKeeps(s, k, ship, shot);
    }
  }

  /** Whatever the schedule, the ships chosen and the cells aimed at. */
  lemma {:induction false} RunKeeps(s: State, schedule: seq<Action>)
    requires Inv(s)
    ensures Inv(Run(s, schedule))
  {
    if schedule != [] {
      RunKeeps(s, schedule[..|schedule| - 1]);
      StepKeeps(Run(s, schedule[..|schedule| - 1]), schedule[|schedule| - 1]);
    }
  }
}
