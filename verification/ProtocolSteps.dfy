/** Every step of the server and of a client keeps the invariant. */
module ProtocolSteps {
  import opened Board
  import opened Verdicts
  import opened Placement
  import opened Protocol
  import opened ProtocolInvariant

  // ----- a client step -----

  lemma ClientSetup(c: Config, e: int, b: Board, p: Peer, k: int, ship: Anchor, shot: Point)
    requires Shape(b) && Sized(b) && 0 <= k && Linked(e, p) && SetupData(c, e, b, p, k) && PeerEnabled(p, ship)
    ensures SetupData(c, e, b, PeerNext(p, ship, shot), k)
  {
  }

  lemma ClientLinked(e: int, early: bool, afloat: bool, verdict: int, p: Peer, ship: Anchor, shot: Point)
    requires Linked(e, p) && LifeData(e, early, afloat, verdict, p) && PeerEnabled(p, ship)
    ensures Linked(e, PeerNext(p, ship, shot))
  {
  }

  lemma ClientView(e: int, early: bool, view: string, p: Peer, ship: Anchor, shot: Point)
    requires Linked(e, p) && ViewData(e, early, view, p) && PeerEnabled(p, ship)
    ensures ViewData(e, early, view, PeerNext(p, ship, shot))
  {
  }

  /** How the life of the ship limits the verdict. */
  ghost predicate Sound(afloat: bool, verdict: int) {
    if afloat then verdict == 7 || verdict == 10 else verdict == 8 || verdict == 9
  }

  lemma VerdictSound(b: Board, k: nat)
    requires Shape(b) && Sized(b) && k < b.nbBateau
    ensures Sound(Afloat(b, k), VerdictId(b, k))
  {
    VerdictMeaning(b, k);
    if Afloat(b, k) && VerdictId(b, k) == 10 { assert SoleSurvivor(b, k); }
  }

  lemma ClientLife(e: int, early: bool, afloat: bool, verdict: int, p: Peer, ship: Anchor, shot: Point)
    requires Linked(e, p) && LifeData(e, early, afloat, verdict, p) && PeerEnabled(p, ship)
    requires e >= 5 && Sound(afloat, verdict)
    ensures LifeData(e, early, afloat, verdict, PeerNext(p, ship, shot))
  {
  }

  lemma ClientKeeps(c: Config, e: int, early: bool, b: Board, p: Peer, k: int, ship: Anchor, shot: Point)
    requires Shape(b) && Sized(b) && 0 <= k && c.size <= MAX_BOARD_SIZE
    requires PeerInv(c, e, early, b, p, k) && PeerEnabled(p, ship)
    ensures PeerInv(c, e, early, b, PeerNext(p, ship, shot), k)
  {
    var afloat, verdict, q := Afloat(b, k), VerdictId(b, k), PeerNext(p, ship, shot);
    ClientSetup(c, e, b, p, k, ship, shot);
    ClientLinked(e, early, afloat, verdict, p, ship, shot);
    ClientView(e, early, ViewString(c, b), p, ship, shot);
    if e >= 5 {
      VerdictSound(b, k);
      ClientLife(e, early, afloat, verdict, p, ship, shot);
    }
    KeepsHistory(p, ship, shot);
    SameHistory(e, afloat, verdict, p, q);
    Assemble(c, e, early, b, q, k);
  }

  lemma KeepsHistory(p: Peer, ship: Anchor, shot: Point)
    requires PeerEnabled(p, ship)
    ensures PeerNext(p, ship, shot).sent == p.sent
  {
  }

  lemma SameHistory(e: int, afloat: bool, verdict: int, p: Peer, q: Peer)
    requires HistoryData(e, afloat, verdict, p) && q.sent == p.sent
    ensures HistoryData(e, afloat, verdict, q)
  {
  }

  lemma Assemble(c: Config, e: int, early: bool, b: Board, p: Peer, k: int)
    requires Shape(b) && Sized(b) && 0 <= k && c.size <= MAX_BOARD_SIZE
    requires Linked(e, p) && SetupData(c, e, b, p, k) && ViewData(e, early, ViewString(c, b), p)
    requires LifeData(e, early, Afloat(b, k), VerdictId(b, k), p) && HistoryData(e, Afloat(b, k), VerdictId(b, k), p)
    ensures PeerInv(c, e, early, b, p, k)
  {
  }

  lemma ClientStepKeeps(s: State, k: nat, ship: Anchor, shot: Point)
    requires Inv(s) && Enabled(s, ClientStep(k, ship, shot))
    ensures Inv(Next(s, ClientStep(k, ship, shot)))
  {
    var v, p, q := s.server, s.peers[k], PeerNext(s.peers[k], ship, shot);
    ClientKeeps(s.c, Stage(v, k), FreshPhase(v.phase), v.board, p, k, ship, shot);
    KeepsHistory(p, ship, shot);
    if Collecting(v.phase) { EarlyEtat(Stage(v, k), p, ship, shot); }
    ClientMoved(s.c, v, s.peers, k, q);
    if k == v.i { NotAtAck(Stage(v, k), p, ship); }
  }

  lemma ClientMoved(c: Config, v: Server, peers: seq<Peer>, k: nat, q: Peer)
    requires Shape(v.board) && Sized(v.board) && c.size <= MAX_BOARD_SIZE
    requires PeersInv(c, v, peers) && k < c.n && (Collecting(v.phase) ==> Unjudged(q))
    requires PeerInv(c, Stage(v, k), FreshPhase(v.phase), v.board, q, k)
    ensures PeersInv(c, v, peers[k := q])
  {
  }

  lemma EarlyEtat(e: int, p: Peer, ship: Anchor, shot: Point)
    requires e <= 5 && Linked(e, p) && PeerEnabled(p, ship) && p.etat == EnJeu
    ensures PeerNext(p, ship, shot).etat == EnJeu
  {
  }

  /** While the server holds a request of this client, the client only waits. */
  lemma NotAtAck(e: int, p: Peer, ship: Anchor)
    requires Linked(e, p) && PeerEnabled(p, ship)
    ensures e != 4 && e != 10
  {
  }

  // ----- what a server step does to the client it talks to -----

  ghost function Took(p: Peer): Peer
    requires p.up != []
  {
    p.(up := p.up[1..])
  }

  ghost function Told(p: Peer, m: Msg): Peer {
    p.(down := p.down + [m])
  }

  lemma TakeKeeps(c: Config, e: int, early: bool, b: Board, p: Peer, k: int)
    requires Shape(b) && Sized(b) && 0 <= k && c.size <= MAX_BOARD_SIZE
    requires PeerInv(c, e, early, b, p, k) && p.up != []
    requires e == 1 || e == 3 || e == 6 || e == 8 || e == 9 || e == 12
    ensures PeerInv(c, e + 1, early, b, Took(p), k)
    ensures e == 3 ==> p.up[0] == Msg(3, ShipAt(p.boat))
    ensures e == 9 ==> p.up[0].id == 6 && ShotBody(p, p.up[0].body)
  {
    var q, afloat, verdict := Took(p), Afloat(b, k), VerdictId(b, k);
    assert Linked(e + 1, q);
    assert SetupData(c, e + 1, b, q, k);
    assert ViewData(e + 1, early, ViewString(c, b), q);
    assert LifeData(e + 1, early, afloat, verdict, q);
    assert HistoryData(e + 1, afloat, verdict, q);
    Assemble(c, e + 1, early, b, q, k);
  }

  /** The messages of the events 0, 2, 5 and 7. */
  ghost predicate Due(c: Config, e: int, view: string, m: Msg) {
    match e
    case 0 => m == Msg(4, Parameters(c))
    case 2 => m == Msg(3, Blank)
    case 5 => m == Msg(2, Digits(view))
    case 7 => m == Msg(5, Blank)
    case _ => false
  }

  lemma TellKeeps(c: Config, e: int, early: bool, b: Board, p: Peer, k: int, m: Msg)
    requires Shape(b) && Sized(b) && 0 <= k && c.size <= MAX_BOARD_SIZE
    requires PeerInv(c, e, early, b, p, k) && Due(c, e, ViewString(c, b), m)
    ensures PeerInv(c, e + 1, early, b, Told(p, m), k)
  {
    var q, afloat, verdict := Told(p, m), Afloat(b, k), VerdictId(b, k);
    assert Linked(e + 1, q);
    assert SetupData(c, e + 1, b, q, k);
    assert ViewData(e + 1, early, ViewString(c, b), q);
    assert LifeData(e + 1, early, afloat, verdict, q);
    SameHistory(e, afloat, verdict, p, q);
    Assemble(c, e + 1, early, b, q, k);
  }
}
