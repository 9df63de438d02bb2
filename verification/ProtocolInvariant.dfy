/** What every reachable state of the protocol satisfies. For each client the two programs form a
    session of thirteen events; `Stage` is the number of the server's next event with client k. */
module ProtocolInvariant {
  import opened Board
  import opened Shots
  import opened Verdicts
  import opened Placement
  import opened Protocol
  import View

  //  0 S!4   1 C!0   2 S!3   3 C!3   4 S!0
  //  5 S!2   6 C!0   7 S!5   8 C!0   9 C!6   10 S!0   11 S!verdict   12 C!0   13 = end of round
  ghost function PhaseEvent(phase: Phase): int {
    match phase
    case SendInfos => 0 case RecvInfosAck => 1
    case SendBoatReq => 2
    case PollBoat => 3 case AckBoat => 4
    case SendView => 5 case RecvViewAck => 6
    case SendGo => 7 case RecvGoAck => 8
    case RecvShot => 9 case AckShot => 10
    case SendStatus => 11 case RecvStatusAck => 12
    case Done => 13
  }

  /** First event of the loop a program point belongs to. */
  ghost function LoopStart(e: int): int {
    if e <= 1 then 0 else if e <= 2 then 2 else if e <= 4 then 3 else if e <= 6 then 5
    else if e <= 8 then 7 else if e <= 10 then 9 else if e <= 12 then 11 else 13
  }

  ghost function LoopEnd(e: int): int {
    if e <= 1 then 2 else if e <= 2 then 3 else if e <= 4 then 5 else if e <= 6 then 7
    else if e <= 8 then 9 else if e <= 10 then 11 else 13
  }

  ghost function Stage(v: Server, k: int): int {
    var e := PhaseEvent(v.phase);
    if k == v.i then e else if k < v.i then LoopEnd(e) else LoopStart(e)
  }

  ghost predicate VerdictMsg(id: int) { id == 7 || id == 8 || id == 9 || id == 10 }

  ghost predicate Over(p: Peer) { p.etat == FinWin || p.etat == FinLose }

  ghost function RoundEnd(p: Peer): Pc { if Over(p) then Finished else WaitView }

  ghost predicate Quiet(p: Peer) { p.down == [] && p.up == [] }

  ghost predicate Down1(p: Peer, a: int) { |p.down| == 1 && p.down[0].id == a && p.up == [] }

  ghost predicate Up1(p: Peer, a: int) { |p.up| == 1 && p.up[0].id == a && p.down == [] }

  ghost predicate DownVerdict(p: Peer) { |p.down| == 1 && VerdictMsg(p.down[0].id) && p.up == [] }

  /** Where the client may be, and what may be in flight, when the server's next event with it is e. */
  ghost predicate Linked(e: int, p: Peer) {
    match e
    case 0 => p.pc == WaitInfos && Quiet(p)
    case 1 => (p.pc == WaitInfos && Down1(p, 4)) || (p.pc == AckInfos && Quiet(p)) || (p.pc == WaitBoatReq && Up1(p, 0))
    case 2 => p.pc == WaitBoatReq && Quiet(p)
    case 3 =>
      (p.pc == WaitBoatReq && Down1(p, 3)) || (p.pc == SendBoat && Quiet(p)) || (p.pc == WaitBoatAck && Up1(p, 3))
    case 4 => p.pc == WaitBoatAck && Quiet(p)
    case 5 => (p.pc == WaitBoatAck && Down1(p, 0)) || (p.pc == WaitView && Quiet(p))
    case 6 =>
      || (p.pc == WaitBoatAck && |p.down| == 2 && p.down[0].id == 0 && p.down[1].id == 2 && p.up == [])
      || (p.pc == WaitView && Down1(p, 2)) || (p.pc == AckView && Quiet(p)) || (p.pc == WaitGo && Up1(p, 0))
    case 7 => p.pc == WaitGo && Quiet(p)
    case 8 =>
      || (p.pc == WaitGo && Down1(p, 5)) || (p.pc == AckGo && Quiet(p)) || (p.pc == SendShot && Up1(p, 0))
      || (p.pc == WaitShotAck && |p.up| == 2 && p.up[0].id == 0 && p.up[1].id == 6 && p.down == [])
    case 9 => (p.pc == SendShot && Quiet(p)) || (p.pc == WaitShotAck && Up1(p, 6))
    case 10 => p.pc == WaitShotAck && Quiet(p)
    case 11 => (p.pc == WaitShotAck && Down1(p, 0)) || (p.pc == WaitStatus && Quiet(p))
    case 12 =>
      || (p.pc == WaitShotAck && |p.down| == 2 && p.down[0].id == 0 && VerdictMsg(p.down[1].id) && p.up == [])
      || (p.pc == WaitStatus && DownVerdict(p)) || (p.pc == AckStatus && Quiet(p))
      || (p.pc == RoundEnd(p) && Up1(p, 0))
    case 13 => p.pc == RoundEnd(p) && Quiet(p)
    case _ => false
  }

  // ----- what the messages and the local states mean -----

  /** Ship k of the board is the one anchored at a. */
  ghost predicate ShipOf(c: Config, b: Board, k: int, a: Anchor)
    requires Shape(b) && Sized(b) && 0 <= k
  {
    && k < b.nbBateau && b.bateaux[k].taille == c.taille && c.taille <= MAX_BOAT_SIZE
    && forall j | 0 <= j < c.taille ::
         && b.bateaux[k].cell[j].x == ShipX(a.x, a.direction, j)
         && b.bateaux[k].cell[j].y == ShipY(a.y, a.direction, j)
  }

  ghost predicate Afloat(b: Board, k: int)
    requires Shape(b) && Sized(b) && 0 <= k
  {
    k < b.nbBateau && !Sunk(b, k)
  }

  ghost function EtatAfter(id: int): Etat {
    if id == 10 then FinWin else if id == 9 then FinLose else if id == 8 then Dead else EnJeu
  }

  /** The last message of the channel to the client. */
  ghost function Last(s: seq<Msg>): Msg
    requires s != []
  {
    s[|s| - 1]
  }

  /** Setup: parameters and ship. */
  ghost predicate SetupData(c: Config, e: int, b: Board, p: Peer, k: int)
    requires Shape(b) && Sized(b) && 0 <= k
  {
    && (e == 1 && p.pc == WaitInfos && p.down != [] ==> p.down[0].body == Parameters(c))
    && (p.pc != WaitInfos ==> p.params == c)
    && (e == 3 && p.pc == WaitBoatAck ==> p.up != [] && p.up[0].body == ShipAt(p.boat))
    && (3 <= e <= 4 && p.pc == WaitBoatAck ==> Conforming(p.boat, c.size, c.taille))
    && (e <= 4 ==> p.etat == EnJeu && p.sent == [])
    && (e >= 5 ==> ShipOf(c, b, k, p.boat))
  }

  /** The view: what is in flight, then what the client holds, is the server's board string. */
  ghost predicate ViewData(e: int, early: bool, view: string, p: Peer) {
    && (e == 6 && p.down != [] ==> Last(p.down) == Msg(2, Digits(view)))
    && (early && (7 <= e <= 9 || (e == 6 && (p.pc == AckView || p.pc == WaitGo))) ==> p.digits == view)
  }

  /** The life state: exact while no shot of the round has landed, a sunk ship for every dead client
      at any time, and the verdict once it is in. */
  ghost predicate LifeData(e: int, early: bool, afloat: bool, verdict: int, p: Peer) {
    && (e <= 11 || (e == 12 && p.up == []) ==> !Over(p))
    && (p.pc == WaitBoatAck ==> p.etat == EnJeu)
    && (5 <= e && p.etat == Dead ==> !afloat)
    && (5 <= e <= 9 && early ==> (p.etat == EnJeu <==> afloat))
    && (e == 12 && p.down != [] ==> Last(p.down).id == verdict)
    && (e == 12 && p.pc == AckStatus ==> p.statut == verdict)
    && ((e == 12 && p.up != []) || e == 13 ==> p.etat == EtatAfter(verdict))
    && (e == 8 && |p.up| == 2 ==> ShotBody(p, p.up[1].body))
    && (e == 9 && p.up != [] ==> ShotBody(p, p.up[0].body))
  }

  /** A living client sends a shot, a dead one sends "mort". */
  ghost predicate ShotBody(p: Peer, m: Body) {
    if p.etat == EnJeu then m.Coup? else m == Mort
  }

  ghost predicate Undecided(id: int) { id == 7 || id == 8 }

  /** Verdicts sent: only the last may be 9 or 10, and after an 8 come only 8 and 9. */
  ghost predicate HistoryData(e: int, afloat: bool, verdict: int, p: Peer) {
    && (forall a | 0 <= a < |p.sent| :: VerdictMsg(p.sent[a]))
    && (forall a, z | 0 <= a < z < |p.sent| :: p.sent[a] == 8 ==> p.sent[z] == 8 || p.sent[z] == 9)
    && (forall a | 0 <= a < |p.sent| - 1 :: Undecided(p.sent[a]))
    && (e <= 11 && p.sent != [] ==> Undecided(p.sent[|p.sent| - 1]))
    && (5 <= e && 8 in p.sent ==> !afloat)
    && (e >= 12 ==> p.sent != [] && p.sent[|p.sent| - 1] == verdict)
  }

  ghost function ViewString(c: Config, b: Board): string
    requires Shape(b) && c.size <= MAX_BOARD_SIZE
  {
    View.Encode(b.cell, c.size)
  }

  ghost predicate PeerInv(c: Config, e: int, early: bool, b: Board, p: Peer, k: int)
    requires Shape(b) && Sized(b) && 0 <= k && c.size <= MAX_BOARD_SIZE
  {
    && Linked(e, p) && SetupData(c, e, b, p, k)
    && ViewData(e, early, ViewString(c, b), p)
    && LifeData(e, early, Afloat(b, k), VerdictId(b, k), p)
    && HistoryData(e, Afloat(b, k), VerdictId(b, k), p)
  }

  /** Between the head of a round and its first shot. */
  ghost predicate FreshPhase(phase: Phase) {
    phase == SendView || phase == RecvViewAck || phase == SendGo || phase == RecvGoAck
  }

  ghost predicate Collecting(phase: Phase) {
    phase == SendInfos || phase == RecvInfosAck || phase == SendBoatReq || phase == PollBoat || phase == AckBoat
  }

  /** The ships in so far, and the counter that ends the collection. */
  ghost function ShipsIn(v: Server, n: nat): nat {
    if v.phase == PollBoat || v.phase == AckBoat then v.i else if Collecting(v.phase) then 0 else n
  }

  ghost predicate ServerInv(c: Config, v: Server) {
    && ConfigOk(c) && v.i < c.n && (v.phase == Done ==> v.i == 0)
    && Agree(v.board, c.size)
    && v.board.nbBateau == ShipsIn(v, c.n) && v.recu == v.board.nbBateau
    && (Collecting(v.phase) ==> NoShotsYet(v.board))
    && (v.phase == SendView || v.phase == RecvViewAck ==> v.plateau == View.Encode(v.board.cell, c.size))
    && (v.phase == Done ==> Decided(v.board))
  }

  ghost predicate StoredRequest(s: State)
    requires s.server.i < |s.peers|
  {
    var p, m := s.peers[s.server.i], s.server.reponse;
    && (s.server.phase == AckBoat ==> m == Msg(3, ShipAt(p.boat)))
    && (s.server.phase == AckShot ==> m.id == 6 && ShotBody(p, m.body))
  }

  ghost predicate Unjudged(p: Peer) { p.etat == EnJeu && p.sent == [] }

  ghost predicate PeersInv(c: Config, v: Server, peers: seq<Peer>)
    requires Shape(v.board) && Sized(v.board) && c.size <= MAX_BOARD_SIZE
  {
    && |peers| == c.n
    && (forall k | 0 <= k < c.n :: PeerInv(c, Stage(v, k), FreshPhase(v.phase), v.board, peers[k], k))
    && (Collecting(v.phase) ==> forall k | 0 <= k < c.n :: Unjudged(peers[k]))
  }

  ghost predicate Inv(s: State) {
    ServerInv(s.c, s.server) && PeersInv(s.c, s.server, s.peers) && StoredRequest(s)
  }

  lemma InitialInv(s: State)
    requires Initial(s)
    ensures Inv(s)
  {
    EmptyBoardAgrees(s.server.board, s.c.size);
    assert Sized(s.server.board);
  }
}
