/** The running game as one system: the server's sequential program, any number of client programs,
    and a pair of FIFO channels of whole requests per client. A run is any interleaving of steps. */
module Protocol {
  import opened Board
  import opened Verdicts
  import opened Placement
  import View

  datatype Config = Config(n: nat, size: nat, taille: nat, timeout: int)

  /** Two players or more, and parameters the menu allows. */
  predicate ConfigOk(c: Config) {
    2 <= c.n <= MAX_PLAYER && 1 <= c.taille <= MAX_BOAT_SIZE && 2 * c.taille <= c.size <= MAX_BOARD_SIZE
  }

  datatype Body =
    | Blank
    | Parameters(c: Config)
    | ShipAt(a: Anchor)
    | Digits(s: string)
    | Coup(p: Point)
    | Mort

  datatype Msg = Msg(id: int, body: Body)

  /** Program points of the server, each with the player index i of the enclosing loop. */
  datatype Phase =
    | SendInfos | RecvInfosAck
    | SendBoatReq
    | PollBoat | AckBoat
    | SendView | RecvViewAck
    | SendGo | RecvGoAck
    | RecvShot | AckShot
    | SendStatus | RecvStatusAck
    | Done

  datatype Server = Server(phase: Phase, i: nat, recu: nat, reponse: Msg, plateau: string, board: Board)

  /** Program points of a client; WaitGo to WaitShotAck serve both the living and the dead branch. */
  datatype Pc =
    | WaitInfos | AckInfos
    | WaitBoatReq | SendBoat | WaitBoatAck
    | WaitView | AckView
    | WaitGo | AckGo | SendShot | WaitShotAck
    | WaitStatus | AckStatus
    | Finished | Failed

  datatype Etat = EnJeu | Dead | FinWin | FinLose

  /** A client and its two channels; `sent` is the history of verdicts the server sent to it. */
  datatype Peer = Peer(pc: Pc, etat: Etat, params: Config, boat: Anchor, digits: string, statut: int,
                       down: seq<Msg>, up: seq<Msg>, sent: seq<int>)

  datatype State = State(c: Config, server: Server, peers: seq<Peer>)

  /** A step of the server, or of client k with the ship or the shot its keys may choose there. */
  datatype Action = ServerStep | ClientStep(k: nat, ship: Anchor, shot: Point)

  // ----- the server -----

  ghost predicate Receiving(phase: Phase) {
    phase == RecvInfosAck || phase == PollBoat || phase == RecvViewAck || phase == RecvGoAck
    || phase == RecvShot || phase == RecvStatusAck
  }

  /** The server can move: a read waits for a message, everything else is free. An empty poll of
      the collection loop changes nothing and is not counted as a step. */
  ghost predicate ServerEnabled(s: State) {
    && s.server.phase != Done && s.server.i < |s.peers|
    && (Receiving(s.server.phase) ==> s.peers[s.server.i].up != [])
  }

  ghost function Sending(s: State, m: Msg): State
    requires s.server.i < |s.peers|
  {
    var k := s.server.i;
    s.(peers := s.peers[k := s.peers[k].(down := s.peers[k].down + [m])])
  }

  /** The state after taking the oldest message of player i into `reponse`. */
  ghost function Taking(s: State): State
    requires s.server.i < |s.peers| && s.peers[s.server.i].up != []
  {
    var p := s.peers[s.server.i];
    s.(peers := s.peers[s.server.i := p.(up := p.up[1..])], server := s.server.(reponse := p.up[0]))
  }

  ghost function Goto(s: State, phase: Phase): State {
    s.(server := s.server.(phase := phase))
  }

  /** Next player of the loop starting at `again`, or the loop after it. */
  ghost function Loop(s: State, again: Phase, after: Phase): State {
    if s.server.i + 1 < s.c.n then s.(server := s.server.(phase := again, i := s.server.i + 1))
    else s.(server := s.server.(phase := after, i := 0))
  }

  ghost function BoardString(b: Board, size: nat): string {
    if Shape(b) && size <= MAX_BOARD_SIZE then View.Encode(b.cell, size) else ""
  }

  /** The head of a round: the digits are computed once for all players. */
  ghost function StartRound(s: State): State {
    s.(server := s.server.(phase := SendView, i := 0, plateau := BoardString(s.server.board, s.c.size)))
  }

  ghost function VerdictId(b: Board, k: nat): int {
    if Shape(b) && Sized(b) && k < b.nbBateau then Verdict(b, k) else 7
  }

  ghost predicate GameOver(b: Board) {
    Shape(b) && Sized(b) && Decided(b)
  }

  /** recevoir_bateaux on the stored request. */
  ghost function TakeShip(s: State): State {
    var v, m := s.server, s.server.reponse;
    if m.id != 3 then s
    else
      var b := if m.body.ShipAt? && CanPlace(v.board, v.i, s.c.taille, m.body.a.x, m.body.a.y, m.body.a.direction)
               then Placed(v.board, v.i, s.c.taille, m.body.a.x, m.body.a.y, m.body.a.direction) else v.board;
      s.(server := v.(board := b, recu := v.recu + 1))
  }

  /** The collection loop ends when as many ships as players are in. */
  ghost function NextShip(s: State): State {
    if s.server.recu == s.c.n then StartRound(s)
    else s.(server := s.server.(phase := PollBoat, i := if s.server.i == s.c.n + 1 then 0 else s.server.i + 1))
  }

  /** recevoir_tir on the stored request: only a "coup" touches the board. */
  ghost function TakeShot(s: State): State {
    var v := s.server;
    if v.reponse.id == 6 && v.reponse.body.Coup? && Shape(v.board) && s.c.size <= MAX_BOARD_SIZE
    then s.(server := v.(board := AfterShot(v.board, s.c.size, v.reponse.body.p))) else s
  }

  ghost function ServerNext(s: State): State
    requires ServerEnabled(s)
  {
    match s.server.phase
    case SendInfos => Goto(Sending(s, Msg(4, Parameters(s.c))), RecvInfosAck)
    case RecvInfosAck => Loop(Taking(s), SendInfos, SendBoatReq)
    case SendBoatReq => Loop(Sending(s, Msg(3, Blank)), SendBoatReq, PollBoat)
    case PollBoat => Goto(Taking(s), AckBoat)
    case AckBoat => NextShip(TakeShip(Sending(s, Msg(0, Blank))))
    case SendView => Goto(Sending(s, Msg(2, Digits(s.server.plateau))), RecvViewAck)
    case RecvViewAck => Loop(Taking(s), SendView, SendGo)
    case SendGo => Goto(Sending(s, Msg(5, Blank)), RecvGoAck)
    case RecvGoAck => Loop(Taking(s), SendGo, RecvShot)
    case RecvShot => Goto(Taking(s), AckShot)
    case AckShot => Loop(TakeShot(Sending(s, Msg(0, Blank))), RecvShot, SendStatus)
    case SendStatus =>
      var id := VerdictId(s.server.board, s.server.i);
      var t := Sending(s, Msg(id, Blank));
      var p := t.peers[s.server.i];
      Goto(t.(peers := t.peers[s.server.i := p.(sent := p.sent + [id])]), RecvStatusAck)
    case RecvStatusAck =>
      var t := Taking(s);
      if s.server.i + 1 < s.c.n then t.(server := t.server.(phase := SendStatus, i := s.server.i + 1))
      else if GameOver(s.server.board) then t.(server := t.server.(phase := Done, i := 0))
      else StartRound(t)
  }

  // ----- a client -----

  ghost predicate Reading(pc: Pc) {
    pc == WaitInfos || pc == WaitBoatReq || pc == WaitBoatAck || pc == WaitView || pc == WaitGo
    || pc == WaitShotAck || pc == WaitStatus
  }

  ghost predicate PeerEnabled(p: Peer, ship: Anchor) {
    && p.pc != Finished && p.pc != Failed
    && (Reading(p.pc) ==> p.down != [])
    && (p.pc == SendBoat ==> Conforming(ship, p.params.size, p.params.taille))
  }

  ghost function Saying(p: Peer, m: Msg, pc: Pc): Peer {
    p.(up := p.up + [m], pc := pc)
  }

  ghost function PeerNext(p: Peer, ship: Anchor, shot: Point): Peer
    requires PeerEnabled(p, ship)
  {
    var m := if p.down != [] then p.down[0] else Msg(0, Blank);
    var q := if Reading(p.pc) then p.(down := p.down[1..]) else p;
    match p.pc
    case WaitInfos =>
      if m.id == 4 then q.(pc := AckInfos, params := if m.body.Parameters? then m.body.c else q.params)
      else q.(pc := Failed)
    case AckInfos => Saying(q, Msg(0, Blank), WaitBoatReq)
    case WaitBoatReq => q.(pc := if m.id == 3 then SendBoat else Failed)
    case SendBoat => Saying(q.(boat := ship), Msg(3, ShipAt(ship)), WaitBoatAck)
    case WaitBoatAck => if m.id == 0 then q.(pc := WaitView, etat := EnJeu) else q.(pc := SendBoat)
    case WaitView =>
      if m.id == 2 then q.(pc := AckView, digits := if m.body.Digits? then m.body.s else q.digits)
      else q.(pc := WaitGo)
    case AckView => Saying(q, Msg(0, Blank), WaitGo)
    case WaitGo => if p.etat != EnJeu || m.id == 5 then q.(pc := AckGo) else q.(pc := WaitStatus)
    case AckGo => Saying(q, Msg(0, Blank), SendShot)
    case SendShot => Saying(q, Msg(6, if p.etat == EnJeu then Coup(shot) else Mort), WaitShotAck)
    case WaitShotAck => q.(pc := WaitStatus)
    case WaitStatus =>
      if m.id == 7 || m.id == 8 || m.id == 9 || m.id == 10 then q.(pc := AckStatus, statut := m.id)
      else q.(pc := WaitView)
    case AckStatus =>
      var r := Saying(q, Msg(0, Blank), WaitView);
      match p.statut
      case 10 => r.(etat := FinWin, pc := Finished)
      case 9 => r.(etat := FinLose, pc := Finished)
      case 8 => r.(etat := Dead)
      case _ => r
  }

  // ----- runs -----

  ghost predicate Enabled(s: State, a: Action) {
    match a
    case ServerStep => ServerEnabled(s)
    case ClientStep(k, ship, _) => k < |s.peers| && PeerEnabled(s.peers[k], ship)
  }

  ghost function Next(s: State, a: Action): State {
    if !Enabled(s, a) then s
    else match a
      case ServerStep => ServerNext(s)
      case ClientStep(k, ship, shot) => s.(peers := s.peers[k := PeerNext(s.peers[k], ship, shot)])
  }

  /** Any schedule: an action that cannot be taken where it stands is skipped. */
  ghost function Run(s: State, schedule: seq<Action>): State {
    if schedule == [] then s else Next(Run(s, schedule[..|schedule| - 1]), schedule[|schedule| - 1])
  }

  /** The lobby is over: c.n players, an empty board, nothing in flight. */
  ghost predicate Initial(s: State) {
    ConfigOk(s.c) && AtStart(s)
  }

  ghost predicate AtStart(s: State) {
    && |s.peers| == s.c.n
    && s.server.phase == SendInfos && s.server.i == 0 && s.server.recu == 0
    && Shape(s.server.board) && s.server.board.nbBateau == 0
    && (forall x, y | InArray(x, y) :: s.server.board.cell[y][x] == Empty)
    && (forall k | 0 <= k < s.c.n :: Newcomer(s.peers[k]))
  }

  ghost predicate Newcomer(p: Peer) {
    p.pc == WaitInfos && p.etat == EnJeu && p.down == [] && p.up == [] && p.sent == []
  }
}
