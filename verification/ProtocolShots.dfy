/** What becomes of the shots of a round: every cell a living client aims at is shot, for every player, and no other. */
module ProtocolShots {
  import opened Board
  import opened Protocol
  import opened ProtocolInvariant
  import opened ProtocolServerSteps
  import opened ProtocolSteps
  import opened ProtocolTheorems
  import Placement
  import opened Shots

  // ----- one shot -----

  /** The cell that a living client chooses is the one its message carries. */
  lemma AimSent(s: State, k: nat, ship: Placement.Anchor, shot: Point)
    requires k < |s.peers| && s.peers[k].pc == SendShot && Enabled(s, ClientStep(k, ship, shot))
    ensures var q := Next(s, ClientStep(k, ship, shot)).peers[k];
      q.up == s.peers[k].up + [Msg(6, if s.peers[k].etat == EnJeu then Coup(shot) else Mort)]
  {
  }

  /** Taking a shot, from any player: the cell shot becomes HIT if it was BOAT or HIT, else MISSED, provided it is on
      the board, and every other cell stays; a "mort" changes nothing. */
  lemma ShotTakenExactly(s: State, x: int, y: int)
    requires Reachable(s) && s.server.phase == AckShot && Enabled(s, ServerStep) && InArray(x, y)
    ensures Agree(s.server.board, s.c.size) && Agree(Next(s, ServerStep).server.board, s.c.size)
    ensures var m, was := s.server.reponse.body, s.server.board.cell[y][x];
      var now := Next(s, ServerStep).server.board.cell[y][x];
      if m.Coup? && m.p == Point(x, y) && InBoard(s.c.size, x, y)
      then now == (if was == Boat || was == HitShot then HitShot else MissedShot)
      else now == was
  {
    ReachableInv(s);
    ShotTakenState(s);
    ShotLands(s);
    var b := s.server.board;
    if s.server.reponse.body.Coup? {
      BatteredNone(b);
      if InBoard(s.c.size, s.server.reponse.body.p.x, s.server.reponse.body.p.y) {
        ShotExtends(b, s.c.size, {}, s.server.reponse.body.p);
      }
    }
  }

  // ----- the aims of a round -----

  /** The phases of a round before its first status. */
  ghost predicate Open(phase: Phase) {
    FreshPhase(phase) || phase == RecvShot || phase == AckShot
  }

  ghost predicate Aiming(s: State, a: Action) {
    a.ClientStep? && Enabled(s, a) && s.peers[a.k].pc == SendShot && s.peers[a.k].etat == EnJeu
  }

  /** The cell that each living client has chosen in the course of a schedule. */
  ghost function Aims(s: State, schedule: seq<Action>): map<nat, Point> {
    if schedule == [] then map[]
    else
      var before, t, a := schedule[..|schedule| - 1], Run(s, schedule[..|schedule| - 1]), schedule[|schedule| - 1];
      if Aiming(t, a) then Aims(s, before)[a.k := a.shot] else Aims(s, before)
  }

  /** A schedule from the head of a round that stays in it, up to its first status at most. */
  ghost predicate WithinShots(s: State, schedule: seq<Action>) {
    forall j | 0 <= j < |schedule| :: Open(Run(s, schedule[..j]).server.phase)
  }

  /** Where client k's aim is, when the server's next event with it is e: not chosen yet, on its way, in the server's
      hands, or taken. */
  ghost predicate AimAt(e: int, p: Peer, has: bool, aim: Point, held: Body) {
    && 5 <= e <= 11 && !Over(p)
    && (e <= 9 && p.pc != WaitShotAck ==> !has)
    && (8 <= e <= 9 && p.pc == WaitShotAck ==> p.up != [] && Carried(p, has, aim, Last(p.up).body))
    && (e == 10 ==> Carried(p, has, aim, held))
    && (e == 11 ==> (has <==> p.etat == EnJeu))
  }

  ghost predicate Carried(p: Peer, has: bool, aim: Point, m: Body) {
    if p.etat == EnJeu then has && m == Coup(aim) else !has && m == Mort
  }

  ghost function AimOf(aims: map<nat, Point>, k: nat): Point { if k in aims then aims[k] else Point(0, 0) }

  /** The cells of the aims that have been taken. */
  ghost function Landed(v: Server, size: int, aims: map<nat, Point>): set<Point> {
    set k | k in aims && Stage(v, k) >= 11 && InBoard(size, aims[k].x, aims[k].y) :: aims[k]
  }

  ghost predicate AimsAt(s: State, aims: map<nat, Point>)
  {
    && (forall k | k in aims :: k < |s.peers|)
    && forall k: nat | k < |s.peers| ::
         AimAt(Stage(s.server, k), s.peers[k], k in aims, AimOf(aims, k), s.server.reponse.body)
  }

  ghost predicate RoundOk(b: Board, s: State, aims: map<nat, Point>) {
    && Inv(s) && Agree(b, s.c.size) && AimsAt(s, aims)
    && s.server.board == Battered(b, Landed(s.server, s.c.size, aims))
  }

  // ----- a client step -----

  lemma ClientAims(e: int, p: Peer, has: bool, aim: Point, held: Body, ship: Placement.Anchor, shot: Point)
    requires Linked(e, p) && AimAt(e, p, has, aim, held) && PeerEnabled(p, ship)
    requires p.pc == WaitBoatAck ==> p.etat == EnJeu
    ensures var q := PeerNext(p, ship, shot);
      if p.pc == SendShot && p.etat == EnJeu then AimAt(e, q, true, shot, held) && e <= 9
      else AimAt(e, q, has, aim, held)
  {
  }

  ghost function NowAimed(s: State, a: Action, aims: map<nat, Point>): map<nat, Point> {
    if Aiming(s, a) then aims[a.k := a.shot] else aims
  }

  lemma AimsPut(s: State, aims: map<nat, Point>, k: nat, q: Peer, after: map<nat, Point>)
    requires AimsAt(s, aims) && k < |s.peers|
    requires AimAt(Stage(s.server, k), q, k in after, AimOf(after, k), s.server.reponse.body)
    requires forall m: nat | m != k :: (m in after <==> m in aims) && AimOf(after, m) == AimOf(aims, m)
    ensures AimsAt(s.(peers := s.peers[k := q]), after)
  {
  }

  lemma PeerLinked(s: State, k: nat)
    requires Inv(s) && k < |s.peers|
    ensures Linked(Stage(s.server, k), s.peers[k]) && (s.peers[k].pc == WaitBoatAck ==> s.peers[k].etat == EnJeu)
  {
    assert PeerInv(s.c, Stage(s.server, k), FreshPhase(s.server.phase), s.server.board, s.peers[k], k);
  }

  lemma ClientAimsAt(s: State, aims: map<nat, Point>, k: nat, ship: Placement.Anchor, shot: Point)
    requires AimsAt(s, aims) && Enabled(s, ClientStep(k, ship, shot))
    requires Linked(Stage(s.server, k), s.peers[k]) && (s.peers[k].pc == WaitBoatAck ==> s.peers[k].etat == EnJeu)
    ensures AimsAt(Next(s, ClientStep(k, ship, shot)), NowAimed(s, ClientStep(k, ship, shot), aims))
    ensures Aiming(s, ClientStep(k, ship, shot)) ==> Stage(s.server, k) <= 9
  {
    var p, e, held := s.peers[k], Stage(s.server, k), s.server.reponse.body;
    assert AimAt(e, p, k in aims, AimOf(aims, k), held);
    ClientAims(e, p, k in aims, AimOf(aims, k), held, ship, shot);
    AimsPut(s, aims, k, PeerNext(p, ship, shot), NowAimed(s, ClientStep(k, ship, shot), aims));
  }

  lemma LandedBefore(v: Server, size: int, aims: map<nat, Point>, k: nat, shot: Point)
    requires Stage(v, k) <= 9
    ensures Landed(v, size, aims[k := shot]) == Landed(v, size, aims)
  {
    var after := aims[k := shot];
    forall p | p in Landed(v, size, aims) ensures p in Landed(v, size, after) {
      var m :| m in aims && Stage(v, m) >= 11 && InBoard(size, aims[m].x, aims[m].y) && p == aims[m];
      assert m in after && after[m] == aims[m];
    }
    forall p | p in Landed(v, size, after) ensures p in Landed(v, size, aims) {
      var m :| m in after && Stage(v, m) >= 11 && InBoard(size, after[m].x, after[m].y) && p == after[m];
      assert m in aims && after[m] == aims[m];
    }
  }

  lemma ClientRound(b: Board, s: State, aims: map<nat, Point>, k: nat, ship: Placement.Anchor, shot: Point)
    requires RoundOk(b, s, aims) && Enabled(s, ClientStep(k, ship, shot))
    ensures RoundOk(b, Next(s, ClientStep(k, ship, shot)), NowAimed(s, ClientStep(k, ship, shot), aims))
  {
    ClientStepKeeps(s, k, ship, shot);
    PeerLinked(s, k);
    ClientAimsAt(s, aims, k, ship, shot);
    if Aiming(s, ClientStep(k, ship, shot)) { LandedBefore(s.server, s.c.size, aims, k, shot); }
  }

  // ----- a server step -----

  /** What a server step does to the client it deals with, before the board is touched. */
  lemma ServerAims(e: int, p: Peer, has: bool, aim: Point, held: Body, m: Msg)
    requires Linked(e, p) && AimAt(e, p, has, aim, held)
    ensures e == 5 || e == 7 || e == 10 ==> AimAt(e + 1, Told(p, m), has, aim, held)
    ensures (e == 6 || e == 8) && p.up != [] ==> AimAt(e + 1, Took(p), has, aim, p.up[0].body)
    ensures e == 9 && p.up != [] ==> AimAt(10, Took(p), has, aim, p.up[0].body)
  {
  }

  lemma OtherAims(e: int, p: Peer, has: bool, aim: Point, held: Body, now: Body)
    requires AimAt(e, p, has, aim, held) && e != 10
    ensures AimAt(e, p, has, aim, now)
  {
  }

  /** The server moves on with its current client, and leaves the others and the board alone. */
  ghost predicate Advances(s: State, t: State) {
    && t.c == s.c && |t.peers| == |s.peers| && s.server.i < |s.peers|
    && Stage(t.server, s.server.i) == Stage(s.server, s.server.i) + 1
    && (forall k: nat | k < |s.peers| && k != s.server.i ::
          Stage(t.server, k) == Stage(s.server, k) && t.peers[k] == s.peers[k])
  }

  lemma AdvanceAims(s: State, t: State, aims: map<nat, Point>)
    requires AimsAt(s, aims) && Advances(s, t)
    requires forall k: nat | k < |s.peers| && k != s.server.i :: Stage(s.server, k) != 10
    requires AimAt(Stage(t.server, s.server.i), t.peers[s.server.i], s.server.i in aims, AimOf(aims, s.server.i),
                   t.server.reponse.body)
    ensures AimsAt(t, aims)
  {
    forall k: nat | k < |t.peers|
      ensures AimAt(Stage(t.server, k), t.peers[k], k in aims, AimOf(aims, k), t.server.reponse.body)
    {
      if k != s.server.i {
        var held, now := s.server.reponse.body, t.server.reponse.body;
        OtherAims(Stage(s.server, k), s.peers[k], k in aims, AimOf(aims, k), held, now);
      }
    }
  }

  lemma OnlyOneHeld(v: Server, k: nat)
    requires Open(v.phase) && k != v.i
    ensures Stage(v, k) != 10 && 5 <= Stage(v, k) <= 11
  {
  }

  /** The server's current client after a step that sends m, or that takes its oldest message. */
  ghost predicate Dealt(s: State, t: State, q: Peer) {
    && s.server.i < |s.peers| && t.c == s.c && t.peers == s.peers[s.server.i := q]
  }

  lemma DealtAdvances(s: State, t: State, q: Peer)
    requires Dealt(s, t, q) && |s.peers| == s.c.n
    requires Stage(t.server, s.server.i) == Stage(s.server, s.server.i) + 1
    requires forall k | 0 <= k < s.c.n && k != s.server.i :: Stage(t.server, k) == Stage(s.server, k)
    ensures Advances(s, t)
  {
  }

  lemma SendStep(s: State)
    requires ServerEnabled(s) && s.server.i < s.c.n == |s.peers|
    requires s.server.phase == SendView || s.server.phase == SendGo
    ensures exists m :: Dealt(s, ServerNext(s), Told(s.peers[s.server.i], m))
    ensures Advances(s, ServerNext(s)) && ServerNext(s).server.board == s.server.board
  {
    var m := if s.server.phase == SendView then Msg(2, Digits(s.server.plateau)) else Msg(5, Blank);
    assert Dealt(s, ServerNext(s), Told(s.peers[s.server.i], m));
  }

  lemma TakeStep(s: State)
    requires ServerEnabled(s) && s.server.i < s.c.n == |s.peers|
    requires s.server.phase == RecvViewAck || s.server.phase == RecvGoAck || s.server.phase == RecvShot
    ensures Dealt(s, ServerNext(s), Took(s.peers[s.server.i]))
    ensures ServerNext(s).server.reponse == s.peers[s.server.i].up[0] && ServerNext(s).server.board == s.server.board
  {
  }

  lemma TakeAdvances(s: State)
    requires ServerEnabled(s) && s.server.i < s.c.n == |s.peers|
    requires s.server.phase == RecvViewAck || s.server.phase == RecvGoAck || s.server.phase == RecvShot
    ensures Advances(s, ServerNext(s))
  {
    var t := ServerNext(s);
    TakeStep(s);
    if s.server.phase == RecvViewAck {
      LoopAlong(s, SendView, SendGo, t.server);
    } else if s.server.phase == RecvGoAck {
      LoopAlong(s, SendGo, RecvShot, t.server);
    }
    DealtAdvances(s, t, Took(s.peers[s.server.i]));
  }

  lemma AckStep(s: State)
    requires ServerEnabled(s) && s.server.i < s.c.n == |s.peers| && s.server.phase == AckShot
    ensures Dealt(s, ServerNext(s), Told(s.peers[s.server.i], Msg(0, Blank))) && Advances(s, ServerNext(s))
    ensures ServerNext(s).server.board == TakeShot(s).server.board
  {
    ShotTakenState(s);
    LoopMoves(s, RecvShot, SendStatus);
    DealtAdvances(s, ServerNext(s), Told(s.peers[s.server.i], Msg(0, Blank)));
  }

  lemma ServerRoundAims(s: State, aims: map<nat, Point>)
    requires Inv(s) && AimsAt(s, aims) && ServerEnabled(s) && Open(s.server.phase)
    ensures AimsAt(ServerNext(s), aims) && Advances(s, ServerNext(s))
  {
    var i, t, held := s.server.i, ServerNext(s), s.server.reponse.body;
    forall k: nat | k < |s.peers| && k != i ensures Stage(s.server, k) != 10 { OnlyOneHeld(s.server, k); }
    assert PeerInv(s.c, Stage(s.server, i), FreshPhase(s.server.phase), s.server.board, s.peers[i], i);
    if s.server.phase == SendView || s.server.phase == SendGo {
      SendStep(s);
      var m :| Dealt(s, t, Told(s.peers[i], m));
      ServerAims(Stage(s.server, i), s.peers[i], i in aims, AimOf(aims, i), held, m);
      OtherAims(Stage(t.server, i), t.peers[i], i in aims, AimOf(aims, i), held, t.server.reponse.body);
    } else if s.server.phase == AckShot {
      AckStep(s);
      ServerAims(Stage(s.server, i), s.peers[i], i in aims, AimOf(aims, i), held, Msg(0, Blank));
      OtherAims(Stage(t.server, i), t.peers[i], i in aims, AimOf(aims, i), held, t.server.reponse.body);
    } else {
      TakeStep(s);
      TakeAdvances(s);
      ServerAims(Stage(s.server, i), s.peers[i], i in aims, AimOf(aims, i), held, Msg(0, Blank));
    }
    AdvanceAims(s, t, aims);
  }

  /** The board after a server step: as before, but for the shot just answered. */
  lemma ServerRound(b: Board, s: State, aims: map<nat, Point>)
    requires RoundOk(b, s, aims) && ServerEnabled(s) && Open(s.server.phase)
    ensures RoundOk(b, ServerNext(s), aims)
  {
    ServerStepKeeps(s);
    ServerRoundAims(s, aims);
    if s.server.phase == AckShot { ShotRound(b, s, aims); } else { QuietRound(b, s, aims); }
  }

  ghost function JustLanded(s: State, t: State, size: int, aims: map<nat, Point>): set<Point> {
    var i := s.server.i;
    if i in aims && Stage(t.server, i) == 11 && InBoard(size, aims[i].x, aims[i].y) then {aims[i]} else {}
  }

  /** Only the current client's aim may land. */
  lemma LandedNext(s: State, t: State, size: int, aims: map<nat, Point>)
    requires Advances(s, t) && (forall k | k in aims :: k < |s.peers|)
    ensures Landed(t.server, size, aims) == Landed(s.server, size, aims) + JustLanded(s, t, size, aims)
  {
    var i := s.server.i;
    forall p | p in Landed(t.server, size, aims)
      ensures p in Landed(s.server, size, aims)
        || (i in aims && Stage(t.server, i) == 11 && InBoard(size, aims[i].x, aims[i].y) && p == aims[i])
    {
      var m :| m in aims && Stage(t.server, m) >= 11 && InBoard(size, aims[m].x, aims[m].y) && p == aims[m];
      assert m != i ==> Stage(s.server, m) == Stage(t.server, m);
    }
    forall p | p in Landed(s.server, size, aims) ensures p in Landed(t.server, size, aims) {
      var m :| m in aims && Stage(s.server, m) >= 11 && InBoard(size, aims[m].x, aims[m].y) && p == aims[m];
      assert m != i ==> Stage(s.server, m) == Stage(t.server, m);
    }
  }

  lemma QuietRound(b: Board, s: State, aims: map<nat, Point>)
    requires ServerEnabled(s) && Open(s.server.phase) && s.server.phase != AckShot && s.server.i < s.c.n == |s.peers|
    requires Shape(b) && s.server.board == Battered(b, Landed(s.server, s.c.size, aims))
    requires Advances(s, ServerNext(s)) && (forall k | k in aims :: k < |s.peers|)
    ensures ServerNext(s).server.board == Battered(b, Landed(ServerNext(s).server, s.c.size, aims))
  {
    QuietBoard(s);
    StageBelow(s.server);
    NoneLanded(b, s, ServerNext(s), s.c.size, aims);
  }

  lemma QuietBoard(s: State)
    requires ServerEnabled(s) && Open(s.server.phase) && s.server.phase != AckShot && s.server.i < s.c.n == |s.peers|
    ensures ServerNext(s).server.board == s.server.board
  {
    if s.server.phase == SendView || s.server.phase == SendGo { SendStep(s); } else { TakeStep(s); }
  }

  lemma NoneLanded(b: Board, s: State, t: State, size: int, aims: map<nat, Point>)
    requires Shape(b) && s.server.board == Battered(b, Landed(s.server, size, aims)) && t.server.board == s.server.board
    requires Advances(s, t) && Stage(s.server, s.server.i) <= 9 && (forall k | k in aims :: k < |s.peers|)
    ensures t.server.board == Battered(b, Landed(t.server, size, aims))
  {
    LandedNext(s, t, size, aims);
    assert JustLanded(s, t, size, aims) == {};
    assert Landed(s.server, size, aims) + {} == Landed(s.server, size, aims);
  }

  lemma StageBelow(v: Server)
    requires Open(v.phase) && v.phase != AckShot
    ensures Stage(v, v.i) <= 9
  {
  }

  lemma ShotRound(b: Board, s: State, aims: map<nat, Point>)
    requires RoundOk(b, s, aims) && ServerEnabled(s) && s.server.phase == AckShot
    ensures ServerNext(s).server.board == Battered(b, Landed(ServerNext(s).server, s.c.size, aims))
  {
    var i := s.server.i;
    AckStep(s);
    assert AimAt(Stage(s.server, i), s.peers[i], i in aims, AimOf(aims, i), s.server.reponse.body);
    HeldAim(s, aims);
    LandedNext(s, ServerNext(s), s.c.size, aims);
    LandedInBoard(s.server, s.c.size, aims);
    ShotCounted(b, s, ServerNext(s), s.c.size, aims);
  }

  /** The board that the server makes of the aim it holds. */
  lemma HeldAim(s: State, aims: map<nat, Point>)
    requires Inv(s) && s.server.phase == AckShot
    requires var i := s.server.i; AimAt(10, s.peers[i], i in aims, AimOf(aims, i), s.server.reponse.body)
    ensures TakeShot(s).server.board ==
      if s.server.i in aims then AfterShot(s.server.board, s.c.size, aims[s.server.i]) else s.server.board
  {
  }

  lemma LandedInBoard(v: Server, size: int, aims: map<nat, Point>)
    ensures HitsInBoard(Landed(v, size, aims), size)
  {
  }

  lemma ShotCounted(b: Board, s: State, t: State, size: int, aims: map<nat, Point>)
    requires Agree(b, size) && HitsInBoard(Landed(s.server, size, aims), size)
    requires s.server.board == Battered(b, Landed(s.server, size, aims)) && Stage(t.server, s.server.i) == 11
    requires Landed(t.server, size, aims) == Landed(s.server, size, aims) + JustLanded(s, t, size, aims)
    requires t.server.board ==
      if s.server.i in aims then AfterShot(s.server.board, size, aims[s.server.i]) else s.server.board
    ensures t.server.board == Battered(b, Landed(t.server, size, aims))
  {
    var was := Landed(s.server, size, aims);
    if s.server.i in aims {
      OneMore(b, s.server.board, size, was, aims[s.server.i]);
    } else {
      assert was + {} == was;
    }
  }

  lemma OneMore(b: Board, now: Board, size: int, hits: set<Point>, p: Point)
    requires Agree(b, size) && HitsInBoard(hits, size) && now == Battered(b, hits)
    ensures AfterShot(now, size, p) == Battered(b, hits + if InBoard(size, p.x, p.y) then {p} else {})
  {
    if InBoard(size, p.x, p.y) {
      ShotExtends(b, size, hits, p);
    } else {
      assert hits + {} == hits;
    }
  }

  // ----- the whole round -----

  lemma RoundStart(s: State)
    requires Reachable(s) && s.server.phase == SendView && s.server.i == 0
    ensures RoundOk(s.server.board, s, map[])
  {
    ReachableInv(s);
    forall k: nat | k < |s.peers|
      ensures AimAt(Stage(s.server, k), s.peers[k], false, Point(0, 0), s.server.reponse.body)
    {
      assert PeerInv(s.c, 5, true, s.server.board, s.peers[k], k);
    }
    BatteredNone(s.server.board);
    assert Landed(s.server, s.c.size, map[]) == {};
  }

  lemma {:induction false} RoundRun(s: State, schedule: seq<Action>)
    requires Reachable(s) && s.server.phase == SendView && s.server.i == 0 && WithinShots(s, schedule)
    ensures RoundOk(s.server.board, Run(s, schedule), Aims(s, schedule)) && Run(s, schedule).c == s.c
    decreases |schedule|
  {
    if schedule == [] {
      RoundStart(s);
    } else {
      var before, a := schedule[..|schedule| - 1], schedule[|schedule| - 1];
      forall j | 0 <= j < |before| ensures Open(Run(s, before[..j]).server.phase) {
        assert before[..j] == schedule[..j];
      }
      RoundRun(s, before);
      assert schedule[..|before|] == before;
      RoundStep(s.server.board, Run(s, before), Aims(s, before), a);
    }
  }

  lemma RoundStep(b: Board, s: State, aims: map<nat, Point>, a: Action)
    requires RoundOk(b, s, aims) && Open(s.server.phase)
    ensures RoundOk(b, Next(s, a), NowAimed(s, a, aims)) && Next(s, a).c == s.c
  {
    if Enabled(s, a) {
      match a
      case ServerStep =>
        ServerRound(b, s, aims);
        ServerRoundAims(s, aims);
      case ClientStep(k, ship, shot) => ClientRound(b, s, aims, k, ship, shot);
    }
  }

  /** From the head of a round to its first status, under every schedule: each living client, and no dead one, has
      chosen one cell, and the board is the one at the head with exactly the cells chosen that lie on it shot. */
  lemma RoundShots(s: State, schedule: seq<Action>)
    requires Reachable(s) && s.server.phase == SendView && s.server.i == 0 && WithinShots(s, schedule)
    requires Run(s, schedule).server.phase == SendStatus
    ensures var t, aims := Run(s, schedule), Aims(s, schedule);
      && |t.peers| == s.c.n
      && (forall k: nat | k < s.c.n :: k in aims <==> t.peers[k].etat == EnJeu) && (forall k | k in aims :: k < s.c.n)
      && Agree(s.server.board, s.c.size)
      && t.server.board ==
         Battered(s.server.board, set k | k in aims && InBoard(s.c.size, aims[k].x, aims[k].y) :: aims[k])
  {
    RoundRun(s, schedule);
    FirstStatus(s, schedule);
    AllLanded(s.server.board, Run(s, schedule), Aims(s, schedule));
  }

  lemma AllLanded(b: Board, t: State, aims: map<nat, Point>)
    requires RoundOk(b, t, aims) && t.server.phase == SendStatus && t.server.i == 0
    ensures |t.peers| == t.c.n && (forall k | k in aims :: k < t.c.n)
    ensures forall k: nat | k < t.c.n :: k in aims <==> t.peers[k].etat == EnJeu
    ensures t.server.board == Battered(b, set k | k in aims && InBoard(t.c.size, aims[k].x, aims[k].y) :: aims[k])
  {
    StagesAtStatus(t.server);
    forall k: nat | k < t.c.n ensures k in aims <==> t.peers[k].etat == EnJeu {
      assert AimAt(Stage(t.server, k), t.peers[k], k in aims, AimOf(aims, k), t.server.reponse.body);
    }
    WholeLanded(t.server, t.c.size, aims);
  }

  lemma StagesAtStatus(v: Server)
    requires v.phase == SendStatus && v.i == 0
    ensures forall k: nat :: Stage(v, k) == 11
  {
  }

  lemma WholeLanded(v: Server, size: int, aims: map<nat, Point>)
    requires forall k: nat :: Stage(v, k) == 11
    ensures Landed(v, size, aims) == set k | k in aims && InBoard(size, aims[k].x, aims[k].y) :: aims[k]
  {
  }

  /** The first status of a round is the one for the first player. */
  lemma FirstStatus(s: State, schedule: seq<Action>)
    requires Reachable(s) && s.server.phase == SendView && s.server.i == 0 && WithinShots(s, schedule)
    requires Run(s, schedule).server.phase == SendStatus
    ensures Run(s, schedule).server.i == 0
  {
    RoundRun(s, schedule);
    StatusOfFirst(Run(s, schedule), Aims(s, schedule));
  }

  lemma StatusOfFirst(t: State, aims: map<nat, Point>)
    requires AimsAt(t, aims) && t.server.phase == SendStatus && |t.peers| > 0
    ensures t.server.i == 0
  {
    assert AimAt(Stage(t.server, 0), t.peers[0], 0 in aims, AimOf(aims, 0), t.server.reponse.body);
  }

  /** Until the first shot is answered the board is the one at the head of the round. */
  lemma NoShotYetTaken(s: State, schedule: seq<Action>)
    requires Reachable(s) && s.server.phase == SendView && s.server.i == 0 && WithinShots(s, schedule)
    requires var v := Run(s, schedule).server; FreshPhase(v.phase) || (v.phase == RecvShot && v.i == 0)
    ensures Run(s, schedule).server.board == s.server.board
  {
    RoundRun(s, schedule);
    var t := Run(s, schedule);
    assert Landed(t.server, s.c.size, Aims(s, schedule)) == {};
    BatteredNone(s.server.board);
  }
}
