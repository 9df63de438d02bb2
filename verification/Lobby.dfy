/** The lobby: the accept loop of attente_joueur and the key thread attente_joueur_thread share
    `nbJoueur`, `etat` and the player table. Each access to a shared variable is a step of its own. */
module Lobby {
  import opened Board

  /** Program points of the accept loop. */
  datatype Main =
    | Top                       // compare nbJoueur with maxJoueur
    | Joining                   // full: wait for the thread to exit
    | Accepting                 // accepterClt
    | Connected(conn: nat)      // test etat
    | Identifying(conn: nat)    // "ok" sent, identification awaited
    | Writing(conn: nat)        // fill players[nbJoueur]
    | Counting(conn: nat)       // nbJoueur++
    | Launched

  /** Program points of the key thread. */
  datatype Thread =
    | Polling                   // getch
    | Testing                   // ENTER: compare nbJoueur with 2
    | Starting                  // etat = 1
    | Exited

  datatype Player = Player(id: int, conn: nat)

  /** `accepted` and `rejected` are the histories of identifications. */
  datatype State = State(nbJoueur: nat, maxJoueur: nat, etat: int, players: seq<Player>, main: Main, thread: Thread,
                         conns: nat, accepted: seq<nat>, rejected: set<nat>)

  /** A step of the accept loop, with the id of the identification it reads there, or a step of the
      thread, with whether the key it reads is ENTER. */
  datatype Action = MainStep(id: int) | ThreadStep(enter: bool)

  predicate Enabled(s: State, a: Action) {
    match a
    case MainStep(_) => s.main != Launched && (s.main == Joining ==> s.thread == Exited)
    case ThreadStep(_) => s.thread != Exited
  }

  function MainNext(s: State, id: int): State {
    match s.main
    case Top => s.(main := if s.nbJoueur == s.maxJoueur then Joining else Accepting)
    case Joining => s.(main := Launched)
    case Accepting => s.(main := Connected(s.conns), conns := s.conns + 1)
    case Connected(c) => s.(main := if s.etat == 1 then Launched else Identifying(c))
    case Identifying(c) =>
      if id == 1 then s.(main := Writing(c)) else s.(main := Top, rejected := s.rejected + {c})
    case Writing(c) =>
      s.(main := Counting(c),
         players := if s.nbJoueur < |s.players| then s.players[s.nbJoueur := Player(s.nbJoueur, c)] else s.players)
    case Counting(c) => s.(main := Top, nbJoueur := s.nbJoueur + 1, accepted := s.accepted + [c])
    case Launched => s
  }

  function ThreadNext(s: State, enter: bool): State {
    match s.thread
    case Polling => if enter then s.(thread := Testing) else s
    case Testing => s.(thread := if s.nbJoueur < 2 then Polling else Starting)
    case Starting => s.(thread := Exited, etat := 1)
    case Exited => s
  }

  function Next(s: State, a: Action): State {
    if !Enabled(s, a) then s
    else match a
      case MainStep(id) => MainNext(s, id)
      case ThreadStep(enter) => ThreadNext(s, enter)
  }

  function Run(s: State, schedule: seq<Action>): State {
    if schedule == [] then s else Next(Run(s, schedule[..|schedule| - 1]), schedule[|schedule| - 1])
  }

  ghost predicate Initial(s: State) {
    && s.nbJoueur == 0 && s.etat == 0 && 2 <= s.maxJoueur <= MAX_PLAYER && |s.players| == MAX_PLAYER
    && s.main == Top && s.thread == Polling && s.accepted == [] && s.rejected == {}
  }

  /** The connection being served, if any. */
  function Serving(m: Main): int {
    match m
    case Connected(c) => c case Identifying(c) => c case Writing(c) => c case Counting(c) => c
    case _ => -1
  }

  ghost predicate Inv(s: State) {
    && 2 <= s.maxJoueur <= MAX_PLAYER == |s.players| && s.nbJoueur <= s.maxJoueur
    && (s.main != Top && s.main != Joining && s.main != Launched ==> s.nbJoueur < s.maxJoueur)
    && (s.main == Joining ==> s.nbJoueur == s.maxJoueur)
    && (s.thread == Starting || s.thread == Exited ==> s.nbJoueur >= 2)
    && (s.etat == 1 <==> s.thread == Exited) && (s.main == Launched ==> s.etat == 1)
    && |s.accepted| == s.nbJoueur
    && (forall k | 0 <= k < s.nbJoueur :: s.players[k] == Player(k, s.accepted[k]))
    && (s.main.Counting? ==> s.players[s.nbJoueur] == Player(s.nbJoueur, s.main.conn))
    && (forall k | 0 <= k < s.nbJoueur :: s.accepted[k] < s.conns && s.accepted[k] != Serving(s.main))
    && (forall c | c in s.rejected :: c < s.conns && c != Serving(s.main) && c !in s.accepted)
    && (forall k, m | 0 <= k < m < s.nbJoueur :: s.accepted[k] != s.accepted[m])
    && Serving(s.main) < s.conns
  }

  lemma MainKeeps(s: State, id: int)
    requires Inv(s) && Enabled(s, MainStep(id))
    ensures Inv(MainNext(s, id))
  {
  }

  lemma StepKeeps(s: State, a: Action)
    requires Inv(s)
    ensures Inv(Next(s, a))
  {
    if a.MainStep? && Enabled(s, a) { MainKeeps(s, a.id); }
  }

  lemma {:induction false} RunKeeps(s: State, schedule: seq<Action>)
    requires Inv(s)
    ensures Inv(Run(s, schedule))
  {
    if schedule != [] {
      RunKeeps(s, schedule[..|schedule| - 1]);
      StepKeeps(Run(s, schedule[..|schedule| - 1]), schedule[|schedule| - 1]);
    }
  }

  /** Whatever the interleaving, the player table holds each accepted connection once, in order of
      arrival, under its own index, and no rejected one; and the game is launched only by the key
      thread, with at least two players and no more than the table was opened for. */
  lemma LobbySound(start: State, schedule: seq<Action>)
    requires Initial(start)
    ensures var s := Run(start, schedule);
      && s.nbJoueur == |s.accepted| <= s.maxJoueur <= |s.players|
      && (forall k | 0 <= k < s.nbJoueur :: s.players[k].id == k && s.players[k].conn == s.accepted[k])
      && (forall k, m | 0 <= k < m < s.nbJoueur :: s.players[k].conn != s.players[m].conn)
      && (forall k | 0 <= k < s.nbJoueur :: s.players[k].conn !in s.rejected)
      && (s.main == Launched ==> s.nbJoueur >= 2 && s.etat == 1 && s.thread == Exited)
  {
    RunKeeps(start, schedule);
  }

  // ----- who gets in, told by the schedule alone -----

  /** An identification read: the connection that gives it and the id it gives. */
  datatype Answer = Answer(conn: nat, id: int)

  /** The identifications read in the course of a schedule. */
  function Answers(s: State, schedule: seq<Action>): seq<Answer> {
    if schedule == [] then []
    else
      var before, a := schedule[..|schedule| - 1], schedule[|schedule| - 1];
      var t := Run(s, before);
      if a.MainStep? && t.main.Identifying? then Answers(s, before) + [Answer(t.main.conn, a.id)]
      else Answers(s, before)
  }

  /** The connections that answered 1, in order. */
  function Ones(answers: seq<Answer>): seq<nat> {
    if answers == [] then []
    else
      var last := answers[|answers| - 1];
      Ones(answers[..|answers| - 1]) + if last.id == 1 then [last.conn] else []
  }

  /** The connection whose player entry is being written or about to be counted. */
  function Pending(m: Main): seq<nat> {
    match m
    case Writing(c) => [c]
    case Counting(c) => [c]
    case _ => []
  }

  lemma AnswersStep(s: State, schedule: seq<Action>, a: Action)
    ensures var t := Run(s, schedule);
      Answers(s, schedule + [a]) ==
        Answers(s, schedule) + if a.MainStep? && t.main.Identifying? then [Answer(t.main.conn, a.id)] else []
    ensures Run(s, schedule + [a]) == Next(Run(s, schedule), a)
  {
    assert (schedule + [a])[..|schedule|] == schedule;
  }

  lemma OnesStep(answers: seq<Answer>, last: Answer)
    ensures Ones(answers + [last]) == Ones(answers) + if last.id == 1 then [last.conn] else []
  {
    assert (answers + [last])[..|answers|] == answers;
  }

  /** The histories that the invariant speaks of are those of the schedule. */
  ghost predicate Recalls(t: State, answers: seq<Answer>) {
    && t.accepted + Pending(t.main) == Ones(answers)
    && (forall i | 0 <= i < |answers| && answers[i].id != 1 :: answers[i].conn in t.rejected)
  }

  lemma RecallsStep(t: State, answers: seq<Answer>, a: Action)
    requires Inv(t) && Recalls(t, answers)
    ensures var more := if a.MainStep? && t.main.Identifying? then [Answer(t.main.conn, a.id)] else [];
      Recalls(Next(t, a), answers + more)
  {
    if a.MainStep? && t.main.Identifying? {
      OnesStep(answers, Answer(t.main.conn, a.id));
    } else {
      assert answers + [] == answers;
    }
  }

  lemma {:induction false} RunRecalls(start: State, schedule: seq<Action>)
    requires Initial(start)
    ensures Inv(Run(start, schedule)) && Recalls(Run(start, schedule), Answers(start, schedule))
  {
    if schedule != [] {
      var before, a := schedule[..|schedule| - 1], schedule[|schedule| - 1];
      RunRecalls(start, before);
      StepKeeps(Run(start, before), a);
      RecallsStep(Run(start, before), Answers(start, before), a);
      assert before + [a] == schedule;
      AnswersStep(start, before, a);
    }
  }

  /** The players, followed by the one being entered, are in order exactly the connections that answered 1; a
      connection that answered anything else is in no slot. */
  lemma PlayersAnsweredOne(start: State, schedule: seq<Action>)
    requires Initial(start)
    ensures var s, answers := Run(start, schedule), Answers(start, schedule);
      && s.nbJoueur <= |s.players|
      && seq(s.nbJoueur, k requires 0 <= k < s.nbJoueur => s.players[k].conn) + Pending(s.main) == Ones(answers)
      && (forall i, k | 0 <= i < |answers| && answers[i].id != 1 && 0 <= k < s.nbJoueur ::
            s.players[k].conn != answers[i].conn)
  {
    RunRecalls(start, schedule);
    var s := Run(start, schedule);
    assert seq(s.nbJoueur, k requires 0 <= k < s.nbJoueur => s.players[k].conn) == s.accepted;
  }

  // ----- starting the game -----

  function ThreadSteps(schedule: seq<Action>): nat {
    if schedule == [] then 0
    else ThreadSteps(schedule[..|schedule| - 1]) + if schedule[|schedule| - 1].ThreadStep? then 1 else 0
  }

  /** ENTER with two players or more starts the game: two steps of the thread later, whatever the accept loop does in
      between, the thread is gone and `etat` is 1. */
  lemma {:induction false} EnterStarts(s: State, schedule: seq<Action>)
    requires Inv(s) && s.thread == Polling && s.nbJoueur >= 2
    ensures var t, n := Run(Next(s, ThreadStep(true)), schedule), ThreadSteps(schedule);
      && Inv(t) && t.nbJoueur >= 2
      && t.thread == (if n == 0 then Testing else if n == 1 then Starting else Exited)
      && (t.etat == 1 <==> n >= 2)
  {
    if schedule == [] {
      StepKeeps(s, ThreadStep(true));
    } else {
      var before := schedule[..|schedule| - 1];
      EnterStarts(s, before);
      StepKeeps(Run(Next(s, ThreadStep(true)), before), schedule[|schedule| - 1]);
    }
  }

  /** With fewer than two players ENTER does nothing, and no other key ever does. */
  lemma EnterTooEarly(s: State)
    requires s.thread == Polling
    ensures Next(s, ThreadStep(false)) == s
    ensures s.nbJoueur < 2 ==> Next(Next(s, ThreadStep(true)), ThreadStep(true)) == s
    ensures s.nbJoueur < 2 ==> Next(Next(s, ThreadStep(true)), ThreadStep(false)) == s
  {
  }

  // ----- after the start -----

  function MainSteps(schedule: seq<Action>): nat {
    if schedule == [] then 0
    else MainSteps(schedule[..|schedule| - 1]) + if schedule[|schedule| - 1].MainStep? then 1 else 0
  }

  /** Steps of the accept loop that are left to it once the game is started, at most. */
  function ToGo(m: Main): nat {
    match m
    case Launched => 0
    case Joining => 1
    case Connected(_) => 1
    case Accepting => 2
    case Top => 3
    case Counting(_) => 4
    case Writing(_) => 5
    case Identifying(_) => 6
  }

  /** Once the game is started, the accept loop launches it within six of its steps, whatever the interleaving. */
  lemma {:induction false} LaunchFollows(s: State, schedule: seq<Action>)
    requires Inv(s) && s.etat == 1
    ensures var t := Run(s, schedule);
      Inv(t) && t.etat == 1 && (ToGo(t.main) == 0 || ToGo(t.main) + MainSteps(schedule) <= ToGo(s.main))
    ensures MainSteps(schedule) >= 6 ==> Run(s, schedule).main == Launched
  {
    if schedule != [] {
      LaunchFollows(s, schedule[..|schedule| - 1]);
      StepKeeps(Run(s, schedule[..|schedule| - 1]), schedule[|schedule| - 1]);
    }
  }

  /** Somebody is being identified or entered. */
  predicate Entering(m: Main) { m.Identifying? || m.Writing? || m.Counting? }

  /** Once the game is started nobody is let in who was not being identified already: a connection that comes later
      is not even asked. */
  lemma {:induction false} NobodyAfterStart(s: State, schedule: seq<Action>)
    requires Inv(s) && s.etat == 1 && !Entering(s.main)
    ensures var t := Run(s, schedule);
      Inv(t) && t.etat == 1 && !Entering(t.main) && t.nbJoueur == s.nbJoueur && t.players == s.players
    ensures Answers(s, schedule) == []
  {
    if schedule != [] {
      NobodyAfterStart(s, schedule[..|schedule| - 1]);
      StepKeeps(Run(s, schedule[..|schedule| - 1]), schedule[|schedule| - 1]);
    }
  }

  /** Before the start everybody who connects is asked, as long as there is room. */
  lemma BeforeStart(s: State, id: int)
    requires Inv(s) && s.etat != 1
    ensures s.main == Top && s.nbJoueur < s.maxJoueur ==> Next(s, MainStep(id)).main == Accepting
    ensures s.main == Accepting ==> Next(s, MainStep(id)).main == Connected(s.conns)
    ensures s.main.Connected? ==> Next(s, MainStep(id)).main == Identifying(s.main.conn)
  {
  }
}
