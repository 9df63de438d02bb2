/** A session from the parameter menu through the lobby into the game. */
module Session {
  import opened Placement
  import opened Protocol
  import opened ProtocolTheorems
  import Fleets
  import Lobby

  /** The g-th game launched by the keys, in the lobby that the schedule leads to. */
  ghost predicate Opened(keys: seq<Key>, g: nat, lobby: Lobby.State, schedule: seq<Lobby.Action>) {
    && g < |Pressed(keys).launched|
    && Lobby.Initial(lobby) && lobby.maxJoueur == Pressed(keys).launched[g].maxJoueur
    && Lobby.Run(lobby, schedule).main == Lobby.Launched
  }

  ghost function GameOf(keys: seq<Key>, g: nat, lobby: Lobby.State, schedule: seq<Lobby.Action>): Config
    requires Opened(keys, g, lobby, schedule)
  {
    var p := Pressed(keys).launched[g];
    MenuKeepsParams(keys);
    Config(Lobby.Run(lobby, schedule).nbJoueur, p.taillePlateau, p.tailleBateau, p.timeout)
  }

  /** Whatever keys set the parameters and whoever came to the lobby, the game that starts is one that the
      protocol's results are about. */
  lemma SessionPlayable(keys: seq<Key>, g: nat, lobby: Lobby.State, schedule: seq<Lobby.Action>)
    requires Opened(keys, g, lobby, schedule)
    ensures ConfigOk(GameOf(keys, g, lobby, schedule))
    ensures var c, p := GameOf(keys, g, lobby, schedule), Pressed(keys).launched[g];
      && c.n == Lobby.Run(lobby, schedule).nbJoueur <= p.maxJoueur
      && c.size == p.taillePlateau && c.taille == p.tailleBateau && c.timeout == p.timeout
  {
    MenuKeepsParams(keys);
    Lobby.LobbySound(lobby, schedule);
    LobbyKeepsLimit(lobby, schedule);
  }

  lemma {:induction false} LobbyKeepsLimit(lobby: Lobby.State, schedule: seq<Lobby.Action>)
    ensures Lobby.Run(lobby, schedule).maxJoueur == lobby.maxJoueur
  {
    if schedule != [] { LobbyKeepsLimit(lobby, schedule[..|schedule| - 1]); }
  }

  /** From the menu to any point of the game: the state is one that a game can be in, every client is in
      step with the server, and unless the game is over someone can move. */
  lemma SessionSafe(keys: seq<Key>, g: nat, lobby: Lobby.State, schedule: seq<Lobby.Action>,
                    start: State, actions: seq<Action>)
    requires Opened(keys, g, lobby, schedule) && AtStart(start) && start.c == GameOf(keys, g, lobby, schedule)
    ensures Reachable(Run(start, actions)) && Safe(Run(start, actions))
  {
    SessionPlayable(keys, g, lobby, schedule);
    RunReachable(start, actions);
    ReachableSafe(Run(start, actions));
  }

  ghost predicate Safe(s: State) {
    AllInStep(s) && CanGoOn(s)
  }

  ghost predicate AllInStep(s: State) {
    |s.peers| == s.c.n && forall k | 0 <= k < s.c.n :: InLockstep(s, k)
  }

  /** Unless the game is over someone can move. */
  ghost predicate CanGoOn(s: State) {
    s.server.phase != Done ==> exists a :: Enabled(s, a)
  }

  lemma RunReachable(start: State, actions: seq<Action>)
    requires Initial(start)
    ensures Reachable(Run(start, actions))
  {
  }

  lemma ReachableSafe(s: State)
    requires Reachable(s)
    ensures Safe(s)
  {
    ReachableInStep(s);
    ReachableGoesOn(s);
  }

  lemma ReachableInStep(s: State)
    requires Reachable(s)
    ensures AllInStep(s)
  {
    ReachableInv(s);
    forall k | 0 <= k < s.c.n ensures |s.peers| == s.c.n && InLockstep(s, k) { Lockstep(s, k); }
  }

  lemma ReachableGoesOn(s: State)
    requires Reachable(s)
    ensures CanGoOn(s)
  {
    if s.server.phase != Done { NoDeadlock(s); }
  }

  /** There is such a start for every session. */
  lemma SessionStarts(c: Config) returns (start: State)
    requires ConfigOk(c)
    ensures Initial(start) && start.c == c
  {
    var newcomer := Peer(WaitInfos, EnJeu, c, Anchor(0, 0, 'd'), "", 0, [], [], []);
    start := State(c, Server(SendInfos, 0, 0, Msg(0, Blank), "", Fleets.EmptySea()),
                   seq(c.n, k requires 0 <= k < c.n => newcomer));
  }
}
