/**
 * The record a session of server/lib/Server.js holds, and what each socket
 * handler does to it once the session is found: `joinSession` appends a
 * player, `start` sets `started`, `turn` appends to the turn log and moves
 * the current player on. The roster entries are copies of the ordered player
 * records of config.js.
 */
module Sessions {
  import opened Wrappers

  /** A roster entry: a copy of one of the configured players. */
  datatype PlayerRecord = PlayerRecord(name: string, color: string)

  /** config.js `PLAYERS`, in order; `PORT` is not modelled. */
  const PLAYERS: seq<PlayerRecord> := [
    PlayerRecord("Mr. Pink", "pink"),
    PlayerRecord("Mr. Orange", "orange"),
    PlayerRecord("Mr. Blue", "blue"),
    PlayerRecord("Mr. Brown", "brown"),
    PlayerRecord("Mr. White", "white")
  ]

  /**
   * A turn log entry `{ playerId, direction, x, y }`. The server copies
   * whatever the client sent: `direction` is any string, and `playerId` is
   * the socket's, which is `undefined` (None) on a socket that never joined.
   */
  datatype TurnEntry = TurnEntry(playerId: Option<int>, direction: string, x: int, y: int)

  /** The session object `{ sessionId, started, player, players, turns }`. */
  datatype SessionState = SessionState(
    sessionId: string,
    started: bool,
    player: int,
    players: seq<PlayerRecord>,
    turns: seq<TurnEntry>)

  /** The rejections a handler passes to its callback. */
  datatype Rejection = SessionNotFound | MaxPlayers | GameAlreadyStarted | WaitingForPlayers | GameNotStarted

  /** The exact string each rejection sends to the client. */
  function Message(e: Rejection): string {
    match e
    case SessionNotFound => "session_not_found"
    case MaxPlayers => "max_players"
    case GameAlreadyStarted => "game_already_started"
    case WaitingForPlayers => "Waiting for players..."
    case GameNotStarted => "Game not started!"
  }

  datatype Outcome<T> = Accepted(value: T) | Rejected(reason: Rejection)

  /**
   * What every session reachable through the handlers satisfies: a
   * non-empty roster that is a prefix of `PLAYERS`, an in-range current
   * player, and a lobby (not started) with an untouched log and player 0.
   */
  ghost predicate Consistent(s: SessionState) {
    && 1 <= |s.players| <= |PLAYERS|
    && s.players == PLAYERS[..|s.players|]
    && 0 <= s.player < |s.players|
    && (s.started ==> |s.players| >= 2)
    && (!s.started ==> s.turns == [] && s.player == 0)
  }

  /** The record `onIOCreateSession` stores under a new identifier. */
  function NewSession(sessionId: string): (s: SessionState)
    ensures Consistent(s) && !s.started && s.turns == [] && s.player == 0
    ensures s.players == [PLAYERS[0]] && s.sessionId == sessionId
  {
    SessionState(sessionId, false, 0, [PLAYERS[0]], [])
  }

  /**
   * `onIOJoinSession` once the session is found: `max_players` when the
   * roster already has `PLAYERS.length` entries, else `game_already_started`,
   * else a copy of `PLAYERS[n]` is appended and the joiner's id is `n`.
   */
  function Join(s: SessionState): (r: Outcome<(SessionState, int)>)
    requires |s.players| <= |PLAYERS|
    ensures |s.players| == |PLAYERS| ==> r == Rejected(MaxPlayers)
    ensures |s.players| < |PLAYERS| && s.started ==> r == Rejected(GameAlreadyStarted)
    ensures |s.players| == |PLAYERS| ==> Message(r.reason) == "max_players"
    ensures |s.players| < |PLAYERS| && s.started ==> Message(r.reason) == "game_already_started"
    ensures r.Accepted? <==> |s.players| < |PLAYERS| && !s.started
    ensures r.Accepted? ==>
      var (s', id) := r.value;
      && id == |s.players|
      && s' == s.(players := s.players + [PLAYERS[id]])
  {
    if |s.players| == |PLAYERS| then Rejected(MaxPlayers)
    else if s.started then Rejected(GameAlreadyStarted)
    else Accepted((s.(players := s.players + [PLAYERS[|s.players|]]), |s.players|))
  }

  /** `onIOStart` once the session is found. */
  function Start(s: SessionState): (r: Outcome<SessionState>)
    ensures r.Accepted? <==> |s.players| >= 2
    ensures r.Rejected? ==> r.reason == WaitingForPlayers && Message(r.reason) == "Waiting for players..."
    ensures r.Accepted? ==> r.value == s.(started := true)
  {
    if |s.players| < 2 then Rejected(WaitingForPlayers) else Accepted(s.(started := true))
  }

  /** `session.player + 1`, reset to 0 when it passes the last roster index. */
  function NextPlayer(player: int, count: int): int {
    if player + 1 > count - 1 then 0 else player + 1
  }

  /**
   * `onIOTurn` once the session is found: rejected only when the game has
   * not started. The turn-order check is commented out in the source and
   * there is no line-occupancy check, so any player id and any line is
   * logged.
   */
  function Turn(s: SessionState, e: TurnEntry): (r: Outcome<SessionState>)
    ensures r.Accepted? <==> s.started
    ensures r.Rejected? ==> r.reason == GameNotStarted && Message(r.reason) == "Game not started!"
    ensures r.Accepted? ==>
      && r.value.turns == s.turns + [e]
      && r.value.players == s.players && r.value.started && r.value.sessionId == s.sessionId
  {
    if !s.started then Rejected(GameNotStarted)
    else Accepted(s.(turns := s.turns + [e], player := NextPlayer(s.player, |s.players|)))
  }

  /** The wrap-around is advancement modulo the roster size. */
  lemma NextPlayerIsModular(player: int, count: int)
    requires 0 <= player < count
    ensures NextPlayer(player, count) == (player + 1) % count
    ensures 0 <= NextPlayer(player, count) < count
  {
    if player + 1 < count {
      assert (player + 1) % count == player + 1;
    } else {
      assert player + 1 == count;
    }
  }

  /** A request of one of the three handlers that act on an existing session. */
  datatype Request = JoinRequest | StartRequest | TurnRequest(entry: TurnEntry)

  /** The session after one request: the handler's new state if it accepts, the old one if it rejects. */
  function Step(s: SessionState, q: Request): (r: SessionState)
    requires |s.players| <= |PLAYERS|
  {
    match q
    case JoinRequest => (match Join(s) case Accepted((s', _)) => s' case Rejected(_) => s)
    case StartRequest => (match Start(s) case Accepted(s') => s' case Rejected(_) => s)
    case TurnRequest(e) => (match Turn(s, e) case Accepted(s') => s' case Rejected(_) => s)
  }

  /** Every handler keeps a session consistent, whether it accepts or rejects. */
  lemma StepConsistent(s: SessionState, q: Request)
    requires Consistent(s)
    ensures Consistent(Step(s, q))
  {
    match q
    case JoinRequest =>
      if Join(s).Accepted? {
        var s' := Join(s).value.0;
        assert s'.players == PLAYERS[..|s.players| + 1];
      }
    case StartRequest =>
    case TurnRequest(e) =>
      if s.started {
        NextPlayerIsModular(s.player, |s.players|);
      }
  }

  /** The session after a sequence of requests, applied left to right. */
  function Run(s: SessionState, qs: seq<Request>): SessionState
    requires Consistent(s)
    ensures Consistent(Run(s, qs))
    decreases |qs|
  {
    if qs == [] then s
    else
      StepConsistent(s, qs[0]);
      Run(Step(s, qs[0]), qs[1..])
  }

  /** What a single request can and cannot change. */
  lemma StepMonotone(s: SessionState, q: Request)
    requires Consistent(s)
    ensures var t := Step(s, q);
      && t.sessionId == s.sessionId
      && (s.started ==> t.started)
      && s.players <= t.players
      && s.turns <= t.turns
      && |t.turns| <= |s.turns| + 1
  {
  }

  /**
   * Over any sequence of requests: the identifier never changes, `started`
   * is never reset, the roster and the turn log are only appended to, and
   * there are never more than `PLAYERS.length` players.
   */
  lemma {:induction false} RunMonotone(s: SessionState, qs: seq<Request>)
    requires Consistent(s)
    ensures var t := Run(s, qs);
      && t.sessionId == s.sessionId
      && (s.started ==> t.started)
      && s.players <= t.players
      && s.turns <= t.turns
      && |t.players| <= |PLAYERS|
      && 0 <= t.player < |t.players|
    decreases |qs|
  {
    if qs != [] {
      StepConsistent(s, qs[0]);
      StepMonotone(s, qs[0]);
      RunMonotone(Step(s, qs[0]), qs[1..]);
    }
  }

  /** The number of accepted turns is the growth of the log: one entry per turn request, at most. */
  function TurnRequests(qs: seq<Request>): nat {
    if qs == [] then 0 else (if qs[0].TurnRequest? then 1 else 0) + TurnRequests(qs[1..])
  }

  lemma {:induction false} RunTurnsBound(s: SessionState, qs: seq<Request>)
    requires Consistent(s)
    ensures |Run(s, qs).turns| <= |s.turns| + TurnRequests(qs)
    decreases |qs|
  {
    if qs != [] {
      StepConsistent(s, qs[0]);
      RunTurnsBound(Step(s, qs[0]), qs[1..]);
    }
  }

  /**
   * Neither turn order nor line occupancy is checked: in a started game the
   * same entry is logged twice in a row, whoever sends it.
   */
  lemma DuplicateTurnsAccepted(s: SessionState, e: TurnEntry)
    requires Consistent(s) && s.started
    ensures Turn(s, e).Accepted?
    ensures Turn(Turn(s, e).value, e).Accepted?
    ensures Turn(Turn(s, e).value, e).value.turns == s.turns + [e, e]
  {
  }

  /** An accepted turn advances the current player modulo the roster, box closed or not. */
  lemma TurnAdvancesPlayer(s: SessionState, e: TurnEntry)
    requires Consistent(s) && s.started
    ensures Turn(s, e).Accepted?
    ensures Turn(s, e).value.player == (s.player + 1) % |s.players|
  {
    NextPlayerIsModular(s.player, |s.players|);
  }
}
