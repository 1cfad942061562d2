/**
 * The session handlers of server/lib/Server.js. The server keeps a
 * dictionary from identifiers to session objects; each socket remembers the
 * identifier it asked for, the session object it found and its player id.
 * Sessions are objects, so a socket keeps its session even after
 * `createSession` overwrites that identifier in the dictionary. The
 * transport is reduced to the value each handler passes to its callback
 * and the snapshot it emits to the session's room.
 */
module SessionServer {
  import opened Wrappers
  import opened Sessions
  import SessionIds

  class Session {
    var sessionId: string
    var started: bool
    var player: int
    var players: seq<PlayerRecord>
    var turns: seq<TurnEntry>

    /** The record as it is serialised to the clients. */
    function State(): SessionState
      reads this
    {
      SessionState(sessionId, started, player, players, turns)
    }

    constructor (sessionId: string)
      ensures State() == NewSession(sessionId)
    {
      this.sessionId := sessionId;
      started := false;
      player := 0;
      players := [PLAYERS[0]];
      turns := [];
    }
  }

  class Socket {
    var sessionId: Option<string>
    var session: Session?
    var playerId: Option<int>

    /** A freshly connected socket has none of the three set. */
    constructor ()
      ensures sessionId == None && session == null && playerId == None
    {
      sessionId := None;
      session := null;
      playerId := None;
    }

    /** The session this socket found, if any, is consistent. */
    ghost predicate Valid()
      reads this, session
    {
      session != null ==> Consistent(session.State())
    }
  }

  /** What `createSession` and `joinSession` pass to their callback. */
  datatype Reply = Reply(sessionId: string, playerId: int, state: SessionState)

  class Server {
    var sessions: map<string, Session>

    ghost predicate Valid()
      reads this, sessions.Values
    {
      forall id :: id in sessions ==> Consistent(sessions[id].State())
    }

    constructor ()
      ensures Valid() && sessions == map[]
    {
      sessions := map[];
    }

    /**
     * `onIOCreateSession`: a new lobby under the generated identifier (no
     * collision check, so an existing entry is replaced), the creator is
     * player 0, and the new session is emitted to its room.
     */
    method CreateSession(socket: Socket, draws: seq<int>) returns (reply: Reply, emitted: SessionState)
      requires Valid()
      requires |draws| == SessionIds.DefaultLength && SessionIds.ValidDraws(draws)
      modifies this, socket
      ensures Valid() && socket.Valid()
      ensures reply.sessionId == SessionIds.Spell(draws)
      ensures reply.sessionId in sessions && fresh(sessions[reply.sessionId])
      ensures sessions == old(sessions)[reply.sessionId := sessions[reply.sessionId]]
      ensures sessions[reply.sessionId].State() == NewSession(reply.sessionId)
      ensures socket.session == sessions[reply.sessionId]
      ensures socket.sessionId == Some(reply.sessionId) && socket.playerId == Some(0)
      ensures reply.playerId == 0 && reply.state == NewSession(reply.sessionId) && emitted == reply.state
    {
      var sessionId := SessionIds.CreateSessionId(draws);
      var session := new Session(sessionId);
      sessions := sessions[sessionId := session];
      socket.playerId := Some(0);
      socket.sessionId := Some(sessionId);
      socket.session := session;
      emitted := session.State();
      reply := Reply(sessionId, 0, session.State());
    }

    /**
     * `onIOJoinSession`: the socket records the identifier and the session
     * it finds BEFORE the checks, so a rejected socket still holds the
     * session. Rejections in order: `session_not_found`, `max_players`,
     * `game_already_started`. On success a copy of `PLAYERS[n]` is appended,
     * the socket becomes player `n` and the session is emitted.
     */
    method JoinSession(socket: Socket, sessionId: string) returns (r: Outcome<Reply>, emitted: Option<SessionState>)
      requires Valid()
      modifies socket, if sessionId in sessions then {sessions[sessionId]} else {}
      ensures Valid() && socket.Valid()
      ensures socket.sessionId == Some(sessionId)
      ensures socket.session == if sessionId in sessions then sessions[sessionId] else null
      ensures sessionId !in sessions ==> r == Rejected(SessionNotFound) && emitted == None
      ensures sessionId !in sessions ==> socket.playerId == old(socket.playerId)
      ensures sessionId in sessions ==>
        var s := sessions[sessionId];
        match Join(old(s.State()))
        case Accepted((s', id)) =>
          && s.State() == s' && socket.playerId == Some(id)
          && r == Accepted(Reply(sessionId, id, s')) && emitted == Some(s')
        case Rejected(e) =>
          && s.State() == old(s.State()) && socket.playerId == old(socket.playerId)
          && r == Rejected(e) && emitted == None
    {
      socket.sessionId := Some(sessionId);
      socket.session := if sessionId in sessions then sessions[sessionId] else null;
      if socket.session == null {
        return Rejected(SessionNotFound), None;
      }
      var session := socket.session;
      if |session.players| == |PLAYERS| {
        return Rejected(MaxPlayers), None;
      }
      if session.started {
        return Rejected(GameAlreadyStarted), None;
      }
      session.players := session.players + [PLAYERS[|session.players|]];
      socket.playerId := Some(|session.players| - 1);
      emitted := Some(session.State());
      r := Accepted(Reply(sessionId, |session.players| - 1, session.State()));
      assert session.players == PLAYERS[..|session.players|];
    }

    /**
     * `onIOStart`: `session_not_found` when the socket holds no session,
     * `Waiting for players...` with fewer than two players, else the
     * session is started and emitted.
     */
    method Start(socket: Socket) returns (r: Outcome<()>, emitted: Option<SessionState>)
      requires Valid() && socket.Valid()
      modifies socket.session
      ensures Valid() && socket.Valid()
      ensures socket.session == null ==> r == Rejected(SessionNotFound) && emitted == None
      ensures socket.session != null ==>
        var s := socket.session;
        match Sessions.Start(old(s.State()))
        case Accepted(s') => s.State() == s' && r == Accepted(()) && emitted == Some(s')
        case Rejected(e) => s.State() == old(s.State()) && r == Rejected(e) && emitted == None
    {
      var session := socket.session;
      if session == null {
        return Rejected(SessionNotFound), None;
      }
      if |session.players| < 2 {
        return Rejected(WaitingForPlayers), None;
      }
      session.started := true;
      emitted := Some(session.State());
      r := Accepted(());
    }

    /**
     * `onIOTurn`: `session_not_found` when the socket holds no session,
     * `Game not started!` before the start, else `{ playerId, direction, x, y }`
     * is appended with the socket's player id, whoever's turn it is and
     * whether or not the line is taken, and the current player moves on.
     */
    method Turn(socket: Socket, direction: string, x: int, y: int) returns (r: Outcome<()>, emitted: Option<SessionState>)
      requires Valid() && socket.Valid()
      modifies socket.session
      ensures Valid() && socket.Valid()
      ensures socket.session == null ==> r == Rejected(SessionNotFound) && emitted == None
      ensures socket.session != null ==>
        var s := socket.session;
        match Sessions.Turn(old(s.State()), TurnEntry(socket.playerId, direction, x, y))
        case Accepted(s') => s.State() == s' && r == Accepted(()) && emitted == Some(s')
        case Rejected(e) => s.State() == old(s.State()) && r == Rejected(e) && emitted == None
    {
      var session := socket.session;
      if session == null {
        return Rejected(SessionNotFound), None;
      }
      if !session.started {
        return Rejected(GameNotStarted), None;
      }
      session.turns := session.turns + [TurnEntry(socket.playerId, direction, x, y)];
      session.player := session.player + 1;
      if session.player > |session.players| - 1 {
        session.player := 0;
      }
      NextPlayerIsModular(old(session.player), |session.players|);
      emitted := Some(session.State());
      r := Accepted(());
    }
  }
}
