/**
 * The turn engine of the networked client (public/js/app.js) as functions
 * of a game state: `Line.setPlayer`, `Box.onLineClick`, the listeners'
 * `some`, `Game.nextTurn` and the replay `Game.setState`. The class in
 * module Replica runs the same steps on its fields and is proved against
 * these functions.
 *
 * An owner is a player id or nothing; JavaScript tests it for truthiness,
 * so an owner 0 counts as no owner.
 */
module ReplicaRules {
  import opened Wrappers
  import opened Board
  import opened Sessions

  /** `if (owner)`: set and not 0. */
  predicate Truthy(o: Option<int>) {
    o.Some? && o.value != 0
  }

  /** The client `Game`'s fields that the turn engine reads and writes. */
  datatype GameState = GameState(
    width: int,
    height: int,
    players: seq<PlayerRecord>,
    player: int,
    h: seq<seq<Line<int>>>,
    v: seq<seq<Line<int>>>,
    boxes: seq<seq<Box<int>>>)

  /** The arrays are those of a finished `width × height` grid. */
  ghost predicate Wf(s: GameState) {
    Grid(s.width, s.height, s.h, s.v, s.boxes)
  }

  function LineOwner(s: GameState, r: LineRef): Option<int> {
    match Lookup(s.h, s.v, r)
    case Some(line) => line.player
    case None => None
  }

  function BoxOwner(s: GameState, b: BoxRef): Option<int> {
    match BoxAt(s.boxes, b)
    case Some(box) => box.player
    case None => None
  }

  /** Two states that differ at most in the owners of lines and boxes and the current player. */
  ghost predicate SameSkeleton(s: GameState, t: GameState) {
    && s.width == t.width && s.height == t.height && s.players == t.players
    && |s.h| == |t.h| && (forall a :: 0 <= a < |s.h| ==> |s.h[a]| == |t.h[a]|)
    && |s.v| == |t.v| && (forall a :: 0 <= a < |s.v| ==> |s.v[a]| == |t.v[a]|)
    && |s.boxes| == |t.boxes| && (forall b :: 0 <= b < |s.boxes| ==> |s.boxes[b]| == |t.boxes[b]|)
    && (forall a, b :: 0 <= a < |s.h| && 0 <= b < |s.h[a]| ==> s.h[a][b].(player := None) == t.h[a][b].(player := None))
    && (forall a, b :: 0 <= a < |s.v| && 0 <= b < |s.v[a]| ==> s.v[a][b].(player := None) == t.v[a][b].(player := None))
    && (forall b, a :: 0 <= b < |s.boxes| && 0 <= a < |s.boxes[b]| ==> s.boxes[b][a].(player := None) == t.boxes[b][a].(player := None))
  }

  lemma SameSkeletonTransitive(s: GameState, t: GameState, u: GameState)
    requires SameSkeleton(s, t) && SameSkeleton(t, u)
    ensures SameSkeleton(s, u)
  {
  }

  /** Owners do not enter the shape of a grid. */
  lemma WfTransfers(s: GameState, t: GameState)
    requires Wf(s) && SameSkeleton(s, t)
    ensures Wf(t)
  {
  }

  /** `line.player = p` on the line at r. */
  function SetLineOwner(s: GameState, r: LineRef, p: Option<int>): (t: GameState)
    ensures SameSkeleton(s, t) && t.player == s.player && t.boxes == s.boxes
    ensures forall q :: LineOwner(t, q) == if q == r && Lookup(s.h, s.v, r).Some? then p else LineOwner(s, q)
  {
    match Lookup(s.h, s.v, r)
    case None => s
    case Some(line) =>
      if r.dir == H then s.(h := s.h[r.x := s.h[r.x][r.y := line.(player := p)]])
      else s.(v := s.v[r.x := s.v[r.x][r.y := line.(player := p)]])
  }

  /** `box.player = p` on the box at b. */
  function SetBoxOwner(s: GameState, b: BoxRef, p: Option<int>): (t: GameState)
    ensures SameSkeleton(s, t) && t.player == s.player && t.h == s.h && t.v == s.v
    ensures forall c :: BoxOwner(t, c) == if c == b && BoxAt(s.boxes, b).Some? then p else BoxOwner(s, c)
  {
    match BoxAt(s.boxes, b)
    case None => s
    case Some(box) => s.(boxes := s.boxes[b.y := s.boxes[b.y][b.x := box.(player := p)]])
  }

  /** `lineLeft.player && lineTop.player && lineRight.player && lineBottom.player`. */
  predicate BoxComplete(s: GameState, b: BoxRef) {
    match BoxAt(s.boxes, b)
    case None => false
    case Some(box) =>
      && Truthy(LineOwner(s, box.lineLeft))
      && Truthy(LineOwner(s, box.lineTop))
      && Truthy(LineOwner(s, box.lineRight))
      && Truthy(LineOwner(s, box.lineBottom))
  }

  /** Whether a box is complete depends on the lines only. */
  lemma CompleteIgnoresBoxOwners(s: GameState, t: GameState, b: BoxRef)
    requires s.h == t.h && s.v == t.v && SameSkeleton(s, t)
    ensures BoxComplete(s, b) <==> BoxComplete(t, b)
  {
    if BoxAt(s.boxes, b).Some? {
      assert BoxAt(s.boxes, b).value.(player := None) == BoxAt(t.boxes, b).value.(player := None);
    }
  }

  /** `Box.onLineClick({ player })`: the box takes the owner when all four lines are owned, and says so. */
  function OnLineClick(s: GameState, b: BoxRef, p: Option<int>): (GameState, bool) {
    if BoxComplete(s, b) then (SetBoxOwner(s, b, p), true) else (s, false)
  }

  /** `listeners.some(listener => listener({ player }))`: stops at the first box that closes. */
  function Notify(s: GameState, listeners: seq<BoxRef>, p: Option<int>): (GameState, bool)
    decreases |listeners|
  {
    if listeners == [] then (s, false)
    else
      var (t, closed) := OnLineClick(s, listeners[0], p);
      if closed then (t, true) else Notify(t, listeners[1..], p)
  }

  /** `players[id]` exists: otherwise the colour lookups `players[id].color` throw. */
  predicate IsPlayerIndex(players: seq<PlayerRecord>, id: Option<int>) {
    id.Some? && 0 <= id.value < |players|
  }

  /** `allBoxesTaken` in `nextTurn`: no box is without a truthy owner. */
  predicate AllBoxesTaken(s: GameState) {
    forall b, a :: 0 <= b < |s.boxes| && 0 <= a < |s.boxes[b]| ==> Truthy(s.boxes[b][a].player)
  }

  /** `(player === players.length - 1) ? 0 : player + 1`. */
  function Advance(player: int, count: int): int {
    if player == count - 1 then 0 else player + 1
  }

  /**
   * `nextTurn({ nextPlayer })`. When every box is taken the winner branch
   * reads the undeclared variable `players` and throws, so the call
   * fails (false) with the current player unchanged; otherwise the player
   * advances when asked to.
   */
  function NextTurn(s: GameState, nextPlayer: bool): (GameState, bool) {
    if AllBoxesTaken(s) then (s, false)
    else if nextPlayer then (s.(player := Advance(s.player, |s.players|)), true)
    else (s, true)
  }

  /**
   * `Line.setPlayer(playerId)` on the line at r: nothing when the line has
   * a truthy owner; otherwise the line takes the owner, its listeners are
   * notified with `some`, and `nextTurn` runs with `nextPlayer` set when no
   * box closed. A `playerId` that is not an index of `players` makes the
   * colour lookup throw before `nextTurn`. The boolean is false when the
   * call threw.
   */
  function SetPlayer(s: GameState, r: LineRef, playerId: Option<int>): (GameState, bool) {
    match Lookup(s.h, s.v, r)
    case None => (s, false)
    case Some(line) =>
      if Truthy(line.player) then (s, true)
      else
        var (t, closed) := Notify(SetLineOwner(s, r, playerId), line.listeners, playerId);
        if !IsPlayerIndex(t.players, playerId) then (t, false)
        else NextTurn(t, !closed)
  }

  /**
   * `this.lines[direction][x][y]` for a logged turn: `'h'` or `'v'` and an
   * existing line; anything else reads `undefined` and the replay throws.
   */
  function Resolve(s: GameState, e: TurnEntry): Option<LineRef> {
    var dir := if e.direction == "h" then Some(H) else if e.direction == "v" then Some(V) else None;
    if dir.None? then None
    else
      var r := LineRef(dir.value, e.x, e.y);
      if Lookup(s.h, s.v, r).Some? then Some(r) else None
  }

  /** `turns.forEach(… line.setPlayer(playerId))`, stopping at the first turn that throws. */
  function Replay(s: GameState, turns: seq<TurnEntry>): (GameState, bool)
    decreases |turns|
  {
    if turns == [] then (s, true)
    else
      match Resolve(s, turns[0])
      case None => (s, false)
      case Some(r) =>
        var (t, ok) := SetPlayer(s, r, turns[0].playerId);
        if !ok then (t, false) else Replay(t, turns[1..])
  }

  /** `Game.setState({ players, turns })`: the roster is replaced, then the log is replayed. */
  function SetState(s: GameState, players: seq<PlayerRecord>, turns: seq<TurnEntry>): (GameState, bool) {
    Replay(s.(players := players), turns)
  }

  /**
   * `some` in registration order: the listeners close a box exactly when one
   * of them is complete, and then only the first complete one, which takes
   * the owner p; nothing else changes.
   */
  lemma {:induction false} NotifyClosesFirst(s: GameState, listeners: seq<BoxRef>, p: Option<int>)
    ensures var (t, closed) := Notify(s, listeners, p);
      && SameSkeleton(s, t) && t.h == s.h && t.v == s.v && t.player == s.player
      && (closed <==> exists k :: 0 <= k < |listeners| && BoxComplete(s, listeners[k]))
      && (!closed ==> t == s)
      && (closed ==> (exists k :: 0 <= k < |listeners| && BoxComplete(s, listeners[k])
                               && (forall j :: 0 <= j < k ==> !BoxComplete(s, listeners[j]))
                               && t == SetBoxOwner(s, listeners[k], p)))
    decreases |listeners|
  {
    if listeners != [] && !BoxComplete(s, listeners[0]) {
      var rest := listeners[1..];
      NotifyClosesFirst(s, rest, p);
      var (t, closed) := Notify(s, rest, p);
      if closed {
        var k :| 0 <= k < |rest| && BoxComplete(s, rest[k])
          && (forall j :: 0 <= j < k ==> !BoxComplete(s, rest[j]))
          && t == SetBoxOwner(s, rest[k], p);
        assert listeners[k + 1] == rest[k];
        forall j | 0 <= j < k + 1 ensures !BoxComplete(s, listeners[j]) {
          if j > 0 { assert listeners[j] == rest[j - 1]; }
        }
      } else {
        forall k | 0 <= k < |listeners| ensures !BoxComplete(s, listeners[k]) {
          if k > 0 { assert listeners[k] == rest[k - 1]; }
        }
      }
    }
  }

  /** The circular advance stays among the players. */
  lemma AdvanceInRange(player: int, count: int)
    requires 0 <= player < count
    ensures 0 <= Advance(player, count) < count
    ensures Advance(player, count) == (player + 1) % count
  {
    if player + 1 < count {
      assert (player + 1) % count == player + 1;
    }
  }

  /** Lookups see only the shape of the arrays. */
  lemma LookupSkeleton(s: GameState, t: GameState, r: LineRef)
    requires SameSkeleton(s, t)
    ensures Lookup(s.h, s.v, r).Some? == Lookup(t.h, t.v, r).Some?
    ensures Lookup(s.h, s.v, r).Some? ==> Lookup(s.h, s.v, r).value.listeners == Lookup(t.h, t.v, r).value.listeners
  {
    if Lookup(s.h, s.v, r).Some? {
      var a, b := r.x, r.y;
      if r.dir == H {
        assert s.h[a][b].(player := None) == t.h[a][b].(player := None);
      } else {
        assert s.v[a][b].(player := None) == t.v[a][b].(player := None);
      }
    }
  }

  /** How a logged turn resolves depends on the shape of the arrays only. */
  lemma ResolveSkeleton(s: GameState, t: GameState, e: TurnEntry)
    requires SameSkeleton(s, t)
    ensures Resolve(s, e) == Resolve(t, e)
  {
    LookupSkeleton(s, t, LineRef(H, e.x, e.y));
    LookupSkeleton(s, t, LineRef(V, e.x, e.y));
  }

  /** A box is complete exactly when its four sides have truthy owners. */
  lemma CompleteSides(s: GameState, c: BoxRef)
    ensures BoxComplete(s, c) <==>
      BoxAt(s.boxes, c).Some? && forall q :: q in Sides(BoxAt(s.boxes, c).value) ==> Truthy(LineOwner(s, q))
  {
  }

  /**
   * `Line.setPlayer(playerId)`: a line with a truthy owner is left alone.
   * Otherwise the line, and no other line, takes the owner; a box changes
   * owner only if it listens to this line and is complete once the line is
   * owned, and then it takes `playerId`; the call fails exactly when
   * `playerId` is not a player or every box is now taken; and the current
   * player moves on only when the call succeeds and no listener was
   * complete (closing a box keeps the turn).
   */
  lemma SetPlayerEffect(s: GameState, r: LineRef, playerId: Option<int>)
    requires Lookup(s.h, s.v, r).Some?
    ensures var (t, ok) := SetPlayer(s, r, playerId);
      var listeners := Lookup(s.h, s.v, r).value.listeners;
      var written := SetLineOwner(s, r, playerId);
      && SameSkeleton(s, t)
      && (Truthy(LineOwner(s, r)) ==> t == s && ok)
      && (!Truthy(LineOwner(s, r)) ==>
            && LineOwner(t, r) == playerId
            && (forall q :: q != r ==> LineOwner(t, q) == LineOwner(s, q))
            && (forall c :: BoxOwner(t, c) != BoxOwner(s, c) ==>
                  c in listeners && BoxComplete(written, c) && BoxOwner(t, c) == playerId)
            && (ok <==> IsPlayerIndex(s.players, playerId) && !AllBoxesTaken(t))
            && var closed := exists k :: 0 <= k < |listeners| && BoxComplete(written, listeners[k]);
               t.player == if ok && !closed then Advance(s.player, |s.players|) else s.player)
  {
    var line := Lookup(s.h, s.v, r).value;
    if !Truthy(line.player) {
      var written := SetLineOwner(s, r, playerId);
      NotifyClosesFirst(written, line.listeners, playerId);
      var (n, closed) := Notify(written, line.listeners, playerId);
      assert SetPlayer(s, r, playerId) ==
        if !IsPlayerIndex(n.players, playerId) then (n, false) else NextTurn(n, !closed);
      NotifiedBoxes(written, line.listeners, playerId);
      SameOwners(s, written);
      SameOwners(written, n);
      SameSkeletonTransitive(s, written, n);
    }
  }

  /** After the write and `some`, `setPlayer` changes at most the current player. */
  lemma SetPlayerNotified(s: GameState, r: LineRef, playerId: Option<int>)
    requires Lookup(s.h, s.v, r).Some? && !Truthy(LineOwner(s, r))
    ensures var n := Notify(SetLineOwner(s, r, playerId), Lookup(s.h, s.v, r).value.listeners, playerId).0;
      var t := SetPlayer(s, r, playerId).0;
      t == n || t == n.(player := Advance(n.player, |n.players|))
  {
  }

  /** Line owners are read from the line arrays only, box owners from the box array only. */
  lemma SameOwners(s: GameState, t: GameState)
    ensures s.h == t.h && s.v == t.v ==> forall q :: LineOwner(t, q) == LineOwner(s, q)
    ensures s.boxes == t.boxes ==> forall c :: BoxOwner(t, c) == BoxOwner(s, c)
  {
  }

  /** The boxes whose owner `some` changed: complete listeners, now owned by p. */
  lemma {:induction false} NotifiedBoxes(s: GameState, ls: seq<BoxRef>, p: Option<int>)
    ensures var t := Notify(s, ls, p).0;
      forall c :: BoxOwner(t, c) != BoxOwner(s, c) ==> c in ls && BoxComplete(s, c) && BoxOwner(t, c) == p
    decreases |ls|
  {
    if ls != [] && !BoxComplete(s, ls[0]) {
      NotifiedBoxes(s, ls[1..], p);
    }
  }

  /** A player index is kept among the players. */
  lemma SetPlayerKeepsPlayerInRange(s: GameState, r: LineRef, playerId: Option<int>)
    requires 0 <= s.player < |s.players|
    ensures var t := SetPlayer(s, r, playerId).0; t.players == s.players && 0 <= t.player < |s.players|
  {
    if Lookup(s.h, s.v, r).Some? {
      SetPlayerEffect(s, r, playerId);
      AdvanceInRange(s.player, |s.players|);
    }
  }

  /**
   * The invariant of the client's boxes: a box that has an owner has a
   * truthy one and four lines with truthy owners.
   */
  ghost predicate Valid(s: GameState) {
    && Wf(s)
    && forall c :: BoxOwner(s, c).Some? ==> Truthy(BoxOwner(s, c)) && BoxComplete(s, c)
  }

  /** A line's listeners are boxes of which it is a side. */
  lemma ListenersHaveSide(s: GameState, r: LineRef)
    requires Wf(s) && Lookup(s.h, s.v, r).Some?
    ensures forall c :: c in Lookup(s.h, s.v, r).value.listeners ==>
      BoxAt(s.boxes, c).Some? && r in Sides(BoxAt(s.boxes, c).value)
  {
    forall c | c in Lookup(s.h, s.v, r).value.listeners
      ensures BoxAt(s.boxes, c).Some? && r in Sides(BoxAt(s.boxes, c).value)
    {
      Adjacency(s.width, s.height, s.h, s.v, s.boxes, r, c);
    }
  }

  /** One box after `setPlayer` on a line without a truthy owner. */
  lemma SetPlayerBox(s: GameState, r: LineRef, playerId: Option<int>, c: BoxRef)
    requires Valid(s) && Lookup(s.h, s.v, r).Some? && !Truthy(LineOwner(s, r))
    ensures var t := SetPlayer(s, r, playerId).0;
      && (BoxOwner(t, c).Some? ==> Truthy(BoxOwner(t, c)) && BoxComplete(t, c))
      && (BoxOwner(s, c).Some? ==> BoxOwner(t, c) == BoxOwner(s, c))
  {
    var t := SetPlayer(s, r, playerId).0;
    var written := SetLineOwner(s, r, playerId);
    SetPlayerEffect(s, r, playerId);
    BoxSkeleton(s, t, c);
    if BoxAt(s.boxes, c).Some? {
      CompleteSides(s, c);
      CompleteSides(t, c);
      if BoxOwner(t, c) != BoxOwner(s, c) {
        CompleteSides(written, c);
        ListenersHaveSide(s, r);
        assert Truthy(LineOwner(written, r));
      } else if BoxOwner(s, c).Some? {
        assert r !in Sides(BoxAt(s.boxes, c).value);
      }
    }
  }

  /** Box lookups, and the sides of a box, see only the shape of the arrays. */
  lemma BoxSkeleton(s: GameState, t: GameState, c: BoxRef)
    requires SameSkeleton(s, t)
    ensures BoxAt(s.boxes, c).Some? == BoxAt(t.boxes, c).Some?
    ensures BoxAt(s.boxes, c).Some? ==> Sides(BoxAt(s.boxes, c).value) == Sides(BoxAt(t.boxes, c).value)
  {
    if BoxAt(s.boxes, c).Some? {
      assert BoxAt(s.boxes, c).value.(player := None) == BoxAt(t.boxes, c).value.(player := None);
    }
  }

  /** `setPlayer` keeps the invariant: boxes close only with four owned lines, and keep their owner. */
  lemma SetPlayerValid(s: GameState, r: LineRef, playerId: Option<int>)
    requires Valid(s)
    ensures Valid(SetPlayer(s, r, playerId).0)
    ensures forall c :: BoxOwner(s, c).Some? ==> BoxOwner(SetPlayer(s, r, playerId).0, c) == BoxOwner(s, c)
  {
    if Lookup(s.h, s.v, r).Some? && !Truthy(LineOwner(s, r)) {
      var t := SetPlayer(s, r, playerId).0;
      SetPlayerEffect(s, r, playerId);
      WfTransfers(s, t);
      forall c ensures (BoxOwner(t, c).Some? ==> Truthy(BoxOwner(t, c)) && BoxComplete(t, c))
        && (BoxOwner(s, c).Some? ==> BoxOwner(t, c) == BoxOwner(s, c))
      {
        SetPlayerBox(s, r, playerId, c);
      }
    }
  }

  /**
   * A complete box without an owner stays so through any `setPlayer`: none
   * of its lines can be written again, so it is never notified, and the
   * game can never reach the state where every box is taken.
   */
  lemma StuckBoxStays(s: GameState, r: LineRef, playerId: Option<int>, c: BoxRef)
    requires Valid(s) && BoxOwner(s, c) == None && BoxComplete(s, c)
    ensures var t := SetPlayer(s, r, playerId).0;
      BoxOwner(t, c) == None && BoxComplete(t, c) && !AllBoxesTaken(t)
  {
    var t := SetPlayer(s, r, playerId).0;
    if Lookup(s.h, s.v, r).Some? && !Truthy(LineOwner(s, r)) {
      SetPlayerEffect(s, r, playerId);
      ListenersHaveSide(s, r);
      CompleteSides(s, c);
      CompleteSides(t, c);
      assert r !in Sides(BoxAt(s.boxes, c).value);
      assert BoxAt(s.boxes, c).value.(player := None) == BoxAt(t.boxes, c).value.(player := None);
    }
    assert !Truthy(t.boxes[c.y][c.x].player);
  }

  /**
   * The same over a whole replay: a complete box without an owner is never
   * taken by any later turn, so no replay ever reaches the state where
   * every box is taken.
   */
  lemma {:induction false} ReplayKeepsStuckBox(s: GameState, turns: seq<TurnEntry>, c: BoxRef)
    requires Valid(s) && BoxOwner(s, c) == None && BoxComplete(s, c)
    ensures var t := Replay(s, turns).0;
      BoxOwner(t, c) == None && BoxComplete(t, c) && !AllBoxesTaken(t)
    decreases |turns|
  {
    assert !Truthy(s.boxes[c.y][c.x].player);
    if turns != [] {
      match Resolve(s, turns[0])
      case None =>
      case Some(r) =>
        var (t, ok) := SetPlayer(s, r, turns[0].playerId);
        StuckBoxStays(s, r, turns[0].playerId, c);
        SetPlayerValid(s, r, turns[0].playerId);
        if ok {
          ReplayKeepsStuckBox(t, turns[1..], c);
        }
    }
  }

  /**
   * Because `some` stops at the first box that closes, a line that
   * completes two boxes at once gives the first-registered one to the
   * player and leaves the second complete and without an owner.
   */
  lemma SomeLeavesSecondBoxOpen(s: GameState, r: LineRef, playerId: Option<int>)
    requires Valid(s) && Lookup(s.h, s.v, r).Some? && !Truthy(LineOwner(s, r))
    requires var ls := Lookup(s.h, s.v, r).value.listeners;
      var written := SetLineOwner(s, r, playerId);
      |ls| == 2 && BoxComplete(written, ls[0]) && BoxComplete(written, ls[1])
    ensures var ls := Lookup(s.h, s.v, r).value.listeners;
      var t := SetPlayer(s, r, playerId).0;
      && BoxOwner(t, ls[0]) == playerId
      && BoxOwner(t, ls[1]) == None && BoxComplete(t, ls[1])
  {
    var ls := Lookup(s.h, s.v, r).value.listeners;
    var written := SetLineOwner(s, r, playerId);
    var n := SetBoxOwner(written, ls[0], playerId);
    assert Notify(written, ls, playerId) == (n, true);
    var t := SetPlayer(s, r, playerId).0;
    SetPlayerNotified(s, r, playerId);
    SameOwners(s, written);
    SameOwners(n, t);
    ListenersDistinct(s.width, s.height, s.h, s.v, s.boxes, r);
    ClosingBoxWasOpen(s, r, playerId, ls[1]);
    CompleteIgnoresBoxOwners(written, t, ls[1]);
  }

  /**
   * Once every box is taken no line can change: each line has a listener,
   * whose owner makes it complete, so each line already has a truthy
   * owner. The throwing winner branch of `nextTurn` is thus reached at
   * most once, by the move that takes the last box.
   */
  lemma FinishedIsFinal(s: GameState, r: LineRef, playerId: Option<int>)
    requires Valid(s) && AllBoxesTaken(s)
    ensures SetPlayer(s, r, playerId).0 == s
  {
    if Lookup(s.h, s.v, r).Some? {
      LineListeners(s.width, s.height, s.h, s.v, s.boxes, r);
      ListenersHaveSide(s, r);
      var c := Lookup(s.h, s.v, r).value.listeners[0];
      assert BoxAt(s.boxes, c).Some?;
      assert Truthy(BoxOwner(s, c));
      CompleteSides(s, c);
    }
  }

  /** Lines with a truthy owner keep it through any `setPlayer`. */
  lemma SetPlayerKeepsOwnedLines(s: GameState, r: LineRef, playerId: Option<int>, q: LineRef)
    requires Truthy(LineOwner(s, q))
    ensures LineOwner(SetPlayer(s, r, playerId).0, q) == LineOwner(s, q)
  {
    if Lookup(s.h, s.v, r).Some? {
      SetPlayerEffect(s, r, playerId);
    }
  }

  /**
   * The replay keeps the roster, the invariant of the boxes and a current
   * player among the players.
   */
  lemma {:induction false} ReplayValid(s: GameState, turns: seq<TurnEntry>)
    requires Valid(s) && 0 <= s.player < |s.players|
    ensures var t := Replay(s, turns).0;
      Valid(t) && t.players == s.players && 0 <= t.player < |t.players|
    decreases |turns|
  {
    if turns != [] {
      match Resolve(s, turns[0])
      case None =>
      case Some(r) =>
        var t := SetPlayer(s, r, turns[0].playerId).0;
        SetPlayerEffect(s, r, turns[0].playerId);
        SetPlayerValid(s, r, turns[0].playerId);
        SetPlayerKeepsPlayerInRange(s, r, turns[0].playerId);
        ReplayValid(t, turns[1..]);
    }
  }

  /** Lines with a truthy owner keep it through a replay. */
  lemma {:induction false} ReplayKeepsOwnedLines(s: GameState, turns: seq<TurnEntry>, q: LineRef)
    requires Truthy(LineOwner(s, q))
    ensures LineOwner(Replay(s, turns).0, q) == LineOwner(s, q)
    decreases |turns|
  {
    if turns != [] {
      match Resolve(s, turns[0])
      case None =>
      case Some(r) =>
        var t := SetPlayer(s, r, turns[0].playerId).0;
        SetPlayerKeepsOwnedLines(s, r, turns[0].playerId, q);
        ReplayKeepsOwnedLines(t, turns[1..], q);
    }
  }

  /**
   * After a replay that did not throw, every logged turn names a line of
   * the grid, and a turn whose player id is truthy has left that line
   * with a truthy owner.
   */
  lemma {:induction false} ReplayMarksLines(s: GameState, turns: seq<TurnEntry>)
    requires Replay(s, turns).1
    ensures var t := Replay(s, turns).0;
      forall i :: 0 <= i < |turns| ==>
        Resolve(t, turns[i]).Some?
        && (Truthy(turns[i].playerId) ==> Truthy(LineOwner(t, Resolve(t, turns[i]).value)))
    decreases |turns|
  {
    if turns != [] {
      var r := Resolve(s, turns[0]).value;
      var (t1, _) := SetPlayer(s, r, turns[0].playerId);
      var t := Replay(t1, turns[1..]).0;
      SetPlayerEffect(s, r, turns[0].playerId);
      ReplayMarksLines(t1, turns[1..]);
      ReplaySkeleton(t1, turns[1..]);
      SameSkeletonTransitive(s, t1, t);
      ResolveSkeleton(s, t, turns[0]);
      if Truthy(turns[0].playerId) {
        ReplayKeepsOwnedLines(t1, turns[1..], r);
      }
      forall i | 0 < i < |turns|
        ensures Resolve(t, turns[i]).Some?
          && (Truthy(turns[i].playerId) ==> Truthy(LineOwner(t, Resolve(t, turns[i]).value)))
      {
        assert turns[i] == turns[1..][i - 1];
      }
    }
  }

  /** Any replay keeps the shape of the grid. */
  lemma {:induction false} ReplaySkeleton(s: GameState, turns: seq<TurnEntry>)
    ensures SameSkeleton(s, Replay(s, turns).0)
    decreases |turns|
  {
    if turns != [] {
      match Resolve(s, turns[0])
      case None =>
      case Some(r) =>
        var t := SetPlayer(s, r, turns[0].playerId).0;
        SetPlayerEffect(s, r, turns[0].playerId);
        ReplaySkeleton(t, turns[1..]);
        SameSkeletonTransitive(s, t, Replay(t, turns[1..]).0);
    }
  }

  /** Replaying a log in two parts is replaying it whole. */
  lemma {:induction false} ReplayAppend(s: GameState, log: seq<TurnEntry>, ext: seq<TurnEntry>)
    requires Replay(s, log).1
    ensures Replay(s, log + ext) == Replay(Replay(s, log).0, ext)
    decreases |log|
  {
    if log != [] {
      assert (log + ext)[0] == log[0];
      assert (log + ext)[1..] == log[1..] + ext;
      var r := Resolve(s, log[0]).value;
      ReplayAppend(SetPlayer(s, r, log[0].playerId).0, log[1..], ext);
    } else {
      assert log + ext == ext;
    }
  }

  /** Turns on lines that already have a truthy owner change nothing and do not throw. */
  lemma {:induction false} ReplayOwnedTurns(t: GameState, log: seq<TurnEntry>)
    requires forall i :: 0 <= i < |log| ==>
      Resolve(t, log[i]).Some? && Truthy(LineOwner(t, Resolve(t, log[i]).value))
    ensures Replay(t, log) == (t, true)
    decreases |log|
  {
    if log != [] {
      assert forall i :: 0 <= i < |log[1..]| ==> log[1..][i] == log[i + 1];
      ReplayOwnedTurns(t, log[1..]);
    }
  }

  /**
   * `setState` resends the whole log with every update. Replaying it on a
   * client that has already replayed its prefix (with truthy player ids)
   * leaves the prefix without effect: the result is that of replaying the
   * new turns alone.
   */
  lemma ReplayResentLog(s: GameState, log: seq<TurnEntry>, ext: seq<TurnEntry>)
    requires Replay(s, log).1
    requires forall i :: 0 <= i < |log| ==> Truthy(log[i].playerId)
    ensures var t := Replay(s, log).0;
      SetState(t, t.players, log + ext) == SetState(t, t.players, ext)
  {
    var t := Replay(s, log).0;
    ReplayMarksLines(s, log);
    ReplayOwnedTurns(t, log);
    ReplayAppend(t, log, ext);
    assert t.(players := t.players) == t;
  }

  /**
   * The session creator plays as id 0, which is falsy. A re-sent turn of
   * theirs finds its line with the falsy owner 0, so `setPlayer` runs
   * again: it closes no box, as that side is still falsy, and `nextTurn`
   * moves the current player on once more. With two or more players the
   * client's current player therefore changes on every re-sent log that
   * holds such a turn.
   */
  lemma ResentZeroTurnAdvancesAgain(t: GameState, e: TurnEntry)
    requires Valid(t) && 2 <= |t.players| && 0 <= t.player < |t.players|
    requires e.playerId == Some(0) && Resolve(t, e).Some?
    requires LineOwner(t, Resolve(t, e).value) == Some(0)
    ensures var (u, ok) := SetState(t, t.players, [e]);
      ok && u.player == Advance(t.player, |t.players|) && u.player != t.player
  {
    var r := Resolve(t, e).value;
    var ls := Lookup(t.h, t.v, r).value.listeners;
    SetPlayerEffect(t, r, Some(0));
    FalsyWriteClosesNothing(t, r, Some(0));
    ListenersDistinct(t.width, t.height, t.h, t.v, t.boxes, r);
    var (u, ok) := SetPlayer(t, r, Some(0));
    ClosingBoxWasOpen(t, r, Some(0), ls[0]);
    assert BoxOwner(u, ls[0]) == None;
    BoxSkeleton(t, u, ls[0]);
    assert !AllBoxesTaken(u) by {
      assert !Truthy(u.boxes[ls[0].y][ls[0].x].player);
    }
    assert t.(players := t.players) == t;
    assert Replay(t, [e]) == (u, ok);
  }

  /** Writing a falsy owner to a line completes none of its listeners, as that side stays falsy. */
  lemma FalsyWriteClosesNothing(s: GameState, r: LineRef, p: Option<int>)
    requires Wf(s) && Lookup(s.h, s.v, r).Some? && !Truthy(p)
    ensures var ls := Lookup(s.h, s.v, r).value.listeners;
      forall k :: 0 <= k < |ls| ==> !BoxComplete(SetLineOwner(s, r, p), ls[k])
  {
    var ls := Lookup(s.h, s.v, r).value.listeners;
    var written := SetLineOwner(s, r, p);
    ListenersHaveSide(s, r);
    forall k | 0 <= k < |ls|
      ensures !BoxComplete(written, ls[k])
    {
      BoxSkeleton(s, written, ls[k]);
      CompleteSides(written, ls[k]);
    }
  }

  /** What one box adds to `scores[id]` in `nextTurn`: 1 when its owner is the truthy id. */
  function Credit(box: Box<int>, id: int): nat {
    if id != 0 && box.player == Some(id) then 1 else 0
  }

  /** `scores[id]` over one row, counted left to right. */
  function RowScore(row: seq<Box<int>>, id: int): nat
    decreases |row|
  {
    if row == [] then 0 else RowScore(row[..|row| - 1], id) + Credit(row[|row| - 1], id)
  }

  /** `scores[id]` over the rows of `boxes`, counted top to bottom. */
  function GridScore(boxes: seq<seq<Box<int>>>, id: int): nat
    decreases |boxes|
  {
    if boxes == [] then 0 else GridScore(boxes[..|boxes| - 1], id) + RowScore(boxes[|boxes| - 1], id)
  }

  /** Replacing one box changes a row's count by the difference of the two credits. */
  lemma {:induction false} RowScoreUpdate(row: seq<Box<int>>, a: int, box: Box<int>, id: int)
    requires 0 <= a < |row|
    ensures RowScore(row[a := box], id) + Credit(row[a], id) == RowScore(row, id) + Credit(box, id)
    decreases |row|
  {
    var n := |row| - 1;
    if a == n {
      assert row[a := box][..n] == row[..n];
    } else {
      assert row[a := box][..n] == row[..n][a := box];
      RowScoreUpdate(row[..n], a, box, id);
    }
  }

  /** Replacing one box changes the count by the difference of the two credits. */
  lemma {:induction false} GridScoreUpdate(boxes: seq<seq<Box<int>>>, b: int, a: int, box: Box<int>, id: int)
    requires 0 <= b < |boxes| && 0 <= a < |boxes[b]|
    ensures GridScore(boxes[b := boxes[b][a := box]], id) + Credit(boxes[b][a], id)
         == GridScore(boxes, id) + Credit(box, id)
    decreases |boxes|
  {
    var n := |boxes| - 1;
    var updated := boxes[b := boxes[b][a := box]];
    if b == n {
      assert updated[..n] == boxes[..n];
      RowScoreUpdate(boxes[b], a, box, id);
    } else {
      assert updated[..n] == boxes[..n][b := boxes[b][a := box]];
      GridScoreUpdate(boxes[..n], b, a, box, id);
    }
  }

  /** The line at r is written by `setPlayer` and completes one of its listeners. */
  ghost predicate Closes(s: GameState, r: LineRef, playerId: Option<int>) {
    && Lookup(s.h, s.v, r).Some?
    && !Truthy(LineOwner(s, r))
    && var ls := Lookup(s.h, s.v, r).value.listeners;
       exists k :: 0 <= k < |ls| && BoxComplete(SetLineOwner(s, r, playerId), ls[k])
  }

  /**
   * `scores[id]` after `setPlayer`: the mover's count rises by one when
   * the move closes a box, and every other count stays the same.
   */
  lemma SetPlayerScores(s: GameState, r: LineRef, playerId: Option<int>, id: int)
    requires Valid(s)
    ensures GridScore(SetPlayer(s, r, playerId).0.boxes, id)
         == GridScore(s.boxes, id) + (if id != 0 && playerId == Some(id) && Closes(s, r, playerId) then 1 else 0)
  {
    if Lookup(s.h, s.v, r).Some? && !Truthy(LineOwner(s, r)) {
      var ls := Lookup(s.h, s.v, r).value.listeners;
      var written := SetLineOwner(s, r, playerId);
      var t := SetPlayer(s, r, playerId).0;
      NotifyClosesFirst(written, ls, playerId);
      var (n, closed) := Notify(written, ls, playerId);
      SetPlayerNotified(s, r, playerId);
      assert closed == Closes(s, r, playerId);
      if closed {
        var k :| 0 <= k < |ls| && BoxComplete(written, ls[k]) && n == SetBoxOwner(written, ls[k], playerId);
        var c := ls[k];
        ClosingBoxWasOpen(s, r, playerId, c);
        SameOwners(s, written);
        OpenBoxScore(written, c, playerId, id);
      } else {
        assert n.boxes == s.boxes;
      }
    }
  }

  /** Giving a box without an owner the owner p adds one to p's count and nothing to any other. */
  lemma OpenBoxScore(s: GameState, c: BoxRef, p: Option<int>, id: int)
    requires BoxAt(s.boxes, c).Some? && BoxOwner(s, c) == None
    ensures GridScore(SetBoxOwner(s, c, p).boxes, id) == GridScore(s.boxes, id) + (if id != 0 && p == Some(id) then 1 else 0)
  {
    GridScoreUpdate(s.boxes, c.y, c.x, s.boxes[c.y][c.x].(player := p), id);
  }

  /** A listener that the write completes had no owner before it. */
  lemma ClosingBoxWasOpen(s: GameState, r: LineRef, playerId: Option<int>, c: BoxRef)
    requires Valid(s) && Lookup(s.h, s.v, r).Some? && !Truthy(LineOwner(s, r))
    requires c in Lookup(s.h, s.v, r).value.listeners
    ensures BoxAt(s.boxes, c).Some? && BoxOwner(s, c) == None
  {
    ListenersHaveSide(s, r);
    CompleteSides(s, c);
  }

  /** Replacing the roster, as `setState` does first, keeps the invariant of the boxes. */
  lemma ValidIgnoresRoster(s: GameState, players: seq<PlayerRecord>)
    ensures Valid(s) <==> Valid(s.(players := players))
  {
    var t := s.(players := players);
    assert forall r :: LineOwner(t, r) == LineOwner(s, r);
    assert forall c :: BoxOwner(t, c) == BoxOwner(s, c) && (BoxComplete(t, c) <==> BoxComplete(s, c));
  }
}
