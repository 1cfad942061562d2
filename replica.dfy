/**
 * The networked client's `Game` object (public/js/app.js) with the fields
 * its methods update in place: the current player, the roster, and the
 * `lines.h`, `lines.v` and `boxes` arrays. Each method is proved to leave
 * the object in the state that the matching function of ReplicaRules
 * computes from the state before the call.
 */
module Replica {
  import opened Wrappers
  import opened Board
  import opened Sessions
  import R = ReplicaRules

  class Game {
    var width: int
    var height: int
    var players: seq<PlayerRecord>
    var player: int
    var h: seq<seq<Line<int>>>
    var v: seq<seq<Line<int>>>
    var boxes: seq<seq<Box<int>>>

    /** The fields as a value. */
    function State(): R.GameState
      reads this
    {
      R.GameState(width, height, players, player, h, v, boxes)
    }

    /** Owned boxes have truthy owners and four owned lines. */
    ghost predicate Valid()
      reads this
    {
      R.Valid(State())
    }

    /**
     * `new Game($el, { width = 2, height = 2, players = [] })`: the grid of
     * the construction loops, no owners anywhere, player 0.
     */
    constructor(width: int := 2, height: int := 2, players: seq<PlayerRecord> := [])
      ensures this.width == width && this.height == height && this.players == players && player == 0
      ensures Valid()
      ensures forall r :: R.LineOwner(State(), r) == None
      ensures forall c :: R.BoxOwner(State(), c) == None
    {
      var h0, v0, b0 := BuildGrid(width, height);
      this.width := width;
      this.height := height;
      this.players := players;
      player := 0;
      h, v, boxes := h0, v0, b0;
    }

    /** `Box.onLineClick({ player })` on box b. */
    method OnLineClick(b: BoxRef, p: Option<int>) returns (closed: bool)
      modifies this
      ensures (State(), closed) == R.OnLineClick(old(State()), b, p)
    {
      closed := false;
      if 0 <= b.y < |boxes| && 0 <= b.x < |boxes[b.y]| {
        var box := boxes[b.y][b.x];
        var s := State();
        if R.Truthy(R.LineOwner(s, box.lineLeft)) && R.Truthy(R.LineOwner(s, box.lineTop))
          && R.Truthy(R.LineOwner(s, box.lineRight)) && R.Truthy(R.LineOwner(s, box.lineBottom))
        {
          boxes := boxes[b.y := boxes[b.y][b.x := box.(player := p)]];
          closed := true;
        }
      }
    }

    /** `listeners.some(listener => listener({ player }))`. */
    method Notify(listeners: seq<BoxRef>, p: Option<int>) returns (closed: bool)
      modifies this
      ensures (State(), closed) == R.Notify(old(State()), listeners, p)
    {
      closed := false;
      var i := 0;
      while i < |listeners| && !closed
        invariant 0 <= i <= |listeners|
        invariant !closed ==> R.Notify(old(State()), listeners, p) == R.Notify(State(), listeners[i..], p)
        invariant closed ==> (State(), true) == R.Notify(old(State()), listeners, p)
      {
        assert listeners[i..][1..] == listeners[i + 1..];
        closed := OnLineClick(listeners[i], p);
        i := i + 1;
      }
    }

    /** The `allBoxesTaken` flag of `nextTurn`: cleared by any box without a truthy owner. */
    method AllBoxesTaken() returns (taken: bool)
      ensures taken == R.AllBoxesTaken(State())
    {
      taken := true;
      var y := 0;
      while y < |boxes|
        invariant 0 <= y <= |boxes|
        invariant taken == forall b, a :: 0 <= b < y && 0 <= a < |boxes[b]| ==> R.Truthy(boxes[b][a].player)
      {
        var x := 0;
        while x < |boxes[y]|
          invariant 0 <= x <= |boxes[y]|
          invariant taken == ((forall b, a :: 0 <= b < y && 0 <= a < |boxes[b]| ==> R.Truthy(boxes[b][a].player))
                              && (forall a :: 0 <= a < x ==> R.Truthy(boxes[y][a].player)))
        {
          if !R.Truthy(boxes[y][x].player) {
            taken := false;
          }
          x := x + 1;
        }
        y := y + 1;
      }
    }

    /** The `scores` dictionary of `nextTurn`: one count per truthy owner, over all boxes. */
    method Scores() returns (scores: map<int, nat>)
      ensures forall id :: id in scores <==> R.GridScore(boxes, id) > 0
      ensures forall id :: id in scores ==> scores[id] == R.GridScore(boxes, id)
    {
      scores := map[];
      var y := 0;
      while y < |boxes|
        invariant 0 <= y <= |boxes|
        invariant forall id :: id in scores <==> R.GridScore(boxes[..y], id) > 0
        invariant forall id :: id in scores ==> scores[id] == R.GridScore(boxes[..y], id)
      {
        assert boxes[..y + 1][..y] == boxes[..y];
        scores := CountRow(boxes[y], scores);
        y := y + 1;
      }
      assert boxes[..|boxes|] == boxes;
    }

    /**
     * `nextTurn({ nextPlayer })`: the `allBoxesTaken` scan and the `scores`
     * count, then the advance; false when the winner branch throws. The
     * scores are only logged, so they affect nothing.
     */
    method NextTurn(nextPlayer: bool) returns (ok: bool)
      modifies this
      ensures (State(), ok) == R.NextTurn(old(State()), nextPlayer)
    {
      var taken := AllBoxesTaken();
      var scores := Scores();
      if taken {
        return false;
      }
      if nextPlayer {
        player := if player == |players| - 1 then 0 else player + 1;
      }
      return true;
    }

    /**
     * `Line.setPlayer(playerId)` on the line at r; false when the lookup
     * or the colour lookup or `nextTurn` throws. Keeps Valid.
     */
    method SetPlayer(r: LineRef, playerId: Option<int>) returns (ok: bool)
      modifies this
      ensures (State(), ok) == R.SetPlayer(old(State()), r, playerId)
      ensures old(Valid()) ==> Valid()
    {
      if old(Valid()) {
        R.SetPlayerValid(State(), r, playerId);
      }
      var found := Lookup(h, v, r);
      if found.None? {
        return false;
      }
      var line := found.value;
      if R.Truthy(line.player) {
        return true;
      }
      if r.dir == H {
        h := h[r.x := h[r.x][r.y := line.(player := playerId)]];
      } else {
        v := v[r.x := v[r.x][r.y := line.(player := playerId)]];
      }
      var closed := Notify(line.listeners, playerId);
      if !R.IsPlayerIndex(players, playerId) {
        return false;
      }
      ok := NextTurn(!closed);
    }

    /**
     * `setState({ players, turns })`: replace the roster and replay the log
     * in order; false when a turn throws, leaving the state at that point.
     */
    method SetState(newPlayers: seq<PlayerRecord>, turns: seq<TurnEntry>) returns (ok: bool)
      modifies this
      ensures (State(), ok) == R.SetState(old(State()), newPlayers, turns)
      ensures old(Valid()) ==> Valid()
    {
      players := newPlayers;
      R.ValidIgnoresRoster(old(State()), newPlayers);
      ok := true;
      var i := 0;
      while i < |turns| && ok
        invariant 0 <= i <= |turns|
        invariant ok ==> R.SetState(old(State()), newPlayers, turns) == R.Replay(State(), turns[i..])
        invariant !ok ==> (State(), false) == R.SetState(old(State()), newPlayers, turns)
        invariant old(Valid()) ==> Valid()
      {
        assert turns[i..][1..] == turns[i + 1..];
        var target := R.Resolve(State(), turns[i]);
        if target.None? {
          ok := false;
        } else {
          ok := SetPlayer(target.value, turns[i].playerId);
        }
        i := i + 1;
      }
    }
  }

  /** The inner loop of the `scores` count: each box of the row with a truthy owner adds one to that owner's count. */
  method CountRow(row: seq<Box<int>>, scores0: map<int, nat>) returns (scores: map<int, nat>)
    ensures forall id :: id in scores <==> id in scores0 || R.RowScore(row, id) > 0
    ensures forall id :: id in scores ==> scores[id] == (if id in scores0 then scores0[id] else 0) + R.RowScore(row, id)
  {
    scores := scores0;
    var x := 0;
    assert row[..0] == [];
    while x < |row|
      invariant 0 <= x <= |row|
      invariant forall id :: id in scores <==> id in scores0 || R.RowScore(row[..x], id) > 0
      invariant forall id :: id in scores ==> scores[id] == (if id in scores0 then scores0[id] else 0) + R.RowScore(row[..x], id)
    {
      assert row[..x + 1][..x] == row[..x];
      var owner := row[x].player;
      if R.Truthy(owner) {
        var k := owner.value;
        scores := scores[k := (if k in scores then scores[k] else 0) + 1];
      }
      x := x + 1;
    }
    assert row[..|row|] == row;
  }
}
