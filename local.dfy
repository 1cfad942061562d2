/**
 * The standalone game's `Game` object (js/app.js) with the fields its
 * methods update in place, and the `Player` objects whose `score`
 * counters `Box.onLineClick` increments. Each method is proved to leave
 * the grid as the matching function of LocalRules computes it, and to
 * keep every player's score equal to the score it had when the game was
 * created plus the number of boxes it owns.
 */
module Local {
  import opened Wrappers
  import opened Board
  import opened LocalBoard
  import opened LocalRules
  import RR = ReplicaRules

  /** What `setStatus` last wrote: nothing yet, whose turn it is, or the end of the game. */
  datatype Status = Blank | YourTurn(player: Player) | Over(verdict: Verdict)

  class Game {
    var width: int
    var height: int
    var players: seq<Player>
    var player: int
    var h: seq<seq<Line<Player>>>
    var v: seq<seq<Line<Player>>>
    var boxes: seq<seq<Box<Player>>>
    var status: Status
    /** Each player's score when the game was created. */
    ghost var start: map<Player, int>

    /** The grid fields as a value. */
    function State(): LocalState
      reads this
    {
      LocalState(width, height, h, v, boxes)
    }

    /**
     * A box has an owner exactly when its four lines have; every player's
     * score is its starting score plus the boxes it owns; and someone is
     * to move unless the board has no lines at all.
     */
    ghost predicate Valid()
      reads this, players
    {
      && LocalRules.Valid(State())
      && Scored()
      && (0 <= player < |players| || (h == [] && v == []))
    }

    /** Every player's score is its starting score plus the boxes it owns. */
    ghost predicate Scored()
      reads this, players
    {
      forall p :: p in players ==> p in start && p.score == start[p] + Tally(boxes, Some(p))
    }

    /**
     * The new state of `nextTurn` from roster players0, index player0 and
     * status status0: when every box is taken the roster is sorted by
     * descending score and the first two scores decide, which throws with
     * fewer than two players; otherwise the next player is to move, which
     * throws when there is none.
     */
    ghost predicate TurnTaken(players0: seq<Player>, player0: int, status0: Status, ok: bool)
      reads this, players
    {
      if AllTaken(State()) then
        && multiset(players) == multiset(players0) && Descending(players)
        && player == player0
        && ok == (|players| >= 2)
        && status == (if ok then Over(Decide(players).value) else status0)
      else
        && players == players0
        && player == RR.Advance(player0, |players|)
        && ok == (0 <= player < |players|)
        && status == (if ok then YourTurn(players[player]) else status0)
    }

    /**
     * The constructor up to its final `nextTurn` call: the grid of the
     * construction loops with no owners, and player -1.
     */
    constructor(width: int, height: int, players: seq<Player>)
      ensures this.width == width && this.height == height && this.players == players
      ensures player == -1 && status == Blank
      ensures LocalGrid(width, height, h, v, boxes)
      ensures forall r :: Owner(State(), r) == None
      ensures forall c :: BoxOwner(State(), c) == None
      ensures LocalRules.Valid(State()) && Scored()
      ensures !(width > 0 && height > 0) ==> h == [] && v == [] && boxes == []
      ensures width > 0 && height > 0 ==> BoxAt(boxes, BoxRef(0, 0)).Some?
    {
      var h0, v0, b0 := BuildLocalGrid(width, height);
      this.width := width;
      this.height := height;
      this.players := players;
      player := -1;
      h, v, boxes := h0, v0, b0;
      status := Blank;
      start := map p | p in players :: p.score;
      new;
      forall p | p in players ensures Tally(boxes, Some(p)) == 0 {
        OpenBoardTally(boxes, p);
      }
    }

    /** `Box.onLineClick({ player })` on box c: a complete box takes p, and p's score rises by one. */
    method OnLineClick(c: BoxRef, p: Player) returns (closed: bool)
      modifies this, p
      ensures closed == Complete(old(State()), c)
      ensures State() == if closed then SetBoxOwner(old(State()), c, p) else old(State())
      ensures p.score == old(p.score) + (if closed then 1 else 0)
      ensures players == old(players) && player == old(player) && status == old(status) && start == old(start)
    {
      closed := false;
      if 0 <= c.y < |boxes| && 0 <= c.x < |boxes[c.y]| {
        var box := boxes[c.y][c.x];
        var s := State();
        if Owner(s, box.lineLeft).Some? && Owner(s, box.lineTop).Some?
          && Owner(s, box.lineRight).Some? && Owner(s, box.lineBottom).Some?
        {
          boxes := boxes[c.y := boxes[c.y][c.x := box.(player := Some(p))]];
          p.score := p.score + 1;
          closed := true;
        }
      }
    }

    /** The `allBoxesTaken` flag of `nextTurn`: cleared by any box without an owner. */
    method AllBoxesTaken() returns (taken: bool)
      ensures taken == AllTaken(State())
    {
      taken := true;
      var y := 0;
      while y < |boxes|
        invariant 0 <= y <= |boxes|
        invariant taken == forall b, a :: 0 <= b < y && 0 <= a < |boxes[b]| ==> boxes[b][a].player.Some?
      {
        var x := 0;
        while x < |boxes[y]|
          invariant 0 <= x <= |boxes[y]|
          invariant taken == ((forall b, a :: 0 <= b < y && 0 <= a < |boxes[b]| ==> boxes[b][a].player.Some?)
                              && (forall a :: 0 <= a < x ==> boxes[y][a].player.Some?))
        {
          if boxes[y][x].player.None? {
            taken := false;
          }
          x := x + 1;
        }
        y := y + 1;
      }
    }

    /**
     * The `allBoxesTaken` branch of `nextTurn`: sort the roster in place by
     * descending score, then compare the first two scores, which throws
     * with fewer than two players. A winner is announced exactly when one
     * player outscores every other, and it is that player.
     */
    method Finish() returns (ok: bool)
      requires AllTaken(State())
      modifies this
      ensures State() == old(State()) && start == old(start) && player == old(player)
      ensures multiset(players) == multiset(old(players)) && Descending(players)
      ensures ok == (|players| >= 2)
      ensures status == if ok then Over(Decide(players).value) else old(status)
      ensures ok ==>
        && (status.verdict.Winner? <==> exists p :: p in old(players) && SoleLeader(old(players), p))
        && (status.verdict.Winner? ==> SoleLeader(old(players), status.verdict.player))
    {
      var sorted := SortByScore(players);
      players := sorted;
      ok := |players| >= 2;
      if ok {
        Announce();
        DecideFindsSoleLeader(old(players), players);
      }
    }

    /** `if (players[0].score > players[1].score) … else …` on the sorted roster. */
    method Announce()
      requires |players| >= 2
      modifies this
      ensures State() == old(State()) && start == old(start) && player == old(player) && players == old(players)
      ensures status == Over(Decide(players).value)
    {
      if players[0].score > players[1].score {
        status := Over(Winner(players[0]));
      } else {
        status := Over(Tie);
      }
    }

    /** `nextTurn()`; false when it throws. */
    method NextTurn() returns (ok: bool)
      modifies this
      ensures State() == old(State()) && start == old(start)
      ensures TurnTaken(old(players), old(player), old(status), ok)
      ensures AllTaken(State()) && ok ==>
        && (status.verdict.Winner? <==> exists p :: p in old(players) && SoleLeader(old(players), p))
        && (status.verdict.Winner? ==> SoleLeader(old(players), status.verdict.player))
      ensures old(Scored()) ==> Scored()
      ensures old(Valid()) ==> Valid()
    {
      var taken := AllBoxesTaken();
      if taken {
        ok := Finish();
        Reordered(old(players), players);
        return;
      }
      player := if player == |players| - 1 then 0 else player + 1;
      if !(0 <= player < |players|) {
        return false;
      }
      status := YourTurn(players[player]);
      ok := true;
    }

    /**
     * `Line.onClick()` on the line at r. A line with an owner is ignored;
     * otherwise the player to move takes it, every box it completes goes
     * to that player with one point each, and `nextTurn` follows. Keeps
     * Valid.
     */
    method OnClick(r: LineRef) returns (ok: bool)
      requires Valid() && RowLookup(h, v, r).Some?
      modifies this, players
      ensures Valid() && start == old(start)
      ensures old(Owner(State(), r)).Some? ==>
        && ok && State() == old(State())
        && players == old(players) && player == old(player) && status == old(status)
        && forall p :: p in players ==> p.score == old(p.score)
      ensures old(Owner(State(), r)).None? ==>
        var mover := old(players)[old(player)];
        var (t, n) := Click(old(State()), r, mover);
        && State() == t
        && (forall p :: p in old(players) ==> p.score == old(p.score) + (if p == mover then n else 0))
        && TurnTaken(old(players), old(player), old(status), ok)
    {
      if RowLookup(h, v, r).value.player.Some? {
        return true;
      }
      Draw(r);
      ok := NextTurn();
    }

    /**
     * `Line.onClick()` on an open line up to `nextTurn`: the player to move
     * takes the line and then every box it completes, with one point each.
     * Keeps Valid.
     */
    method Draw(r: LineRef)
      requires Valid() && RowLookup(h, v, r).Some? && Owner(State(), r).None?
      modifies this, players
      ensures Valid()
      ensures players == old(players) && player == old(player) && status == old(status) && start == old(start)
      ensures var mover := players[player];
        var (t, n) := Click(old(State()), r, mover);
        && State() == t
        && forall p :: p in players ==> p.score == old(p.score) + (if p == mover then n else 0)
    {
      var line := RowLookup(h, v, r).value;
      ghost var s := State();
      var mover := players[player];
      SetLine(r, mover);
      var closed := Notify(line.listeners, mover);
      ClickValid(s, r, mover);
      forall p | p in players
        ensures Tally(boxes, Some(p)) == Tally(s.boxes, Some(p)) + (if p == mover then closed else 0)
      {
        ClickTally(s, r, mover, Some(p));
      }
    }

    /** `this.player = player` on the line at r. */
    method SetLine(r: LineRef, mover: Player)
      requires RowLookup(h, v, r).Some?
      modifies this
      ensures State() == SetOwner(old(State()), r, mover)
      ensures players == old(players) && player == old(player) && status == old(status) && start == old(start)
    {
      var line := RowLookup(h, v, r).value;
      if r.dir == H {
        h := h[r.y := h[r.y][r.x := line.(player := Some(mover))]];
      } else {
        v := v[r.x := v[r.x][r.y := line.(player := Some(mover))]];
      }
    }

    /**
     * `this.listeners.forEach(listener => listener({ player }))`: each box
     * in turn runs `onLineClick`; the count is the number of points the
     * mover gains.
     */
    method Notify(ls: seq<BoxRef>, mover: Player) returns (closed: nat)
      modifies this, mover
      ensures (State(), closed) == CloseEach(old(State()), ls, mover)
      ensures mover.score == old(mover.score) + closed
      ensures players == old(players) && player == old(player) && status == old(status) && start == old(start)
    {
      ghost var goal := CloseEach(State(), ls, mover);
      closed := 0;
      var i := 0;
      while i < |ls|
        invariant 0 <= i <= |ls|
        invariant players == old(players) && player == old(player) && status == old(status) && start == old(start)
        invariant goal.0 == CloseEach(State(), ls[i..], mover).0
        invariant goal.1 == closed + CloseEach(State(), ls[i..], mover).1
        invariant mover.score == old(mover.score) + closed
      {
        ghost var before := State();
        CloseEachStep(before, ls[i..], mover);
        assert ls[i..][0] == ls[i] && ls[i..][1..] == ls[i + 1..];
        var shut := OnLineClick(ls[i], mover);
        if shut {
          closed := closed + 1;
        }
        i := i + 1;
      }
    }
  }

  /** The roster the constructor defaults to: three fresh players on zero. */
  method DefaultRoster() returns (players: seq<Player>)
    ensures |players| == 3
    ensures players[0].name == "Player One" && players[0].color == "#CCCC00"
    ensures players[1].name == "Player Two" && players[1].color == "#00CCCC"
    ensures players[2].name == "Player Three" && players[2].color == "#CC00CC"
    ensures forall i :: 0 <= i < 3 ==> fresh(players[i]) && players[i].score == 0
  {
    var one := new Player("Player One", "#CCCC00");
    var two := new Player("Player Two", "#00CCCC");
    var three := new Player("Player Three", "#CC00CC");
    players := [one, two, three];
  }

  /** A reordering of three players on zero ties, and each of them comes from the roster. */
  lemma DefaultRosterTie(roster: seq<Player>, sorted: seq<Player>)
    requires |roster| == 3 && forall i :: 0 <= i < 3 ==> roster[i].score == 0
    requires multiset(sorted) == multiset(roster)
    ensures |sorted| == 3 && forall i :: 0 <= i < 3 ==> sorted[i] in roster && sorted[i].score == 0
    ensures Decide(sorted) == Some(Tie)
  {
    assert |sorted| == |multiset(sorted)| == |multiset(roster)| == 3;
    forall i | 0 <= i < 3
      ensures sorted[i] in roster && sorted[i].score == 0
    {
      assert sorted[i] in multiset(sorted);
    }
  }

  /**
   * `new Game($el, { width = 3, height = 3, players = … })`, null when
   * the constructor's `nextTurn` throws: with boxes to play there must be
   * a player to move, and on a board without boxes there must be two
   * players to compare.
   */
  method NewGame(width: int := 3, height: int := 3, players: Option<seq<Player>> := None) returns (g: Game?)
    ensures var n := if players.Some? then |players.value| else 3;
      g == null <==> (if width > 0 && height > 0 then n == 0 else n < 2)
    ensures g != null ==> fresh(g) && g.Valid() && g.width == width && g.height == height
    ensures g != null ==> LocalGrid(width, height, g.h, g.v, g.boxes)
    ensures g != null ==> (forall r :: Owner(g.State(), r) == None) && (forall c :: BoxOwner(g.State(), c) == None)
    ensures g != null && players.Some? ==> multiset(g.players) == multiset(players.value)
    ensures g != null && players.Some? && width > 0 && height > 0 ==> g.players == players.value
    ensures g != null && players.None? ==>
      && |g.players| == 3
      && forall i :: 0 <= i < 3 ==> fresh(g.players[i]) && g.players[i].score == 0
    ensures g != null && players.None? && width > 0 && height > 0 ==>
      && g.players[0].name == "Player One" && g.players[0].color == "#CCCC00"
      && g.players[1].name == "Player Two" && g.players[1].color == "#00CCCC"
      && g.players[2].name == "Player Three" && g.players[2].color == "#CC00CC"
    ensures g != null && width > 0 && height > 0 ==> g.player == 0 && g.status == YourTurn(g.players[0])
    ensures g != null && !(width > 0 && height > 0) ==>
      && |g.players| >= 2 && Descending(g.players)
      && g.status == Over(Decide(g.players).value)
    ensures g != null && players.None? && !(width > 0 && height > 0) ==> g.status == Over(Tie)
  {
    var roster;
    if players.Some? {
      roster := players.value;
    } else {
      roster := DefaultRoster();
    }
    var game := new Game(width, height, roster);
    if width > 0 && height > 0 {
      assert BoxOwner(game.State(), BoxRef(0, 0)) == None;
      assert !AllTaken(game.State());
    } else {
      assert AllTaken(game.State());
    }
    var ok := game.NextTurn();
    if !(width > 0 && height > 0) {
      Reordered(roster, game.players);
      if players.None? && ok {
        DefaultRosterTie(roster, game.players);
      }
    } else {
      assert game.players == roster;
    }
    if ok {
      g := game;
    } else {
      g := null;
    }
  }
}
