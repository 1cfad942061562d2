/**
 * The turn engine of the standalone game (js/app.js) as functions of the
 * board: `Line.onClick` writes the line and notifies every listener with
 * `forEach`, and each box whose four lines are owned takes the mover. An
 * owner is a `Player` object, and any object is truthy, so "owned" is
 * "not null". The class in module Local runs these steps on its fields
 * and on the players' `score` counters.
 */
module LocalRules {
  import opened Wrappers
  import opened Board
  import opened LocalBoard

  /** `Player`: a name, a colour and the `score` counter that closing boxes increment. */
  class Player {
    const name: string
    const color: string
    var score: int

    constructor(name: string, color: string)
      ensures this.name == name && this.color == color && score == 0
    {
      this.name := name;
      this.color := color;
      score := 0;
    }
  }

  /** The local `Game`'s grid fields. */
  datatype LocalState = LocalState(
    width: int,
    height: int,
    h: seq<seq<Line<Player>>>,
    v: seq<seq<Line<Player>>>,
    boxes: seq<seq<Box<Player>>>)

  ghost predicate Wf(s: LocalState) {
    LocalGrid(s.width, s.height, s.h, s.v, s.boxes)
  }

  function Owner(s: LocalState, r: LineRef): Option<Player> {
    match RowLookup(s.h, s.v, r)
    case Some(line) => line.player
    case None => None
  }

  function BoxOwner(s: LocalState, c: BoxRef): Option<Player> {
    match BoxAt(s.boxes, c)
    case Some(box) => box.player
    case None => None
  }

  /** `this.player = …` on the line at r. */
  function SetOwner(s: LocalState, r: LineRef, p: Player): (t: LocalState)
    ensures t.width == s.width && t.height == s.height && t.boxes == s.boxes
    ensures forall q :: Owner(t, q) == if q == r && RowLookup(s.h, s.v, r).Some? then Some(p) else Owner(s, q)
    ensures forall q :: RowLookup(t.h, t.v, q).Some? == RowLookup(s.h, s.v, q).Some?
    ensures forall q :: RowLookup(s.h, s.v, q).Some? ==>
      RowLookup(t.h, t.v, q).value.listeners == RowLookup(s.h, s.v, q).value.listeners
  {
    match RowLookup(s.h, s.v, r)
    case None => s
    case Some(line) =>
      if r.dir == H then s.(h := s.h[r.y := s.h[r.y][r.x := line.(player := Some(p))]])
      else s.(v := s.v[r.x := s.v[r.x][r.y := line.(player := Some(p))]])
  }

  /** Writing a line's owner keeps the grid's shape. */
  lemma SetOwnerWf(s: LocalState, r: LineRef, p: Player)
    requires Wf(s)
    ensures Wf(SetOwner(s, r, p))
  {
  }

  /** `this.player = player` on box c. */
  function SetBoxOwner(s: LocalState, c: BoxRef, p: Player): (t: LocalState)
    ensures t.width == s.width && t.height == s.height && t.h == s.h && t.v == s.v
    ensures forall d :: BoxOwner(t, d) == if d == c && BoxAt(s.boxes, c).Some? then Some(p) else BoxOwner(s, d)
    ensures forall d :: BoxAt(t.boxes, d).Some? == BoxAt(s.boxes, d).Some?
    ensures forall d :: BoxAt(s.boxes, d).Some? ==>
      BoxAt(t.boxes, d).value == BoxAt(s.boxes, d).value.(player := BoxOwner(t, d))
    ensures Wf(s) ==> Wf(t)
  {
    match BoxAt(s.boxes, c)
    case None => s
    case Some(box) => s.(boxes := s.boxes[c.y := s.boxes[c.y][c.x := box.(player := Some(p))]])
  }

  /** `lineLeft.player && lineTop.player && lineRight.player && lineBottom.player`. */
  predicate Complete(s: LocalState, c: BoxRef) {
    match BoxAt(s.boxes, c)
    case None => false
    case Some(box) =>
      Owner(s, box.lineLeft).Some? && Owner(s, box.lineTop).Some?
      && Owner(s, box.lineRight).Some? && Owner(s, box.lineBottom).Some?
  }

  /** Whether a box is complete depends on the lines only. */
  lemma CompleteIgnoresBoxOwners(s: LocalState, t: LocalState, c: BoxRef)
    requires s.h == t.h && s.v == t.v
    requires BoxAt(t.boxes, c).Some? == BoxAt(s.boxes, c).Some?
    requires BoxAt(s.boxes, c).Some? ==> BoxAt(t.boxes, c).value.(player := None) == BoxAt(s.boxes, c).value.(player := None)
    ensures Complete(s, c) <==> Complete(t, c)
  {
  }

  /**
   * `listeners.forEach(listener => listener({ player }))`: every listener
   * whose box is complete takes the player; the count is the number of
   * `score++` steps.
   */
  function CloseEach(s: LocalState, listeners: seq<BoxRef>, p: Player): (LocalState, nat)
    decreases |listeners|
  {
    if listeners == [] then (s, 0)
    else
      var (t, n) := if Complete(s, listeners[0]) then (SetBoxOwner(s, listeners[0], p), 1) else (s, 0);
      var (u, m) := CloseEach(t, listeners[1..], p);
      (u, n + m)
  }

  /** The first call of `forEach`, then the rest. */
  lemma CloseEachStep(s: LocalState, listeners: seq<BoxRef>, p: Player)
    requires listeners != []
    ensures var closes := Complete(s, listeners[0]);
      var t := if closes then SetBoxOwner(s, listeners[0], p) else s;
      var rest := CloseEach(t, listeners[1..], p);
      CloseEach(s, listeners, p) == (rest.0, (if closes then 1 else 0) + rest.1)
  {
  }

  /** `Line.onClick` on an unowned line r while p is to move, up to `nextTurn`. */
  function Click(s: LocalState, r: LineRef, p: Player): (LocalState, nat)
    requires RowLookup(s.h, s.v, r).Some?
  {
    CloseEach(SetOwner(s, r, p), RowLookup(s.h, s.v, r).value.listeners, p)
  }

  /** `allBoxesTaken` in `nextTurn`. */
  predicate AllTaken(s: LocalState) {
    forall b, a :: 0 <= b < |s.boxes| && 0 <= a < |s.boxes[b]| ==> s.boxes[b][a].player.Some?
  }

  /**
   * The invariant of the local game: a box has an owner exactly when its
   * four lines have owners. Unlike the networked client, no complete box
   * is ever left without an owner.
   */
  ghost predicate Valid(s: LocalState) {
    && Wf(s)
    && forall c :: BoxOwner(s, c).Some? <==> Complete(s, c)
  }

  /** The number of boxes of a row whose owner is o. */
  function RowTally(row: seq<Box<Player>>, o: Option<Player>): nat
    decreases |row|
  {
    if row == [] then 0 else RowTally(row[..|row| - 1], o) + (if row[|row| - 1].player == o then 1 else 0)
  }

  /** The number of boxes whose owner is o: a player's closed boxes, or with None the open ones. */
  function Tally(boxes: seq<seq<Box<Player>>>, o: Option<Player>): nat
    decreases |boxes|
  {
    if boxes == [] then 0 else Tally(boxes[..|boxes| - 1], o) + RowTally(boxes[|boxes| - 1], o)
  }

  lemma {:induction false} RowTallyUpdate(row: seq<Box<Player>>, a: int, box: Box<Player>, o: Option<Player>)
    requires 0 <= a < |row|
    ensures RowTally(row[a := box], o) + (if row[a].player == o then 1 else 0)
         == RowTally(row, o) + (if box.player == o then 1 else 0)
    decreases |row|
  {
    var n := |row| - 1;
    if a == n {
      assert row[a := box][..n] == row[..n];
    } else {
      assert row[a := box][..n] == row[..n][a := box];
      RowTallyUpdate(row[..n], a, box, o);
    }
  }

  /** Replacing one box changes each tally by what the old and the new box contribute. */
  lemma {:induction false} TallyUpdate(boxes: seq<seq<Box<Player>>>, b: int, a: int, box: Box<Player>, o: Option<Player>)
    requires 0 <= b < |boxes| && 0 <= a < |boxes[b]|
    ensures Tally(boxes[b := boxes[b][a := box]], o) + (if boxes[b][a].player == o then 1 else 0)
         == Tally(boxes, o) + (if box.player == o then 1 else 0)
    decreases |boxes|
  {
    var n := |boxes| - 1;
    var updated := boxes[b := boxes[b][a := box]];
    if b == n {
      assert updated[..n] == boxes[..n];
      RowTallyUpdate(boxes[b], a, box, o);
    } else {
      assert updated[..n] == boxes[..n][b := boxes[b][a := box]];
      TallyUpdate(boxes[..n], b, a, box, o);
    }
  }

  /** Closing an open box moves it from the open tally to p's tally. */
  lemma SetBoxOwnerTally(s: LocalState, c: BoxRef, p: Player, o: Option<Player>)
    requires BoxAt(s.boxes, c).Some? && BoxOwner(s, c) == None
    ensures Tally(SetBoxOwner(s, c, p).boxes, o) + (if o == None then 1 else 0)
         == Tally(s.boxes, o) + (if o == Some(p) then 1 else 0)
  {
    TallyUpdate(s.boxes, c.y, c.x, s.boxes[c.y][c.x].(player := Some(p)), o);
  }

  /** On a row without owners a player's tally is zero. */
  lemma {:induction false} OpenRowTally(row: seq<Box<Player>>, p: Player)
    requires forall a :: 0 <= a < |row| ==> row[a].player == None
    ensures RowTally(row, Some(p)) == 0
    decreases |row|
  {
    if row != [] {
      OpenRowTally(row[..|row| - 1], p);
    }
  }

  /** On a board without owners every player's tally is zero. */
  lemma {:induction false} OpenBoardTally(boxes: seq<seq<Box<Player>>>, p: Player)
    requires forall b, a :: 0 <= b < |boxes| && 0 <= a < |boxes[b]| ==> boxes[b][a].player == None
    ensures Tally(boxes, Some(p)) == 0
    decreases |boxes|
  {
    if boxes != [] {
      OpenBoardTally(boxes[..|boxes| - 1], p);
      OpenRowTally(boxes[|boxes| - 1], p);
    }
  }

  /** No box is listed twice. */
  predicate Distinct(listeners: seq<BoxRef>) {
    forall i, j :: 0 <= i < j < |listeners| ==> listeners[i] != listeners[j]
  }

  /**
   * `forEach` closes every complete listener and no other box, giving it
   * to p; the lines are untouched.
   */
  lemma {:induction false} CloseEachClosesAll(s: LocalState, listeners: seq<BoxRef>, p: Player)
    requires Distinct(listeners)
    ensures var t := CloseEach(s, listeners, p).0;
      && t.width == s.width && t.height == s.height && t.h == s.h && t.v == s.v
      && (forall d :: BoxAt(t.boxes, d).Some? == BoxAt(s.boxes, d).Some?)
      && (forall d :: BoxAt(s.boxes, d).Some? ==>
            BoxAt(t.boxes, d).value == BoxAt(s.boxes, d).value.(player := BoxOwner(t, d)))
      && (forall d :: BoxOwner(t, d) == if d in listeners && Complete(s, d) then Some(p) else BoxOwner(s, d))
      && (Wf(s) ==> Wf(t))
    decreases |listeners|
  {
    if listeners != [] {
      var c := listeners[0];
      var t := if Complete(s, c) then SetBoxOwner(s, c, p) else s;
      assert forall d :: Complete(t, d) <==> Complete(s, d) by {
        forall d ensures Complete(t, d) <==> Complete(s, d) {
          CompleteIgnoresBoxOwners(s, t, d);
        }
      }
      assert Distinct(listeners[1..]);
      CloseEachClosesAll(t, listeners[1..], p);
      assert c !in listeners[1..];
      assert forall d :: d in listeners <==> d == c || d in listeners[1..];
    }
  }

  /**
   * When every complete listener is open, `forEach` moves exactly the
   * count it returns from the open tally to p's tally: p's `score` rises
   * by the number of boxes closed, and so does the number of closed boxes.
   */
  lemma {:induction false} CloseEachTally(s: LocalState, listeners: seq<BoxRef>, p: Player, o: Option<Player>)
    requires Distinct(listeners)
    requires forall k :: 0 <= k < |listeners| && Complete(s, listeners[k]) ==> BoxOwner(s, listeners[k]) == None
    ensures var (t, n) := CloseEach(s, listeners, p);
      Tally(t.boxes, o) + (if o == None then n else 0) == Tally(s.boxes, o) + (if o == Some(p) then n else 0)
    decreases |listeners|
  {
    if listeners != [] {
      var c := listeners[0];
      var rest := listeners[1..];
      var t := if Complete(s, c) then SetBoxOwner(s, c, p) else s;
      if Complete(s, c) {
        SetBoxOwnerTally(s, c, p, o);
      }
      forall k | 0 <= k < |rest| && Complete(t, rest[k]) ensures BoxOwner(t, rest[k]) == None {
        CompleteIgnoresBoxOwners(s, t, rest[k]);
        assert rest[k] == listeners[k + 1] && rest[k] != c;
      }
      CloseEachTally(t, rest, p, o);
    }
  }

  /**
   * Unlike `some` in the networked client, `forEach` closes both boxes of
   * a line that completes two at once.
   */
  lemma ForEachClosesBoth(s: LocalState, r: LineRef, p: Player)
    requires Wf(s) && RowLookup(s.h, s.v, r).Some?
    requires var ls := RowLookup(s.h, s.v, r).value.listeners;
      var written := SetOwner(s, r, p);
      |ls| == 2 && Complete(written, ls[0]) && Complete(written, ls[1])
    ensures var ls := RowLookup(s.h, s.v, r).value.listeners;
      var t := Click(s, r, p).0;
      BoxOwner(t, ls[0]) == Some(p) && BoxOwner(t, ls[1]) == Some(p)
  {
    var ls := RowLookup(s.h, s.v, r).value.listeners;
    LocalListenersHaveSide(s, r);
    CloseEachClosesAll(SetOwner(s, r, p), ls, p);
  }

  /** A line's listeners are distinct boxes of which it is a side. */
  lemma LocalListenersHaveSide(s: LocalState, r: LineRef)
    requires Wf(s) && RowLookup(s.h, s.v, r).Some?
    ensures Distinct(RowLookup(s.h, s.v, r).value.listeners)
    ensures forall c :: c in RowLookup(s.h, s.v, r).value.listeners ==>
      BoxAt(s.boxes, c).Some? && r in Sides(BoxAt(s.boxes, c).value)
  {
    LocalLineListeners(s.width, s.height, s.h, s.v, s.boxes, r);
    forall c | c in RowLookup(s.h, s.v, r).value.listeners
      ensures BoxAt(s.boxes, c).Some? && r in Sides(BoxAt(s.boxes, c).value)
    {
      LocalAdjacency(s.width, s.height, s.h, s.v, s.boxes, r, c);
    }
  }

  /** A box is complete exactly when its four sides have owners. */
  lemma CompleteSides(s: LocalState, c: BoxRef)
    ensures Complete(s, c) <==>
      BoxAt(s.boxes, c).Some? && forall q :: q in Sides(BoxAt(s.boxes, c).value) ==> Owner(s, q).Some?
  {
  }

  /** The listeners that writing an open line completes were open before. */
  lemma ClosingBoxesWereOpen(s: LocalState, r: LineRef, p: Player)
    requires Valid(s) && RowLookup(s.h, s.v, r).Some? && Owner(s, r).None?
    ensures var ls := RowLookup(s.h, s.v, r).value.listeners;
      && Distinct(ls)
      && forall k :: 0 <= k < |ls| && Complete(SetOwner(s, r, p), ls[k]) ==> BoxOwner(SetOwner(s, r, p), ls[k]) == None
  {
    var ls := RowLookup(s.h, s.v, r).value.listeners;
    LocalListenersHaveSide(s, r);
    forall k | 0 <= k < |ls| ensures BoxOwner(s, ls[k]) == None {
      CompleteSides(s, ls[k]);
      assert r in Sides(BoxAt(s.boxes, ls[k]).value);
    }
  }

  /**
   * `Line.onClick` on an open line: the mover's tally rises by the number
   * of boxes closed, the open tally falls by it, and no other player's
   * tally changes.
   */
  lemma ClickTally(s: LocalState, r: LineRef, p: Player, o: Option<Player>)
    requires Valid(s) && RowLookup(s.h, s.v, r).Some? && Owner(s, r).None?
    ensures var (t, n) := Click(s, r, p);
      Tally(t.boxes, o) + (if o == None then n else 0) == Tally(s.boxes, o) + (if o == Some(p) then n else 0)
  {
    ClosingBoxesWereOpen(s, r, p);
    CloseEachTally(SetOwner(s, r, p), RowLookup(s.h, s.v, r).value.listeners, p, o);
  }

  /**
   * `Line.onClick` on an open line gives it to the mover, leaves every
   * other line alone and keeps the invariant: the boxes it completes are
   * exactly the boxes it closes.
   */
  lemma ClickValid(s: LocalState, r: LineRef, p: Player)
    requires Valid(s) && RowLookup(s.h, s.v, r).Some? && Owner(s, r).None?
    ensures var t := Click(s, r, p).0;
      && Valid(t)
      && Owner(t, r) == Some(p)
      && (forall q :: q != r ==> Owner(t, q) == Owner(s, q))
  {
    var ls := RowLookup(s.h, s.v, r).value.listeners;
    var written := SetOwner(s, r, p);
    var t := Click(s, r, p).0;
    SetOwnerWf(s, r, p);
    LocalListenersHaveSide(s, r);
    CloseEachClosesAll(written, ls, p);
    forall c ensures BoxOwner(t, c).Some? <==> Complete(t, c) {
      ClickValidAt(s, r, p, c);
    }
  }

  /** One box after `Line.onClick` on an open line. */
  lemma ClickValidAt(s: LocalState, r: LineRef, p: Player, c: BoxRef)
    requires Valid(s) && RowLookup(s.h, s.v, r).Some? && Owner(s, r).None?
    ensures var t := Click(s, r, p).0; BoxOwner(t, c).Some? <==> Complete(t, c)
  {
    var ls := RowLookup(s.h, s.v, r).value.listeners;
    var written := SetOwner(s, r, p);
    var t := Click(s, r, p).0;
    SetOwnerWf(s, r, p);
    LocalListenersHaveSide(s, r);
    CloseEachClosesAll(written, ls, p);
    CompleteIgnoresBoxOwners(written, t, c);
    CompleteSides(s, c);
    CompleteSides(written, c);
    if c !in ls {
      LocalAdjacency(s.width, s.height, s.h, s.v, s.boxes, r, c);
    }
  }

  /**
   * When every box is taken every line has an owner, so no click changes
   * anything: the game is over.
   */
  lemma FinishedIsFinal(s: LocalState, r: LineRef)
    requires Valid(s) && AllTaken(s) && RowLookup(s.h, s.v, r).Some?
    ensures Owner(s, r).Some?
  {
    LocalLineListeners(s.width, s.height, s.h, s.v, s.boxes, r);
    LocalListenersHaveSide(s, r);
    var c := RowLookup(s.h, s.v, r).value.listeners[0];
    assert BoxOwner(s, c).Some?;
    CompleteSides(s, c);
  }

  /** The order `players.sort((a, b) => b.score - a.score)` leaves: scores never rise along it. */
  ghost predicate Descending(ps: seq<Player>)
    reads ps
  {
    forall i, j :: 0 <= i < j < |ps| ==> ps[i].score >= ps[j].score
  }

  /** Places p after every player scoring at least as much, as a stable sort does. */
  method InsertByScore(sorted: seq<Player>, p: Player) returns (r: seq<Player>)
    requires Descending(sorted)
    ensures Descending(r)
    ensures multiset(r) == multiset(sorted) + multiset{p}
  {
    var j := 0;
    while j < |sorted| && sorted[j].score >= p.score
      invariant 0 <= j <= |sorted|
      invariant forall k :: 0 <= k < j ==> sorted[k].score >= p.score
    {
      j := j + 1;
    }
    r := sorted[..j] + [p] + sorted[j..];
    assert sorted == sorted[..j] + sorted[j..];
  }

  /** `this.players.sort((a, b) => b.score - a.score)`: the same players, by descending score. */
  method SortByScore(ps: seq<Player>) returns (sorted: seq<Player>)
    ensures Descending(sorted)
    ensures multiset(sorted) == multiset(ps)
  {
    sorted := [];
    var i := 0;
    while i < |ps|
      invariant 0 <= i <= |ps|
      invariant Descending(sorted)
      invariant multiset(sorted) == multiset(ps[..i])
    {
      sorted := InsertByScore(sorted, ps[i]);
      assert ps[..i + 1] == ps[..i] + [ps[i]];
      i := i + 1;
    }
    assert ps[..|ps|] == ps;
  }

  /** A reordering keeps the length and the members. */
  lemma Reordered<T>(a: seq<T>, b: seq<T>)
    requires multiset(a) == multiset(b)
    ensures |a| == |b|
    ensures forall x :: x in a <==> x in b
  {
    assert |multiset(a)| == |multiset(b)|;
    forall x ensures x in a <==> x in b {
      assert x in a <==> x in multiset(a);
      assert x in b <==> x in multiset(b);
    }
  }

  /** The end of the local `nextTurn`: a sole winner or a tie. */
  datatype Verdict = Winner(player: Player) | Tie

  /**
   * `if (players[0].score > players[1].score)` on the sorted players;
   * None when there are fewer than two, as `players[1].score` then throws.
   */
  function Decide(ps: seq<Player>): Option<Verdict>
    reads ps
  {
    if |ps| < 2 then None
    else if ps[0].score > ps[1].score then Some(Winner(ps[0]))
    else Some(Tie)
  }

  /** p is in the roster once and every other player scores less. */
  ghost predicate SoleLeader(ps: seq<Player>, p: Player)
    reads ps
  {
    multiset(ps)[p] == 1 && forall q :: q in ps && q != p ==> q.score < p.score
  }

  /**
   * On players sorted by descending score, the comparison of the first two
   * names a winner exactly when one player outscores all others, and then
   * names that player; since the sort only reorders, the same holds of the
   * roster before the sort.
   */
  lemma DecideFindsSoleLeader(roster: seq<Player>, sorted: seq<Player>)
    requires Descending(sorted) && multiset(sorted) == multiset(roster) && |sorted| >= 2
    ensures Decide(sorted).Some?
    ensures Decide(sorted).value.Winner? <==> exists p :: p in roster && SoleLeader(roster, p)
    ensures Decide(sorted).value.Winner? ==> SoleLeader(roster, Decide(sorted).value.player)
  {
    Reordered(roster, sorted);
    var top := sorted[0];
    var rest := sorted[1..];
    assert sorted == [top] + rest;
    assert multiset(sorted) == multiset{top} + multiset(rest);
    if top.score > sorted[1].score {
      forall k | 1 <= k < |sorted| ensures sorted[k] != top {
        assert sorted[k].score <= sorted[1].score;
      }
      assert top !in rest;
      forall q | q in roster && q != top ensures q.score < top.score {
        var k :| 0 <= k < |sorted| && sorted[k] == q;
        assert sorted[k].score <= sorted[1].score;
      }
      assert SoleLeader(roster, top);
    } else {
      forall p | p in roster ensures !SoleLeader(roster, p) {
        if p == top {
          if sorted[1] == top {
            assert rest[0] == top;
            assert multiset(rest)[top] >= 1;
            assert multiset(roster)[top] >= 2;
          } else {
            assert sorted[1] in roster && sorted[1] != p && !(sorted[1].score < p.score);
          }
        } else {
          var k :| 0 <= k < |sorted| && sorted[k] == p;
          assert k > 0;
          assert top in roster && top != p && !(top.score < p.score);
        }
      }
    }
  }
}
