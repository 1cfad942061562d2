/**
 * The board of the standalone game (js/app.js). Vertical lines
 * (`lines.v[x][y]`) and boxes (`boxes[y][x]`) are laid out as in the
 * networked client, but horizontal lines are stored row first:
 * `lines.h[y][x]` is the line at column x, row y. The construction loops
 * and the listener registration order are the same as in module Board.
 */
module LocalBoard {
  import opened Wrappers
  import opened Board

  /**
   * `lines.h` after the boxes before (px, py) are built: rows `h[b]`, the
   * entry of column a in row b listened to by the built boxes above and
   * below it.
   */
  ghost predicate RowLayout<O>(hgt: nat, px: nat, py: nat, h: seq<seq<Line<O>>>, unowned: bool) {
    && |h| == (if hgt == 0 then 0 else if px > 0 then hgt + 1 else if py > 0 then py + 1 else 0)
    && (forall b :: 0 <= b < |h| ==> |h[b]| == if py > 0 && b <= py then px + 1 else px)
    && (forall b, a :: 0 <= b < |h| && 0 <= a < |h[b]| ==>
          && h[b][a].x == a && h[b][a].y == b
          && h[b][a].listeners == HListeners(hgt, px, py, a, b)
          && (unowned ==> h[b][a].player == None))
  }

  /** The finished grid of a `width × height` local game, whatever the owners. */
  ghost predicate LocalGrid<O>(width: int, height: int, h: seq<seq<Line<O>>>, v: seq<seq<Line<O>>>, boxes: seq<seq<Box<O>>>) {
    var w, hgt := Bound(width), Bound(height);
    && RowLayout(hgt, w, 0, h, false)
    && VLayout(w, hgt, w, 0, v, false)
    && BoxLayout(hgt, w, 0, boxes, false)
  }

  /** The three arrays after the boxes before (px, py) are built, with no owners yet. */
  ghost predicate LocalProgress<O>(w: nat, hgt: nat, px: nat, py: nat, h: seq<seq<Line<O>>>, v: seq<seq<Line<O>>>, boxes: seq<seq<Box<O>>>) {
    RowLayout(hgt, px, py, h, true) && VLayout(w, hgt, px, py, v, true) && BoxLayout(hgt, px, py, boxes, true)
  }

  /** Finishing a column of boxes is the same as starting the next one. */
  lemma NextRowColumn<O>(w: nat, hgt: nat, x: nat, h: seq<seq<Line<O>>>, v: seq<seq<Line<O>>>, boxes: seq<seq<Box<O>>>)
    requires x < w
    requires LocalProgress(w, hgt, x, hgt, h, v, boxes)
    ensures LocalProgress(w, hgt, x + 1, 0, h, v, boxes)
  {
    forall b, a | 0 <= b < |h| && 0 <= a < |h[b]|
      ensures HListeners(hgt, x, hgt, a, b) == HListeners(hgt, x + 1, 0, a, b)
    {
    }
    forall a, b | 0 <= a < |v| && 0 <= b < |v[a]|
      ensures VListeners(w, x, hgt, a, b) == VListeners(w, x + 1, 0, a, b)
    {
    }
  }

  /**
   * The local `Game` constructor's loops: the same steps as `BuildGrid`,
   * with `lineTop = h[y][x] || new` and `lineBottom = h[y + 1][x] || new`.
   */
  method BuildLocalGrid<O>(width: int, height: int) returns (h: seq<seq<Line<O>>>, v: seq<seq<Line<O>>>, boxes: seq<seq<Box<O>>>)
    ensures LocalGrid(width, height, h, v, boxes)
    ensures LocalProgress(Bound(width), Bound(height), Bound(width), 0, h, v, boxes)
  {
    var w, hgt := Bound(width), Bound(height);
    h, v, boxes := [], [], [];
    var x := 0;
    while x < width
      invariant 0 <= x <= w
      invariant LocalProgress(w, hgt, x, 0, h, v, boxes)
    {
      var y := 0;
      while y < height
        invariant 0 <= y <= hgt
        invariant LocalProgress(w, hgt, x, y, h, v, boxes)
      {
        h, v, boxes := PlaceLocalBox(w, hgt, x, y, h, v, boxes);
        y := y + 1;
      }
      NextRowColumn(w, hgt, x, h, v, boxes);
      x := x + 1;
    }
    FinishedLocalGrid(width, height, h, v, boxes);
  }

  /** One pass of the inner loop body: lines, registrations and the box at (x, y). */
  method PlaceLocalBox<O>(w: nat, hgt: nat, x: nat, y: nat, h0: seq<seq<Line<O>>>, v0: seq<seq<Line<O>>>, boxes0: seq<seq<Box<O>>>)
    returns (h: seq<seq<Line<O>>>, v: seq<seq<Line<O>>>, boxes: seq<seq<Box<O>>>)
    requires x < w && y < hgt && LocalProgress(w, hgt, x, y, h0, v0, boxes0)
    ensures LocalProgress(w, hgt, x, y + 1, h, v, boxes)
  {
    h := TopAndBottomRows(hgt, x, y, h0);
    v := LeftAndRight(w, hgt, x, y, v0);
    boxes := PlaceBox(hgt, x, y, boxes0);
  }

  /** Once every column is built, the arrays form the finished grid. */
  lemma FinishedLocalGrid<O>(width: int, height: int, h: seq<seq<Line<O>>>, v: seq<seq<Line<O>>>, boxes: seq<seq<Box<O>>>)
    requires LocalProgress(Bound(width), Bound(height), Bound(width), 0, h, v, boxes)
    ensures LocalGrid(width, height, h, v, boxes)
  {
  }

  /**
   * The horizontal part of building box (x, y) in the local game:
   * `lines.h[y] = lines.h[y] || []`, `lineTop = h[y][x] || new`, the same
   * for row y + 1, and the box's registration with both lines.
   */
  method TopAndBottomRows<O>(hgt: nat, x: nat, y: nat, h0: seq<seq<Line<O>>>) returns (h: seq<seq<Line<O>>>)
    requires y < hgt && RowLayout(hgt, x, y, h0, true)
    ensures RowLayout(hgt, x, y + 1, h, true)
  {
    h := TakeOrCreate(h0, y, x, Line(x, y, None, []));
    h := TakeOrCreate(h, y + 1, x, Line(x, y + 1, None, []));
    ghost var created := h;
    h := AddListener(h, y, x, BoxRef(x, y));
    h := AddListener(h, y + 1, x, BoxRef(x, y));
    RowsRegistered(hgt, x, y, h0, created, h);
  }

  /**
   * How `h` relates to `h0` after taking or creating both horizontal lines
   * of box (x, y) in rows y and y + 1, giving `created`, and registering
   * the box with them.
   */
  ghost predicate RowsWritten<O>(hgt: nat, x: nat, y: nat, h0: seq<seq<Line<O>>>, created: seq<seq<Line<O>>>, h: seq<seq<Line<O>>>) {
    && |created| == (if x > 0 then hgt + 1 else y + 2) && y + 1 < |created|
    && (forall i :: 0 <= i < |created| && i < |h0| && i != y && i != y + 1 ==> created[i] == h0[i])
    && (y < |h0| && x < |h0[y]| ==> created[y] == h0[y])
    && (y < |h0| && x == |h0[y]| ==> created[y] == h0[y] + [Line(x, y, None, [])])
    && (y == |h0| ==> created[y] == [Line(x, y, None, [])])
    && (y + 1 < |h0| ==> created[y + 1] == h0[y + 1] + [Line(x, y + 1, None, [])])
    && (y + 1 >= |h0| ==> created[y + 1] == [Line(x, y + 1, None, [])])
    && |h| == |created| && (forall i :: 0 <= i < |h| ==> |h[i]| == |created[i]|)
    && x < |created[y]| && h[y][x] == created[y][x].(listeners := created[y][x].listeners + [BoxRef(x, y)])
    && x < |created[y + 1]| && h[y + 1][x] == created[y + 1][x].(listeners := created[y + 1][x].listeners + [BoxRef(x, y)])
    && (forall i, j :: 0 <= i < |h| && 0 <= j < |h[i]| && (i, j) != (y, x) && (i, j) != (y + 1, x) ==> h[i][j] == created[i][j])
  }

  /** What taking or creating both horizontal lines and registering box (x, y) with them leaves. */
  lemma RowsRegistered<O>(hgt: nat, x: nat, y: nat, h0: seq<seq<Line<O>>>, created: seq<seq<Line<O>>>, h: seq<seq<Line<O>>>)
    requires y < hgt && RowLayout(hgt, x, y, h0, true)
    requires RowsWritten(hgt, x, y, h0, created, h)
    ensures RowLayout(hgt, x, y + 1, h, true)
  {
    RowsLengths(hgt, x, y, h0, created, h);
    forall b, a | 0 <= b < |h| && 0 <= a < |h[b]|
      ensures h[b][a].x == a && h[b][a].y == b && h[b][a].player == None
      ensures h[b][a].listeners == HListeners(hgt, x, y + 1, a, b)
    {
      RowsCell(hgt, x, y, h0, created, h, b, a);
    }
  }

  /** One cell after registering box (x, y) with its horizontal lines. */
  lemma RowsCell<O>(hgt: nat, x: nat, y: nat, h0: seq<seq<Line<O>>>, created: seq<seq<Line<O>>>, h: seq<seq<Line<O>>>, b: int, a: int)
    requires y < hgt && RowLayout(hgt, x, y, h0, true)
    requires RowsWritten(hgt, x, y, h0, created, h)
    requires 0 <= b < |h| && 0 <= a < |h[b]|
    ensures h[b][a].x == a && h[b][a].y == b && h[b][a].player == None
    ensures h[b][a].listeners == HListeners(hgt, x, y + 1, a, b)
  {
    RowsLengths(hgt, x, y, h0, created, h);
    HListenersStep(hgt, x, y, a, b);
    if (b, a) != (y, x) && (b, a) != (y + 1, x) {
      assert a < x || (b < y && a == x) || (b == y && a < x);
      assert created[b][a] == h0[b][a];
      assert h[b][a] == h0[b][a];
    }
  }

  /** The row lengths after registering box (x, y). */
  lemma RowsLengths<O>(hgt: nat, x: nat, y: nat, h0: seq<seq<Line<O>>>, created: seq<seq<Line<O>>>, h: seq<seq<Line<O>>>)
    requires y < hgt && RowLayout(hgt, x, y, h0, true)
    requires RowsWritten(hgt, x, y, h0, created, h)
    ensures |h| == (if x > 0 then hgt + 1 else y + 2)
    ensures forall i :: 0 <= i < |h| ==> |h[i]| == if i <= y + 1 then x + 1 else x
    ensures forall i :: 0 <= i < |h0| ==> |h0[i]| == if y > 0 && i <= y then x + 1 else x
    ensures |h0| == (if x > 0 then hgt + 1 else if y > 0 then y + 1 else 0)
  {
    assert x > 0 || y > 0 ==> y < |h0|;
    assert y + 1 < |h0| ==> |h0[y + 1]| == x;
    forall i | 0 <= i < |h|
      ensures |h[i]| == if i <= y + 1 then x + 1 else x
    {
      if i != y && i != y + 1 {
        assert |h[i]| == |h0[i]|;
      }
    }
  }

  /** `lines.h[y][x]` or `lines.v[x][y]`: the line at a reference in the local game. */
  function RowLookup<O>(h: seq<seq<Line<O>>>, v: seq<seq<Line<O>>>, r: LineRef): Option<Line<O>> {
    if r.dir == H then
      if 0 <= r.y < |h| && 0 <= r.x < |h[r.y]| then Some(h[r.y][r.x]) else None
    else Lookup(h, v, r)
  }

  /**
   * Box (x, y) exists exactly for 0 <= x < width and 0 <= y < height, and
   * is bound to top `h[y][x]`, bottom `h[y + 1][x]`, left `v[x][y]` and
   * right `v[x + 1][y]`, all of which exist.
   */
  lemma {:induction false} LocalBoxBinding<O>(width: int, height: int, h: seq<seq<Line<O>>>, v: seq<seq<Line<O>>>, boxes: seq<seq<Box<O>>>, x: int, y: int)
    requires LocalGrid(width, height, h, v, boxes)
    ensures BoxAt(boxes, BoxRef(x, y)).Some? <==> 0 <= x < width && 0 <= y < height
    ensures BoxAt(boxes, BoxRef(x, y)).Some? ==>
      var box := BoxAt(boxes, BoxRef(x, y)).value;
      && box.x == x && box.y == y
      && box.lineTop == LineRef(H, x, y) && box.lineBottom == LineRef(H, x, y + 1)
      && box.lineLeft == LineRef(V, x, y) && box.lineRight == LineRef(V, x + 1, y)
      && RowLookup(h, v, box.lineTop) == Some(h[y][x])
      && RowLookup(h, v, box.lineBottom) == Some(h[y + 1][x])
      && (forall r :: r in Sides(box) ==> RowLookup(h, v, r).Some?)
  {
    if 0 <= x < width && 0 <= y < height {
      assert |boxes| == height && |boxes[y]| == width;
      assert boxes[y][x].(player := None) == NewBox(x, y);
      assert |h| == height + 1 && |h[y]| == width && |h[y + 1]| == width;
      assert |v| == width + 1 && |v[x]| == height && |v[x + 1]| == height;
    }
  }

  /**
   * The listeners of a line in a finished local grid: the line at column
   * x, row y is listened to by the box above, then the box below; a
   * vertical line by the box to its left, then the box to its right.
   */
  lemma {:induction false} LocalLineListeners<O>(width: int, height: int, h: seq<seq<Line<O>>>, v: seq<seq<Line<O>>>, boxes: seq<seq<Box<O>>>, r: LineRef)
    requires LocalGrid(width, height, h, v, boxes)
    ensures RowLookup(h, v, r).Some? <==> OnGrid(width, height, r)
    ensures RowLookup(h, v, r).Some? ==>
      var line := RowLookup(h, v, r).value;
      line.x == r.x && line.y == r.y && line.listeners == GridListeners(width, height, r)
  {
    if RowLookup(h, v, r).Some? {
      if r.dir == H {
        assert r.y < |h| && r.x < |h[r.y]|;
      } else {
        assert r.x < |v| && r.y < |v[r.x]|;
      }
    }
  }

  /** Line sharing in the local grid: a box listens to a line exactly when the line is one of its sides. */
  lemma LocalAdjacency<O>(width: int, height: int, h: seq<seq<Line<O>>>, v: seq<seq<Line<O>>>, boxes: seq<seq<Box<O>>>, r: LineRef, b: BoxRef)
    requires LocalGrid(width, height, h, v, boxes)
    ensures (RowLookup(h, v, r).Some? && b in RowLookup(h, v, r).value.listeners) <==>
            (BoxAt(boxes, b).Some? && r in Sides(BoxAt(boxes, b).value))
  {
    LocalLineListeners(width, height, h, v, boxes, r);
    LocalBoxBinding(width, height, h, v, boxes, b.x, b.y);
    AdjacencyTable(width, height, r, b);
  }
}
