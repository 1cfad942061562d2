/**
 * The board that both `Game` constructors build (public/js/app.js and
 * js/app.js): a grid of lines and boxes. In the networked client,
 * horizontal lines are `lines.h[x][y]`; vertical lines are `lines.v[x][y]`
 * and boxes `boxes[y][x]` in both programs. The local game's row-first
 * horizontal lines are in module LocalBoard.
 *
 * A `Line` or `Box` object is a cell of these arrays, whatever the type O
 * of its owner; a box refers to its four lines by their position, so two
 * boxes that name the same position share one line, and a line's listeners
 * are the boxes that registered with it, in registration order.
 */
module Board {
  import opened Wrappers

  datatype Dir = H | V

  /** A reference to `lines[dir][x][y]`. */
  datatype LineRef = LineRef(dir: Dir, x: int, y: int)

  /** A reference to `boxes[y][x]`: the box whose `onLineClick` a listener calls. */
  datatype BoxRef = BoxRef(x: int, y: int)

  /** A `Line`: its owner (`null` until `setPlayer`) and its listeners. */
  datatype Line<O> = Line(x: int, y: int, player: Option<O>, listeners: seq<BoxRef>)

  /** A `Box`: its four bounding lines and its owner (`null` until closed). */
  datatype Box<O> = Box(x: int, y: int, lineLeft: LineRef, lineTop: LineRef, lineRight: LineRef, lineBottom: LineRef, player: Option<O>)

  /** The box the constructor creates at column x, row y, still unowned. */
  function NewBox<O>(x: int, y: int): Box<O> {
    Box(x, y, LineRef(V, x, y), LineRef(H, x, y), LineRef(V, x + 1, y), LineRef(H, x, y + 1), None)
  }

  /**
   * Construction order: box (a, b) has been built once the loops
   * `for x … for y …` have passed it, i.e. before box (px, py).
   */
  predicate Built(a: int, b: int, px: int, py: int) {
    a < px || (a == px && b < py)
  }

  /** The listeners of `h[a][b]` once the boxes before (px, py) are built: the box above, then the box below. */
  function HListeners(hgt: int, px: int, py: int, a: int, b: int): seq<BoxRef> {
    (if 0 < b && Built(a, b - 1, px, py) then [BoxRef(a, b - 1)] else [])
    + (if b < hgt && Built(a, b, px, py) then [BoxRef(a, b)] else [])
  }

  /** The listeners of `v[a][b]`: the box to the left, then the box to the right. */
  function VListeners(w: int, px: int, py: int, a: int, b: int): seq<BoxRef> {
    (if 0 < a && Built(a - 1, b, px, py) then [BoxRef(a - 1, b)] else [])
    + (if a < w && Built(a, b, px, py) then [BoxRef(a, b)] else [])
  }

  /**
   * `lines.h` after the boxes before (px, py) are built; `unowned` adds
   * that no line has an owner yet.
   */
  ghost predicate HLayout<O>(hgt: nat, px: nat, py: nat, h: seq<seq<Line<O>>>, unowned: bool) {
    && |h| == (if hgt > 0 then px else 0) + (if py > 0 then 1 else 0)
    && (forall a :: 0 <= a < |h| ==> |h[a]| == if a < px then hgt + 1 else py + 1)
    && (forall a, b :: 0 <= a < |h| && 0 <= b < |h[a]| ==>
          && h[a][b].x == a && h[a][b].y == b
          && h[a][b].listeners == HListeners(hgt, px, py, a, b)
          && (unowned ==> h[a][b].player == None))
  }

  ghost predicate VLayout<O>(w: nat, hgt: nat, px: nat, py: nat, v: seq<seq<Line<O>>>, unowned: bool) {
    && |v| == (if hgt == 0 then 0 else if py > 0 then px + 2 else if px > 0 then px + 1 else 0)
    && (forall a :: 0 <= a < |v| ==> |v[a]| == if a < px || (a == px && px > 0) then hgt else py)
    && (forall a, b :: 0 <= a < |v| && 0 <= b < |v[a]| ==>
          && v[a][b].x == a && v[a][b].y == b
          && v[a][b].listeners == VListeners(w, px, py, a, b)
          && (unowned ==> v[a][b].player == None))
  }

  ghost predicate BoxLayout<O>(hgt: nat, px: nat, py: nat, boxes: seq<seq<Box<O>>>, unowned: bool) {
    && |boxes| == (if px > 0 then hgt else py)
    && (forall b :: 0 <= b < |boxes| ==> |boxes[b]| == if b < py then px + 1 else px)
    && (forall b, a :: 0 <= b < |boxes| && 0 <= a < |boxes[b]| ==>
          && boxes[b][a].(player := None) == NewBox(a, b)
          && (unowned ==> boxes[b][a].player == None))
  }

  /** Non-negative loop bounds: `for (x = 0; x < width; …)` runs no time for a negative width. */
  function Bound(n: int): nat {
    if n < 0 then 0 else n
  }

  /**
   * The finished grid of a `width × height` game, whatever the owners:
   * every line and box where the construction loops put it.
   */
  ghost predicate Grid<O>(width: int, height: int, h: seq<seq<Line<O>>>, v: seq<seq<Line<O>>>, boxes: seq<seq<Box<O>>>) {
    var w, hgt := Bound(width), Bound(height);
    && HLayout(hgt, w, 0, h, false)
    && VLayout(w, hgt, w, 0, v, false)
    && BoxLayout(hgt, w, 0, boxes, false)
  }

  /** Appends `box` to the listeners of `cols[a][b]` (`Line.addListener`). */
  function AddListener<O>(cols: seq<seq<Line<O>>>, a: int, b: int, box: BoxRef): (r: seq<seq<Line<O>>>)
    requires 0 <= a < |cols| && 0 <= b < |cols[a]|
    ensures |r| == |cols| && forall i :: 0 <= i < |r| ==> |r[i]| == |cols[i]|
    ensures r[a][b] == cols[a][b].(listeners := cols[a][b].listeners + [box])
    ensures forall i, j :: 0 <= i < |r| && 0 <= j < |r[i]| && (i, j) != (a, b) ==> r[i][j] == cols[i][j]
  {
    cols[a := cols[a][b := cols[a][b].(listeners := cols[a][b].listeners + [box])]]
  }

  /** The three arrays after the boxes before (px, py) are built, with no owners yet. */
  ghost predicate Progress<O>(w: nat, hgt: nat, px: nat, py: nat, h: seq<seq<Line<O>>>, v: seq<seq<Line<O>>>, boxes: seq<seq<Box<O>>>) {
    HLayout(hgt, px, py, h, true) && VLayout(w, hgt, px, py, v, true) && BoxLayout(hgt, px, py, boxes, true)
  }

  /** Finishing a column of boxes is the same as starting the next one. */
  lemma NextColumn<O>(w: nat, hgt: nat, x: nat, h: seq<seq<Line<O>>>, v: seq<seq<Line<O>>>, boxes: seq<seq<Box<O>>>)
    requires x < w
    requires Progress(w, hgt, x, hgt, h, v, boxes)
    ensures Progress(w, hgt, x + 1, 0, h, v, boxes)
  {
    forall a, b | 0 <= a < |h| && 0 <= b < |h[a]|
      ensures HListeners(hgt, x, hgt, a, b) == HListeners(hgt, x + 1, 0, a, b)
    {
    }
    forall a, b | 0 <= a < |v| && 0 <= b < |v[a]|
      ensures VListeners(w, x, hgt, a, b) == VListeners(w, x + 1, 0, a, b)
    {
    }
  }

  /**
   * The `Game` constructor's loops (`for x … for y …`): for each box, take
   * the line at each of its four sides or create it when the array has none
   * there (`lines[…][…] || new Line…`), create the box, and register the box
   * with its left, top, right and bottom line. The arrays never get holes,
   * so "has none there" is "the index is the array's length".
   */
  method BuildGrid<O>(width: int, height: int) returns (h: seq<seq<Line<O>>>, v: seq<seq<Line<O>>>, boxes: seq<seq<Box<O>>>)
    ensures Grid(width, height, h, v, boxes)
    ensures Progress(Bound(width), Bound(height), Bound(width), 0, h, v, boxes)
  {
    var w, hgt := Bound(width), Bound(height);
    h, v, boxes := [], [], [];
    var x := 0;
    while x < width
      invariant 0 <= x <= w
      invariant Progress(w, hgt, x, 0, h, v, boxes)
    {
      var y := 0;
      while y < height
        invariant 0 <= y <= hgt
        invariant Progress(w, hgt, x, y, h, v, boxes)
      {
        h, v, boxes := PlaceGridBox(w, hgt, x, y, h, v, boxes);
        y := y + 1;
      }
      NextColumn(w, hgt, x, h, v, boxes);
      x := x + 1;
    }
    FinishedGrid(width, height, h, v, boxes);
  }

  /** One pass of the inner loop body: lines, registrations and the box at (x, y). */
  method PlaceGridBox<O>(w: nat, hgt: nat, x: nat, y: nat, h0: seq<seq<Line<O>>>, v0: seq<seq<Line<O>>>, boxes0: seq<seq<Box<O>>>)
    returns (h: seq<seq<Line<O>>>, v: seq<seq<Line<O>>>, boxes: seq<seq<Box<O>>>)
    requires x < w && y < hgt && Progress(w, hgt, x, y, h0, v0, boxes0)
    ensures Progress(w, hgt, x, y + 1, h, v, boxes)
  {
    h := TopAndBottom(hgt, x, y, h0);
    v := LeftAndRight(w, hgt, x, y, v0);
    boxes := PlaceBox(hgt, x, y, boxes0);
  }

  /** Once every column is built, the arrays form the finished grid. */
  lemma FinishedGrid<O>(width: int, height: int, h: seq<seq<Line<O>>>, v: seq<seq<Line<O>>>, boxes: seq<seq<Box<O>>>)
    requires Progress(Bound(width), Bound(height), Bound(width), 0, h, v, boxes)
    ensures Grid(width, height, h, v, boxes)
  {
  }

  /**
   * The horizontal part of building box (x, y): `lineTop = h[x][y] || new`,
   * `lineBottom = h[x][y + 1] || new`, and the box's registration with both.
   */
  method TopAndBottom<O>(hgt: nat, x: nat, y: nat, h0: seq<seq<Line<O>>>) returns (h: seq<seq<Line<O>>>)
    requires y < hgt && HLayout(hgt, x, y, h0, true)
    ensures HLayout(hgt, x, y + 1, h, true)
  {
    h := TakeOrCreate(h0, x, y, Line(x, y, None, []));
    h := TakeOrCreate(h, x, y + 1, Line(x, y + 1, None, []));
    ghost var created := h;
    h := AddListener(h, x, y, BoxRef(x, y));
    h := AddListener(h, x, y + 1, BoxRef(x, y));
    TopBottomRegistered(hgt, x, y, h0, created, h);
  }

  /**
   * How `h` relates to `h0` after taking or creating both horizontal lines
   * of box (x, y) in column x, giving `created`, and registering the box
   * with them.
   */
  ghost predicate TopBottomWritten<O>(x: nat, y: nat, h0: seq<seq<Line<O>>>, created: seq<seq<Line<O>>>, h: seq<seq<Line<O>>>) {
    && |created| == x + 1
    && (forall i :: 0 <= i < x && i < |h0| ==> created[i] == h0[i])
    && (y == 0 ==> created[x] == [Line(x, 0, None, []), Line(x, 1, None, [])])
    && (y > 0 ==> x < |h0| && created[x] == h0[x] + [Line(x, y + 1, None, [])])
    && |h| == |created| && (forall i :: 0 <= i < |h| ==> |h[i]| == |created[i]|)
    && y + 1 < |created[x]|
    && h[x][y] == created[x][y].(listeners := created[x][y].listeners + [BoxRef(x, y)])
    && h[x][y + 1] == created[x][y + 1].(listeners := created[x][y + 1].listeners + [BoxRef(x, y)])
    && (forall i, j :: 0 <= i < |h| && 0 <= j < |h[i]| && (i, j) != (x, y) && (i, j) != (x, y + 1) ==> h[i][j] == created[i][j])
  }

  /** What taking or creating both horizontal lines and registering box (x, y) with them leaves. */
  lemma TopBottomRegistered<O>(hgt: nat, x: nat, y: nat, h0: seq<seq<Line<O>>>, created: seq<seq<Line<O>>>, h: seq<seq<Line<O>>>)
    requires y < hgt && HLayout(hgt, x, y, h0, true)
    requires TopBottomWritten(x, y, h0, created, h)
    ensures HLayout(hgt, x, y + 1, h, true)
  {
    TopBottomLengths(hgt, x, y, h0, created, h);
    forall a, b | 0 <= a < |h| && 0 <= b < |h[a]|
      ensures h[a][b].x == a && h[a][b].y == b && h[a][b].player == None
      ensures h[a][b].listeners == HListeners(hgt, x, y + 1, a, b)
    {
      TopBottomCell(hgt, x, y, h0, created, h, a, b);
    }
  }

  /** The column lengths after registering box (x, y) with its horizontal lines. */
  lemma TopBottomLengths<O>(hgt: nat, x: nat, y: nat, h0: seq<seq<Line<O>>>, created: seq<seq<Line<O>>>, h: seq<seq<Line<O>>>)
    requires y < hgt && HLayout(hgt, x, y, h0, true)
    requires TopBottomWritten(x, y, h0, created, h)
    ensures |h| == x + 1 && |h0| == (if y > 0 then x + 1 else x)
    ensures forall i :: 0 <= i < |h| ==> |h[i]| == if i < x then hgt + 1 else y + 2
  {
    forall i | 0 <= i < |h|
      ensures |h[i]| == if i < x then hgt + 1 else y + 2
    {
      if i < x {
        assert |h[i]| == |h0[i]|;
      }
    }
  }

  /** One cell after registering box (x, y) with its horizontal lines. */
  lemma TopBottomCell<O>(hgt: nat, x: nat, y: nat, h0: seq<seq<Line<O>>>, created: seq<seq<Line<O>>>, h: seq<seq<Line<O>>>, a: int, b: int)
    requires y < hgt && HLayout(hgt, x, y, h0, true)
    requires TopBottomWritten(x, y, h0, created, h)
    requires 0 <= a < |h| && 0 <= b < |h[a]|
    ensures h[a][b].x == a && h[a][b].y == b && h[a][b].player == None
    ensures h[a][b].listeners == HListeners(hgt, x, y + 1, a, b)
  {
    TopBottomLengths(hgt, x, y, h0, created, h);
    HListenersStep(hgt, x, y, a, b);
    if (a, b) != (x, y) && (a, b) != (x, y + 1) {
      if a < x {
        assert created[a] == h0[a];
      } else {
        assert b < y && created[a][b] == h0[a][b];
      }
      assert h[a][b] == h0[a][b];
    }
  }

  /** Building box (x, y) adds it to the listeners of its top and bottom line and of no other. */
  lemma HListenersStep(hgt: nat, x: nat, y: nat, a: int, b: int)
    requires y < hgt
    ensures HListeners(hgt, x, y + 1, a, b) ==
      if (a, b) == (x, y) || (a, b) == (x, y + 1) then HListeners(hgt, x, y, a, b) + [BoxRef(x, y)]
      else HListeners(hgt, x, y, a, b)
  {
  }

  /**
   * `lines[d][a] = lines[d][a] || []` followed by
   * `lines[d][a][b] = lines[d][a][b] || new Line…`: the line at (a, b) is
   * kept when there is one and is `line`, the new line, when there is none.
   * Only the next free index is ever asked for.
   */
  method TakeOrCreate<O>(cols0: seq<seq<Line<O>>>, a: nat, b: nat, line: Line<O>) returns (cols: seq<seq<Line<O>>>)
    requires a <= |cols0| && (a < |cols0| ==> b <= |cols0[a]|) && (a == |cols0| ==> b == 0)
    ensures |cols| == if a < |cols0| then |cols0| else a + 1
    ensures forall i :: 0 <= i < |cols| && i != a ==> cols[i] == cols0[i]
    ensures a < |cols0| && b < |cols0[a]| ==> cols[a] == cols0[a]
    ensures a < |cols0| && b == |cols0[a]| ==> cols[a] == cols0[a] + [line]
    ensures a == |cols0| ==> cols[a] == [line]
  {
    cols := cols0;
    if a >= |cols| {
      cols := cols + [[]];
    }
    if b >= |cols[a]| {
      cols := cols[a := cols[a] + [line]];
    }
  }

  /**
   * The vertical part of building box (x, y): `lineLeft = v[x][y] || new`,
   * `lineRight = v[x + 1][y] || new`, and the box's registration with both.
   */
  method LeftAndRight<O>(w: nat, hgt: nat, x: nat, y: nat, v0: seq<seq<Line<O>>>) returns (v: seq<seq<Line<O>>>)
    requires x < w && y < hgt && VLayout(w, hgt, x, y, v0, true)
    ensures VLayout(w, hgt, x, y + 1, v, true)
  {
    v := TakeOrCreate(v0, x, y, Line(x, y, None, []));
    v := TakeOrCreate(v, x + 1, y, Line(x + 1, y, None, []));
    ghost var created := v;
    v := AddListener(v, x, y, BoxRef(x, y));
    v := AddListener(v, x + 1, y, BoxRef(x, y));
    LeftRightRegistered(w, hgt, x, y, v0, created, v);
  }

  /**
   * How `v` relates to `v0` after taking or creating both vertical lines of
   * box (x, y), giving `created`, and registering the box with them.
   */
  ghost predicate LeftRightWritten<O>(x: nat, y: nat, v0: seq<seq<Line<O>>>, created: seq<seq<Line<O>>>, v: seq<seq<Line<O>>>) {
    && |created| == x + 2
    && (forall i :: 0 <= i < |created| && i < |v0| && i != x && i != x + 1 ==> created[i] == v0[i])
    && (x < |v0| && y < |v0[x]| ==> created[x] == v0[x])
    && (x < |v0| && y == |v0[x]| ==> created[x] == v0[x] + [Line(x, y, None, [])])
    && (x == |v0| ==> created[x] == [Line(x, y, None, [])])
    && (x + 1 < |v0| ==> created[x + 1] == v0[x + 1] + [Line(x + 1, y, None, [])])
    && (x + 1 >= |v0| ==> created[x + 1] == [Line(x + 1, y, None, [])])
    && |v| == |created| && (forall i :: 0 <= i < |v| ==> |v[i]| == |created[i]|)
    && y < |created[x]| && v[x][y] == created[x][y].(listeners := created[x][y].listeners + [BoxRef(x, y)])
    && y < |created[x + 1]| && v[x + 1][y] == created[x + 1][y].(listeners := created[x + 1][y].listeners + [BoxRef(x, y)])
    && (forall i, j :: 0 <= i < |v| && 0 <= j < |v[i]| && (i, j) != (x, y) && (i, j) != (x + 1, y) ==> v[i][j] == created[i][j])
  }

  /** What taking or creating both vertical lines and registering box (x, y) with them leaves. */
  lemma LeftRightRegistered<O>(w: nat, hgt: nat, x: nat, y: nat, v0: seq<seq<Line<O>>>, created: seq<seq<Line<O>>>, v: seq<seq<Line<O>>>)
    requires x < w && y < hgt && VLayout(w, hgt, x, y, v0, true)
    requires LeftRightWritten(x, y, v0, created, v)
    ensures VLayout(w, hgt, x, y + 1, v, true)
  {
    LeftRightLengths(w, hgt, x, y, v0, created, v);
    forall a, b | 0 <= a < |v| && 0 <= b < |v[a]|
      ensures v[a][b].x == a && v[a][b].y == b && v[a][b].player == None
      ensures v[a][b].listeners == VListeners(w, x, y + 1, a, b)
    {
      LeftRightCell(w, hgt, x, y, v0, created, v, a, b);
    }
  }

  /** The column lengths after registering box (x, y) with its vertical lines. */
  lemma LeftRightLengths<O>(w: nat, hgt: nat, x: nat, y: nat, v0: seq<seq<Line<O>>>, created: seq<seq<Line<O>>>, v: seq<seq<Line<O>>>)
    requires x < w && y < hgt && VLayout(w, hgt, x, y, v0, true)
    requires LeftRightWritten(x, y, v0, created, v)
    ensures |v| == x + 2
    ensures forall i :: 0 <= i < |v| ==> |v[i]| == if i < x || (i == x && x > 0) then hgt else y + 1
  {
    assert x > 0 || y > 0 ==> x < |v0|;
    assert y > 0 ==> x + 1 < |v0| && |v0[x + 1]| == y;
    assert x > 0 ==> |v0[x]| == hgt && |created[x]| == hgt;
    assert x == 0 ==> |created[x]| == y + 1;
    assert |created[x + 1]| == y + 1;
    forall i | 0 <= i < |v|
      ensures |v[i]| == if i < x || (i == x && x > 0) then hgt else y + 1
    {
      if i < x {
        assert |v[i]| == |v0[i]|;
      }
    }
  }

  /** One cell after registering box (x, y) with its vertical lines. */
  lemma LeftRightCell<O>(w: nat, hgt: nat, x: nat, y: nat, v0: seq<seq<Line<O>>>, created: seq<seq<Line<O>>>, v: seq<seq<Line<O>>>, a: int, b: int)
    requires x < w && y < hgt && VLayout(w, hgt, x, y, v0, true)
    requires LeftRightWritten(x, y, v0, created, v)
    requires 0 <= a < |v| && 0 <= b < |v[a]|
    ensures v[a][b].x == a && v[a][b].y == b && v[a][b].player == None
    ensures v[a][b].listeners == VListeners(w, x, y + 1, a, b)
  {
    LeftRightLengths(w, hgt, x, y, v0, created, v);
    VListenersStep(w, x, y, a, b);
    if (a, b) != (x, y) && (a, b) != (x + 1, y) {
      if a < x {
        assert created[a] == v0[a];
      } else if a == x {
        assert b < y || x > 0;
        assert created[a][b] == v0[a][b];
      } else {
        assert b < y && created[a][b] == v0[a][b];
      }
      assert v[a][b] == v0[a][b];
    }
  }

  /** Building box (x, y) adds it to the listeners of its left and right line and of no other. */
  lemma VListenersStep(w: nat, x: nat, y: nat, a: int, b: int)
    requires x < w
    ensures VListeners(w, x, y + 1, a, b) ==
      if (a, b) == (x, y) || (a, b) == (x + 1, y) then VListeners(w, x, y, a, b) + [BoxRef(x, y)]
      else VListeners(w, x, y, a, b)
  {
  }

  /** `boxes[y] = boxes[y] || []; boxes[y][x] = new Box(…)`. */
  method PlaceBox<O>(hgt: nat, x: nat, y: nat, boxes0: seq<seq<Box<O>>>) returns (boxes: seq<seq<Box<O>>>)
    requires y < hgt && BoxLayout(hgt, x, y, boxes0, true)
    ensures BoxLayout(hgt, x, y + 1, boxes, true)
  {
    boxes := boxes0;
    if y >= |boxes| {
      boxes := boxes + [[]];
    }
    boxes := boxes[y := boxes[y] + [NewBox(x, y)]];
  }

  /**
   * `this.lines[dir][x][y]`: the line at a reference, or None where the
   * arrays have nothing (JavaScript would read `undefined` there).
   */
  function Lookup<O>(h: seq<seq<Line<O>>>, v: seq<seq<Line<O>>>, r: LineRef): Option<Line<O>> {
    var cols := if r.dir == H then h else v;
    if 0 <= r.x < |cols| && 0 <= r.y < |cols[r.x]| then Some(cols[r.x][r.y]) else None
  }

  /** `this.boxes[y][x]`. */
  function BoxAt<O>(boxes: seq<seq<Box<O>>>, b: BoxRef): Option<Box<O>> {
    if 0 <= b.y < |boxes| && 0 <= b.x < |boxes[b.y]| then Some(boxes[b.y][b.x]) else None
  }

  /** The four lines of a box, in the order the `Box` constructor registers with them. */
  function Sides<O>(box: Box<O>): seq<LineRef> {
    [box.lineLeft, box.lineTop, box.lineRight, box.lineBottom]
  }

  /**
   * In a finished grid, box (x, y) exists exactly for 0 <= x < width and
   * 0 <= y < height, and is bound to top `h[x][y]`, bottom `h[x][y + 1]`,
   * left `v[x][y]` and right `v[x + 1][y]`, all of which exist.
   */
  lemma {:induction false} BoxBinding<O>(width: int, height: int, h: seq<seq<Line<O>>>, v: seq<seq<Line<O>>>, boxes: seq<seq<Box<O>>>, x: int, y: int)
    requires Grid(width, height, h, v, boxes)
    ensures BoxAt(boxes, BoxRef(x, y)).Some? <==> 0 <= x < width && 0 <= y < height
    ensures BoxAt(boxes, BoxRef(x, y)).Some? ==>
      var box := BoxAt(boxes, BoxRef(x, y)).value;
      && box.x == x && box.y == y
      && box.lineTop == LineRef(H, x, y) && box.lineBottom == LineRef(H, x, y + 1)
      && box.lineLeft == LineRef(V, x, y) && box.lineRight == LineRef(V, x + 1, y)
      && (forall r :: r in Sides(box) ==> Lookup(h, v, r).Some?)
  {
    if 0 <= x < width && 0 <= y < height {
      assert |boxes| == height && |boxes[y]| == width;
      assert boxes[y][x].(player := None) == NewBox(x, y);
      assert |h| == width && |h[x]| == height + 1;
      assert |v| == width + 1 && |v[x]| == height && |v[x + 1]| == height;
    }
  }

  /**
   * The listeners of a line in a finished grid: horizontal `h[x][y]` is
   * listened to by the box above (x, y - 1), then the box below (x, y);
   * vertical `v[x][y]` by the box to the left (x - 1, y), then the box to
   * the right (x, y). Interior lines have two listeners, edge lines one.
   */
  lemma {:induction false} LineListeners<O>(width: int, height: int, h: seq<seq<Line<O>>>, v: seq<seq<Line<O>>>, boxes: seq<seq<Box<O>>>, r: LineRef)
    requires Grid(width, height, h, v, boxes)
    ensures Lookup(h, v, r).Some? <==> OnGrid(width, height, r)
    ensures Lookup(h, v, r).Some? ==>
      var line := Lookup(h, v, r).value;
      line.x == r.x && line.y == r.y && line.listeners == GridListeners(width, height, r)
  {
    if Lookup(h, v, r).Some? {
      if r.dir == H {
        assert r.x < |h| && r.y < |h[r.x]|;
      } else {
        assert r.x < |v| && r.y < |v[r.x]|;
      }
    }
  }

  /** A line has one or two listeners, and two listeners are different boxes. */
  lemma ListenersDistinct<O>(width: int, height: int, h: seq<seq<Line<O>>>, v: seq<seq<Line<O>>>, boxes: seq<seq<Box<O>>>, r: LineRef)
    requires Grid(width, height, h, v, boxes) && Lookup(h, v, r).Some?
    ensures var ls := Lookup(h, v, r).value.listeners;
      1 <= |ls| <= 2 && (|ls| == 2 ==> ls[0] != ls[1])
  {
    LineListeners(width, height, h, v, boxes, r);
  }

  /**
   * Line sharing as an adjacency table, both ways: a box is among a line's
   * listeners exactly when the line is one of the box's four sides.
   */
  lemma Adjacency<O>(width: int, height: int, h: seq<seq<Line<O>>>, v: seq<seq<Line<O>>>, boxes: seq<seq<Box<O>>>, r: LineRef, b: BoxRef)
    requires Grid(width, height, h, v, boxes)
    ensures (Lookup(h, v, r).Some? && b in Lookup(h, v, r).value.listeners) <==>
            (BoxAt(boxes, b).Some? && r in Sides(BoxAt(boxes, b).value))
  {
    LineListeners(width, height, h, v, boxes, r);
    BoxBinding(width, height, h, v, boxes, b.x, b.y);
    AdjacencyTable(width, height, r, b);
  }

  /** Where a `width × height` grid has a line. */
  predicate OnGrid(width: int, height: int, r: LineRef) {
    if r.dir == H then 0 <= r.x < width && 0 <= r.y <= height && height > 0
    else 0 <= r.x <= width && 0 <= r.y < height && width > 0
  }

  /**
   * The listeners of a line of a finished grid: for a horizontal line the
   * box above, then the box below; for a vertical line the box to the
   * left, then the box to the right; edge lines have one.
   */
  function GridListeners(width: int, height: int, r: LineRef): seq<BoxRef> {
    if r.dir == H then
      (if r.y > 0 then [BoxRef(r.x, r.y - 1)] else []) + (if r.y < height then [BoxRef(r.x, r.y)] else [])
    else
      (if r.x > 0 then [BoxRef(r.x - 1, r.y)] else []) + (if r.x < width then [BoxRef(r.x, r.y)] else [])
  }

  /** The sides of box b: left, top, right, bottom. */
  function GridSides(b: BoxRef): seq<LineRef> {
    [LineRef(V, b.x, b.y), LineRef(H, b.x, b.y), LineRef(V, b.x + 1, b.y), LineRef(H, b.x, b.y + 1)]
  }

  /** The closed forms agree: a box listens to a line exactly when the line is one of its sides. */
  lemma AdjacencyTable(width: int, height: int, r: LineRef, b: BoxRef)
    ensures (OnGrid(width, height, r) && b in GridListeners(width, height, r))
        <==> (0 <= b.x < width && 0 <= b.y < height && r in GridSides(b))
  {
  }
}
