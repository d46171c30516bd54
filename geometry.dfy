/**
 * The shared vocabulary of the tile renderers: tags and their positions, the
 * spatial index as a filter over closed rectangles, the world-to-pixel
 * transform, the padded world extent with its normalised positions, and the
 * draw events a renderer emits.
 */
module Geometry {
  import opened Wrappers

  /** The exceptions the renderers raise. */
  datatype Error =
    | EmptyTagList     // max()/min() over an empty tag list
    | ZoomOutOfRange   // the per-zoom tile size table has no entry for the zoom
    | DivisionByZero   // the largest PostCount of the data set is 0
    | FontOutOfRange   // the per-zoom font table has no entry for the zoom
    | MissingPostCount // a tag object read without a PostCount attribute

  /** A point of the plane, in world or in pixel coordinates. */
  datatype Point = Point(x: real, y: real)

  /** A named point; postCount is None when the attribute table gives the tag no PostCount. */
  datatype Tag = Tag(x: real, y: real, name: string, postCount: Option<int>)

  /** The position of a tag. */
  function Position(t: Tag): Point {
    Point(t.x, t.y)
  }

  /** The weight of a tag: its PostCount, or -1 when it has none. */
  function Count(t: Tag): int {
    match t.postCount
    case Some(c) => c
    case None => -1
  }

  // ---------------------------------------------------------------------------
  // The spatial index
  // ---------------------------------------------------------------------------

  /** A closed axis-aligned rectangle (min_x, min_y, max_x, max_y). */
  datatype Rect = Rect(minX: real, minY: real, maxX: real, maxY: real)

  /** A tag's single-point bounding box intersects the closed rectangle. */
  predicate InRect(t: Tag, r: Rect) {
    r.minX <= t.x <= r.maxX && r.minY <= t.y <= r.maxY
  }

  predicate RectWithin(inner: Rect, outer: Rect) {
    outer.minX <= inner.minX && outer.minY <= inner.minY &&
    inner.maxX <= outer.maxX && inner.maxY <= outer.maxY
  }

  /** The square [corner, corner + size] grown by margin on every side. */
  function Window(corner: Point, size: real, margin: real): (r: Rect)
    ensures r.maxX - r.minX == size + 2.0 * margin
    ensures r.maxY - r.minY == size + 2.0 * margin
    ensures r.minX + margin == corner.x && r.minY + margin == corner.y
  {
    Rect(corner.x - margin, corner.y - margin, corner.x + size + margin, corner.y + size + margin)
  }

  /**
   * A window query on the index: the inserted tags whose point lies in the
   * closed rectangle, in insertion order.
   */
  function Query(index: seq<Tag>, r: Rect): (m: seq<Tag>)
    ensures |m| <= |index|
  {
    if |index| == 0 then []
    else
      var last := index[|index| - 1];
      Query(index[..|index| - 1], r) + (if InRect(last, r) then [last] else [])
  }

  /**
   * The query is a filter: it returns each indexed tag inside the closed
   * rectangle as often as the index holds it, and nothing else.
   */
  lemma {:induction false} QueryIsFilter(index: seq<Tag>, r: Rect, t: Tag)
    ensures multiset(Query(index, r))[t] == if InRect(t, r) then multiset(index)[t] else 0
    ensures t in Query(index, r) <==> t in index && InRect(t, r)
  {
    if |index| > 0 {
      var last := index[|index| - 1];
      assert index == index[..|index| - 1] + [last];
      QueryIsFilter(index[..|index| - 1], r, t);
    }
  }

  /** A query on a larger rectangle returns at least the same tags, as often. */
  lemma {:induction false} QueryMonotone(index: seq<Tag>, inner: Rect, outer: Rect)
    requires RectWithin(inner, outer)
    ensures multiset(Query(index, inner)) <= multiset(Query(index, outer))
  {
    if |index| > 0 {
      QueryMonotone(index[..|index| - 1], inner, outer);
    }
  }

  /** The window grown by a non-negative margin contains the window itself, and so does its query. */
  lemma QueryWindowGrows(index: seq<Tag>, corner: Point, size: real, margin: real)
    requires margin >= 0.0
    ensures RectWithin(Window(corner, size, 0.0), Window(corner, size, margin))
    ensures multiset(Query(index, Window(corner, size, 0.0))) <= multiset(Query(index, Window(corner, size, margin)))
  {
    QueryMonotone(index, Window(corner, size, 0.0), Window(corner, size, margin));
  }

  // ---------------------------------------------------------------------------
  // World to pixel
  // ---------------------------------------------------------------------------

  /**
   * Translate p relative to corner, then scale a world length of size to
   * scale pixels: the corner lands on pixel (0, 0) and the opposite corner
   * of the square of side size on pixel (scale, scale).
   */
  function ToPixel(p: Point, corner: Point, size: real, scale: real): (r: Point)
    requires size > 0.0
    ensures p == corner ==> r == Point(0.0, 0.0)
    ensures p == Point(corner.x + size, corner.y + size) ==> r == Point(scale, scale)
  {
    Point((p.x - corner.x) / size * scale, (p.y - corner.y) / size * scale)
  }

  /** The transform is linear: differences in world space scale by scale / size. */
  lemma PixelLinear(a: Point, b: Point, corner: Point, size: real, scale: real)
    requires size > 0.0
    ensures ToPixel(a, corner, size, scale).x - ToPixel(b, corner, size, scale).x == (a.x - b.x) * (scale / size)
    ensures ToPixel(a, corner, size, scale).y - ToPixel(b, corner, size, scale).y == (a.y - b.y) * (scale / size)
  {
    var k := scale / size;
    assert (a.x - corner.x) / size * scale == (a.x - corner.x) * k;
    assert (b.x - corner.x) / size * scale == (b.x - corner.x) * k;
    assert (a.y - corner.y) / size * scale == (a.y - corner.y) * k;
    assert (b.y - corner.y) / size * scale == (b.y - corner.y) * k;
  }

  /** A tag lies in the unshifted window exactly when its pixel lies in [0, scale] x [0, scale]. */
  lemma PixelInsideWindow(t: Tag, corner: Point, size: real, scale: real)
    requires size > 0.0 && scale > 0.0
    ensures InRect(t, Window(corner, size, 0.0)) <==>
      (var p := ToPixel(Position(t), corner, size, scale);
       0.0 <= p.x <= scale && 0.0 <= p.y <= scale)
  {
    var p := ToPixel(Position(t), corner, size, scale);
    AxisPixel(t.x, corner.x, size, scale, p.x);
    AxisPixel(t.y, corner.y, size, scale, p.y);
  }

  /** Along one axis: a coordinate lies in [c, c + size] exactly when its pixel lies in [0, scale]. */
  lemma AxisPixel(a: real, c: real, size: real, scale: real, px: real)
    requires size > 0.0 && scale > 0.0 && px == (a - c) / size * scale
    ensures (c <= a <= c + size) <==> (0.0 <= px <= scale)
  {
    ScaledUnitInterval(a - c, size, scale);
  }

  /** 0 <= d <= size exactly when 0 <= d / size * scale <= scale. */
  lemma ScaledUnitInterval(d: real, size: real, scale: real)
    requires size > 0.0 && scale > 0.0
    ensures (0.0 <= d <= size) <==> (0.0 <= d / size * scale <= scale)
  {
    var u := d / size;
    assert d == u * size;
    if 0.0 <= d <= size {
      assert 0.0 <= u <= 1.0;
      assert u * scale <= 1.0 * scale;
    }
    if 0.0 <= u * scale <= scale {
      assert 0.0 <= u <= 1.0;
      assert u * size <= 1.0 * size;
    }
  }

  // ---------------------------------------------------------------------------
  // The padded extent and normalised positions
  // ---------------------------------------------------------------------------

  function Min(xs: seq<real>): real
    requires |xs| > 0
  {
    if |xs| == 1 then xs[0]
    else
      var rest := Min(xs[1..]);
      if xs[0] <= rest then xs[0] else rest
  }

  function Max(xs: seq<real>): real
    requires |xs| > 0
  {
    if |xs| == 1 then xs[0]
    else
      var rest := Max(xs[1..]);
      if rest <= xs[0] then xs[0] else rest
  }

  /** min() and max() return an element of the sequence that bounds every element. */
  lemma {:induction false} MinMaxBound(xs: seq<real>)
    requires |xs| > 0
    ensures Min(xs) in xs && forall i :: 0 <= i < |xs| ==> Min(xs) <= xs[i]
    ensures Max(xs) in xs && forall i :: 0 <= i < |xs| ==> xs[i] <= Max(xs)
  {
    if |xs| > 1 {
      MinMaxBound(xs[1..]);
      assert forall i :: 1 <= i < |xs| ==> xs[i] == xs[1..][i - 1];
    }
  }

  function Xs(tags: seq<Tag>): (r: seq<real>)
    ensures |r| == |tags| && forall i :: 0 <= i < |tags| ==> r[i] == tags[i].x
  {
    seq(|tags|, i requires 0 <= i < |tags| => tags[i].x)
  }

  function Ys(tags: seq<Tag>): (r: seq<real>)
    ensures |r| == |tags| && forall i :: 0 <= i < |tags| ==> r[i] == tags[i].y
  {
    seq(|tags|, i requires 0 <= i < |tags| => tags[i].y)
  }

  /** The padded bounding box of the tags and the side of the square map anchored at its lower-left corner. */
  datatype Extent = Extent(minX: real, minY: real, maxX: real, maxY: real, mapSize: real) {
    function Origin(): Point {
      Point(minX, minY)
    }
  }

  /**
   * The bounding box of the tags padded by shift on every side, and
   * map_size = max(width, height). Fails on an empty tag list.
   */
  function ComputeExtent(tags: seq<Tag>, shift: real): (r: Result<Extent, Error>)
    ensures r.Err? <==> |tags| == 0
    ensures r.Err? ==> r.error == EmptyTagList
  {
    if |tags| == 0 then Err(EmptyTagList)
    else
      var maxX := Max(Xs(tags)) + shift;
      var minX := Min(Xs(tags)) - shift;
      var maxY := Max(Ys(tags)) + shift;
      var minY := Min(Ys(tags)) - shift;
      var width, height := maxX - minX, maxY - minY;
      Ok(Extent(minX, minY, maxX, maxY, if width >= height then width else height))
  }

  /**
   * Every tag lies at least shift inside the padded box, the box is tight
   * (some tag touches each padded side), and the map is the smallest square
   * that holds the box.
   */
  lemma ExtentBounds(tags: seq<Tag>, shift: real)
    requires |tags| > 0
    ensures var e := ComputeExtent(tags, shift).value;
      forall i :: 0 <= i < |tags| ==>
        e.minX + shift <= tags[i].x <= e.maxX - shift &&
        e.minY + shift <= tags[i].y <= e.maxY - shift
    ensures var e := ComputeExtent(tags, shift).value;
      (exists i :: 0 <= i < |tags| && tags[i].x == e.minX + shift) &&
      (exists i :: 0 <= i < |tags| && tags[i].x == e.maxX - shift) &&
      (exists i :: 0 <= i < |tags| && tags[i].y == e.minY + shift) &&
      (exists i :: 0 <= i < |tags| && tags[i].y == e.maxY - shift)
    ensures var e := ComputeExtent(tags, shift).value;
      e.mapSize >= e.maxX - e.minX && e.mapSize >= e.maxY - e.minY &&
      (e.mapSize == e.maxX - e.minX || e.mapSize == e.maxY - e.minY)
  {
    var xs, ys := Xs(tags), Ys(tags);
    MinMaxBound(xs);
    MinMaxBound(ys);
    var i :| 0 <= i < |xs| && xs[i] == Min(xs);
    var j :| 0 <= j < |xs| && xs[j] == Max(xs);
    var k :| 0 <= k < |ys| && ys[k] == Min(ys);
    var l :| 0 <= l < |ys| && ys[l] == Max(ys);
  }

  /** The map side is at least twice the padding, so it is positive when the padding is. */
  lemma MapSizeAtLeastTwoShifts(tags: seq<Tag>, shift: real)
    requires |tags| > 0
    ensures ComputeExtent(tags, shift).value.mapSize >= 2.0 * shift
  {
    ExtentBounds(tags, shift);
    var e := ComputeExtent(tags, shift).value;
    assert e.minX + shift <= tags[0].x <= e.maxX - shift;
  }

  /** A tag's position relative to the origin, as a fraction of the map side. */
  function NormPos(e: Extent, t: Tag): Point
    requires e.mapSize > 0.0
  {
    Point((t.x - e.Origin().x) / e.mapSize, (t.y - e.Origin().y) / e.mapSize)
  }

  /**
   * Every tag of the list the extent was computed from normalises into the
   * unit square, at least shift / map_size away from its border.
   */
  lemma NormPosInUnit(tags: seq<Tag>, shift: real, t: Tag)
    requires shift > 0.0 && t in tags
    ensures ComputeExtent(tags, shift).Ok?
    ensures var e := ComputeExtent(tags, shift).value;
      e.mapSize > 0.0 &&
      var p := NormPos(e, t);
      shift / e.mapSize <= p.x <= 1.0 - shift / e.mapSize &&
      shift / e.mapSize <= p.y <= 1.0 - shift / e.mapSize
  {
    MapSizeAtLeastTwoShifts(tags, shift);
    ExtentBounds(tags, shift);
    var e := ComputeExtent(tags, shift).value;
    var i :| 0 <= i < |tags| && tags[i] == t;
    assert e.minX + shift <= t.x <= e.maxX - shift && e.minY + shift <= t.y <= e.maxY - shift;
    NormPosBounds(e, t, shift);
  }

  /** The bounds of NormPosInUnit for one extent and one tag inside it. */
  lemma NormPosBounds(e: Extent, t: Tag, shift: real)
    requires e.mapSize > 0.0
    requires e.mapSize >= e.maxX - e.minX && e.mapSize >= e.maxY - e.minY
    requires e.minX + shift <= t.x <= e.maxX - shift && e.minY + shift <= t.y <= e.maxY - shift
    ensures var p := NormPos(e, t);
      shift / e.mapSize <= p.x <= 1.0 - shift / e.mapSize &&
      shift / e.mapSize <= p.y <= 1.0 - shift / e.mapSize
  {
    DivideBounds(t.x - e.minX, shift, e.mapSize);
    DivideBounds(t.y - e.minY, shift, e.mapSize);
  }

  /** shift <= rel <= size - shift gives shift / size <= rel / size <= 1 - shift / size. */
  lemma DivideBounds(rel: real, shift: real, size: real)
    requires size > 0.0 && shift <= rel <= size - shift
    ensures shift / size <= rel / size <= 1.0 - shift / size
  {
    assert rel / size - shift / size == (rel - shift) / size;
    assert (size - shift) / size - rel / size == (size - shift - rel) / size;
    assert size / size == 1.0;
    assert (size - shift) / size == size / size - shift / size;
  }

  /**
   * The name-to-normalised-position dictionary, filled in list order, so a
   * later tag of the same name overwrites an earlier one.
   */
  function NormposMap(e: Extent, tags: seq<Tag>): (r: map<string, Point>)
    requires e.mapSize > 0.0
    ensures |tags| > 0 ==> var last := tags[|tags| - 1]; last.name in r && r[last.name] == NormPos(e, last)
  {
    if |tags| == 0 then map[]
    else
      var last := tags[|tags| - 1];
      NormposMap(e, tags[..|tags| - 1])[last.name := NormPos(e, last)]
  }

  /** The dictionary's keys are exactly the names of the tags. */
  lemma {:induction false} NormposMapKeys(e: Extent, tags: seq<Tag>, n: string)
    requires e.mapSize > 0.0
    ensures n in NormposMap(e, tags) <==> exists i :: 0 <= i < |tags| && tags[i].name == n
  {
    if |tags| > 0 {
      var front := tags[..|tags| - 1];
      NormposMapKeys(e, front, n);
      assert forall i :: 0 <= i < |front| ==> front[i] == tags[i];
    }
  }

  /** A name maps to the normalised position of the last tag that carries it. */
  lemma {:induction false} NormposMapLast(e: Extent, tags: seq<Tag>, n: string) returns (i: nat)
    requires e.mapSize > 0.0
    requires n in NormposMap(e, tags)
    ensures i < |tags| && tags[i].name == n && NormposMap(e, tags)[n] == NormPos(e, tags[i])
    ensures forall j :: i < j < |tags| ==> tags[j].name != n
  {
    var last := tags[|tags| - 1];
    var front := tags[..|tags| - 1];
    assert NormposMap(e, tags) == NormposMap(e, front)[last.name := NormPos(e, last)];
    if last.name != n {
      assert n in NormposMap(e, front);
      i := NormposMapLast(e, front, n);
      assert tags[i] == front[i];
      assert forall j :: i < j < |tags| - 1 ==> tags[j] == front[j];
    } else {
      i := |tags| - 1;
    }
  }

  /** Every value of the dictionary built from the tags of the extent lies in the unit square. */
  lemma NormposMapInUnit(tags: seq<Tag>, shift: real, n: string)
    requires shift > 0.0 && |tags| > 0
    ensures ComputeExtent(tags, shift).value.mapSize > 0.0
    ensures var m := NormposMap(ComputeExtent(tags, shift).value, tags);
      n in m ==> 0.0 <= m[n].x <= 1.0 && 0.0 <= m[n].y <= 1.0
  {
    var e := ComputeExtent(tags, shift).value;
    MapSizeAtLeastTwoShifts(tags, shift);
    if n in NormposMap(e, tags) {
      var i := NormposMapLast(e, tags, n);
      NormPosInUnit(tags, shift, tags[i]);
      PositiveRatio(shift, e.mapSize);
    }
  }

  lemma PositiveRatio(a: real, b: real)
    requires a > 0.0 && b > 0.0
    ensures a / b > 0.0
  {
  }

  // ---------------------------------------------------------------------------
  // What a renderer draws
  // ---------------------------------------------------------------------------

  /**
   * A filled circle of the given radius centred at a pixel, or a tag name
   * written at a pixel with a font of the given size (None: the canvas's
   * default font).
   */
  datatype Event = Ellipse(center: Point, radius: real) | Text(at: Point, name: string, font: Option<int>)
}
