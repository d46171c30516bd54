/**
 * The Tiler of frontend/get_tiling.py: the earlier renderer that draws the
 * pyramid one 255-pixel tile at a time, with circles of a fixed radius per
 * zoom level, every name from zoom 7 on, and no metatiles.
 */
module Frontend {
  import opened Wrappers
  import opened Geometry
  import opened Grid

  /** The world-space margin around the data and around every query window. */
  const SHIFT: real := 10.0
  /** The black frame added around every saved tile. */
  const BORDER: nat := 1
  /** Pixels per tile side, inside the frame. */
  const TILE_DIM: nat := 256 - BORDER
  /** From this zoom level on every name is drawn. */
  const TEXT_ZOOM: nat := 7
  /** The number of zoom levels main renders when it is given no argument. */
  const DEFAULT_LEVELS: int := 8

  /** What get_tile reads: the map's lower-left corner, the map side and the index. */
  datatype Frame = Frame(origin: Point, size: real, index: seq<Tag>)

  /** The frame __init__ builds from a non-empty tag list. */
  function BuiltFrame(tags: seq<Tag>): (f: Frame)
    requires |tags| > 0
    ensures f.size >= 2.0 * SHIFT && f.index == tags
  {
    var e := ComputeExtent(tags, SHIFT).value;
    MapSizeAtLeastTwoShifts(tags, SHIFT);
    Frame(e.Origin(), e.mapSize, tags)
  }

  /** size_tile: the world side of one tile, the map side over 2^zoom. */
  function TileSide(f: Frame, zoom: nat): (s: real)
    requires f.size > 0.0
    ensures s > 0.0
  {
    PositiveRatio(f.size, Pow2(zoom) as real);
    f.size / Pow2(zoom) as real
  }

  /** The world corner of tile (x, y): the origin plus (x, y) tile sides. */
  function TileCorner(f: Frame, x: nat, y: nat, zoom: nat): Point
    requires f.size > 0.0
  {
    Point(f.origin.x + x as real * TileSide(f, zoom), f.origin.y + y as real * TileSide(f, zoom))
  }

  /** The tags get_tile draws: the index queried with the tile grown by SHIFT on every side. */
  function TileTags(f: Frame, t: TileId): seq<Tag>
    requires f.size > 0.0
  {
    Query(f.index, Window(TileCorner(f, t.x, t.y, t.z), TileSide(f, t.z), SHIFT))
  }

  /** The pixel of a tag in tile t: the tile corner is 0 and one tile side is TILE_DIM. */
  function Pixel(f: Frame, t: TileId, tag: Tag): Point
    requires f.size > 0.0
  {
    ToPixel(Position(tag), TileCorner(f, t.x, t.y, t.z), TileSide(f, t.z), TILE_DIM as real)
  }

  /** One tag's events: its name from TEXT_ZOOM on, then its circle of radius zoom / 2. */
  function TagEvents(p: Point, name: string, zoom: nat): seq<Event> {
    (if zoom >= TEXT_ZOOM then [Text(p, name, None)] else []) + [Ellipse(p, zoom as real / 2.0)]
  }

  /** The events of the tags m in tile t, tag by tag. */
  function EventsOf(f: Frame, t: TileId, m: seq<Tag>): seq<Event>
    requires f.size > 0.0
  {
    if |m| == 0 then []
    else EventsOf(f, t, m[..|m| - 1]) + TagEvents(Pixel(f, t, m[|m| - 1]), m[|m| - 1].name, t.z)
  }

  lemma EventsOfStep(f: Frame, t: TileId, m: seq<Tag>, i: nat)
    requires f.size > 0.0 && i < |m|
    ensures EventsOf(f, t, m[..i + 1]) == EventsOf(f, t, m[..i]) + TagEvents(Pixel(f, t, m[i]), m[i].name, t.z)
  {
    assert m[..i + 1][..i] == m[..i];
  }

  /** The draw events of tile t: one or two per tag the query finds. */
  function TileEvents(f: Frame, t: TileId): (r: seq<Event>)
    requires f.size > 0.0
    ensures |r| == |TileTags(f, t)| * PerTag(t.z)
  {
    EventsLength(f, t, TileTags(f, t));
    EventsOf(f, t, TileTags(f, t))
  }

  /** Events per drawn tag: two (name, circle) from TEXT_ZOOM on, one (circle) below it. */
  function PerTag(zoom: nat): nat {
    if zoom >= TEXT_ZOOM then 2 else 1
  }

  lemma {:induction false} EventsLength(f: Frame, t: TileId, m: seq<Tag>)
    requires f.size > 0.0
    ensures |EventsOf(f, t, m)| == |m| * PerTag(t.z)
  {
    if |m| > 0 {
      EventsLength(f, t, m[..|m| - 1]);
    }
  }

  /**
   * The events of tile t come in tag order: the k-th drawn tag owns events
   * PerTag * k onward, its name (from TEXT_ZOOM on) before its circle, both
   * at the tag's pixel, the circle of radius zoom / 2.
   */
  lemma {:induction false} EventsLayout(f: Frame, t: TileId, m: seq<Tag>, k: nat)
    requires f.size > 0.0 && k < |m|
    ensures |EventsOf(f, t, m)| == |m| * PerTag(t.z)
    ensures t.z >= TEXT_ZOOM ==>
      EventsOf(f, t, m)[2 * k] == Text(Pixel(f, t, m[k]), m[k].name, None) &&
      EventsOf(f, t, m)[2 * k + 1] == Ellipse(Pixel(f, t, m[k]), t.z as real / 2.0)
    ensures t.z < TEXT_ZOOM ==>
      EventsOf(f, t, m)[k] == Ellipse(Pixel(f, t, m[k]), t.z as real / 2.0)
  {
    EventsLength(f, t, m);
    var front := m[..|m| - 1];
    EventsLength(f, t, front);
    if k < |m| - 1 {
      EventsLayout(f, t, front, k);
      assert front[k] == m[k];
    }
  }

  /**
   * The pixel frame of a tile: its corner maps to (0, 0), the opposite
   * corner to (TILE_DIM, TILE_DIM), and that opposite corner is the corner
   * of the diagonal neighbour, so neighbouring tiles meet without a gap.
   */
  lemma TilePixelFrame(f: Frame, t: TileId)
    requires f.size > 0.0
    ensures ToPixel(TileCorner(f, t.x, t.y, t.z), TileCorner(f, t.x, t.y, t.z), TileSide(f, t.z), TILE_DIM as real)
      == Point(0.0, 0.0)
    ensures TileCorner(f, t.x + 1, t.y + 1, t.z) ==
      Point(TileCorner(f, t.x, t.y, t.z).x + TileSide(f, t.z), TileCorner(f, t.x, t.y, t.z).y + TileSide(f, t.z))
    ensures ToPixel(TileCorner(f, t.x + 1, t.y + 1, t.z), TileCorner(f, t.x, t.y, t.z), TileSide(f, t.z), TILE_DIM as real)
      == Point(TILE_DIM as real, TILE_DIM as real)
  {
    var c, s := TileCorner(f, t.x, t.y, t.z), TileSide(f, t.z);
    assert TileCorner(f, t.x + 1, t.y + 1, t.z) == Point(c.x + s, c.y + s);
  }

  /**
   * A tile draws exactly the indexed tags in its SHIFT-grown window, and
   * every indexed tag inside the tile itself is among them, at a pixel
   * inside the tile image.
   */
  lemma TileTagsWindow(f: Frame, t: TileId, tag: Tag)
    requires f.size > 0.0
    ensures tag in TileTags(f, t) <==>
      tag in f.index && InRect(tag, Window(TileCorner(f, t.x, t.y, t.z), TileSide(f, t.z), SHIFT))
    ensures tag in f.index && InRect(tag, Window(TileCorner(f, t.x, t.y, t.z), TileSide(f, t.z), 0.0)) ==>
      tag in TileTags(f, t) &&
      0.0 <= Pixel(f, t, tag).x <= TILE_DIM as real && 0.0 <= Pixel(f, t, tag).y <= TILE_DIM as real
  {
    var c, s := TileCorner(f, t.x, t.y, t.z), TileSide(f, t.z);
    QueryIsFilter(f.index, Window(c, s, SHIFT), tag);
    PixelInsideWindow(tag, c, s, TILE_DIM as real);
  }

  /** Each zoom level halves the tile side. */
  lemma TileSideHalves(f: Frame, zoom: nat)
    requires f.size > 0.0
    ensures TileSide(f, zoom + 1) * 2.0 == TileSide(f, zoom)
    ensures TileSide(f, 0) == f.size
  {
    var p := Pow2(zoom) as real;
    assert Pow2(zoom + 1) as real == 2.0 * p;
    assert f.size / (2.0 * p) * 2.0 == f.size / p;
  }

  class Tiler {
    /** The tag list the tiler was built from. */
    ghost var tags: seq<Tag>
    var maxX: real
    var minX: real
    var maxY: real
    var minY: real
    /** The bounding box the spatial index was created with. */
    var indexBox: Rect
    /** The tags inserted into the spatial index, in insertion order. */
    var index: seq<Tag>
    var origin: Point
    var size: real

    /** The state __init__ leaves, as a function of the tag list. */
    ghost predicate Valid()
      reads this
    {
      |tags| > 0 &&
      var e := ComputeExtent(tags, SHIFT).value;
      minX == e.minX && minY == e.minY && maxX == e.maxX && maxY == e.maxY &&
      indexBox == Rect(minX, minY, maxX, maxY) &&
      index == tags &&
      origin == e.Origin() && size == e.mapSize
    }

    function AsFrame(): Frame
      reads this
    {
      Frame(origin, size, index)
    }

    lemma FrameIsBuilt()
      requires Valid()
      ensures AsFrame() == BuiltFrame(tags)
    {
    }

    /**
     * __init__: the padded box, an index over it holding every tag in list
     * order, the origin and the square map side.
     */
    constructor (tags: seq<Tag>)
      requires |tags| > 0
      ensures Valid() && this.tags == tags
    {
      var inserted := [];
      for i := 0 to |tags|
        invariant inserted == tags[..i]
      {
        inserted := inserted + [tags[i]];
      }
      assert tags[..|tags|] == tags;
      var e := ComputeExtent(tags, SHIFT).value;
      this.tags := tags;
      maxX, minX, maxY, minY := e.maxX, e.minX, e.maxY, e.minY;
      indexBox := Rect(e.minX, e.minY, e.maxX, e.maxY);
      index := inserted;
      origin := Point(e.minX, e.minY);
      size := e.mapSize;
    }

    /**
     * get_tile: the events of tile (x, y) of zoom level zoom, and the number
     * of tags drawn.
     */
    method GetTile(x: nat, y: nat, zoom: nat) returns (events: seq<Event>, cnt: nat)
      requires size > 0.0
      ensures events == TileEvents(AsFrame(), TileId(x, y, zoom))
      ensures cnt == |TileTags(AsFrame(), TileId(x, y, zoom))|
    {
      ghost var f, t := AsFrame(), TileId(x, y, zoom);
      var sizeTile := size / Pow2(zoom) as real;
      var corner := Point(origin.x + x as real * sizeTile, origin.y + y as real * sizeTile);
      var circleRad := zoom as real / 2.0;
      var matched := Query(index, Window(corner, sizeTile, SHIFT));
      assert sizeTile == TileSide(f, zoom) && corner == TileCorner(f, x, y, zoom);
      events, cnt := [], 0;
      for i := 0 to |matched|
        invariant events == EventsOf(f, t, matched[..i]) && cnt == i
      {
        ghost var before := events;
        var tag := matched[i];
        var rel := Point(tag.x - corner.x, tag.y - corner.y);
        var pnt := Point(rel.x / sizeTile * TILE_DIM as real, rel.y / sizeTile * TILE_DIM as real);
        assert pnt == Pixel(f, t, tag);
        if zoom >= TEXT_ZOOM {
          events := events + [Text(pnt, tag.name, None)];
        }
        events := events + [Ellipse(pnt, circleRad)];
        cnt := cnt + 1;
        assert events == before + TagEvents(pnt, tag.name, zoom);
        EventsOfStep(f, t, matched, i);
      }
      assert matched[..|matched|] == matched;
    }
  }

  /** Every tag lies at least SHIFT inside the index box. */
  lemma IndexCoversTags(tiler: Tiler, t: Tag)
    requires tiler.Valid() && t in tiler.tags
    ensures t in tiler.index
    ensures tiler.indexBox.minX + SHIFT <= t.x <= tiler.indexBox.maxX - SHIFT
    ensures tiler.indexBox.minY + SHIFT <= t.y <= tiler.indexBox.maxY - SHIFT
  {
    ExtentBounds(tiler.tags, SHIFT);
  }

  // ---------------------------------------------------------------------------
  // main: every tile of every zoom level below max_tile_size
  // ---------------------------------------------------------------------------

  /** One saved tile: its file, the tile, and the events drawn into it. */
  datatype SavedTile = SavedTile(file: string, tile: TileId, events: seq<Event>)

  /** The file tile_saver writes: './tiles/{x}_{y}_{z}.png'. */
  function FileName(t: TileId): string {
    "./tiles/" + TileName(t)
  }

  function SavedIds(s: seq<SavedTile>): seq<TileId> {
    seq(|s|, k requires 0 <= k < |s| => s[k].tile)
  }

  /** max_tile_size: the command-line argument when there is one, else DEFAULT_LEVELS. */
  function Levels(arg: Option<int>): (r: int)
    ensures arg.Some? ==> r == arg.value
    ensures arg.None? ==> r == DEFAULT_LEVELS
  {
    if arg.Some? then arg.value else DEFAULT_LEVELS
  }

  /** A saved tile holds the events of its own tile, under its own file name. */
  predicate Saved(f: Frame, s: SavedTile)
    requires f.size > 0.0
  {
    s.file == FileName(s.tile) && s.events == TileEvents(f, s.tile)
  }

  /** The tiles main has saved before it reaches tile (x, y) of zoom z. */
  predicate Done(t: TileId, z: nat, x: nat, y: nat) {
    InGrid(t, t.z) && (t.z < z || (t.z == z && (t.x < x || (t.x == x && t.y < y))))
  }

  /** What main has saved when it reaches tile (x, y) of zoom z: every earlier tile once. */
  ghost predicate Progress(f: Frame, saved: seq<SavedTile>, z: nat, x: nat, y: nat)
    requires f.size > 0.0
  {
    (forall t :: t in SavedIds(saved) <==> Done(t, z, x, y)) &&
    Distinct(SavedIds(saved)) &&
    forall k :: 0 <= k < |saved| ==> Saved(f, saved[k])
  }

  lemma SaveOne(f: Frame, saved: seq<SavedTile>, s: SavedTile, z: nat, x: nat, y: nat)
    requires f.size > 0.0 && Progress(f, saved, z, x, y)
    requires x < Pow2(z) && y < Pow2(z) && s.tile == TileId(x, y, z) && Saved(f, s)
    ensures Progress(f, saved + [s], z, x, y + 1)
  {
    SaveOneIds(saved, s, z, x, y);
    DistinctConcat(SavedIds(saved), [s.tile]);
    SavedAppend(f, saved, s);
  }

  lemma SaveOneIds(saved: seq<SavedTile>, s: SavedTile, z: nat, x: nat, y: nat)
    requires forall t :: t in SavedIds(saved) <==> Done(t, z, x, y)
    requires x < Pow2(z) && y < Pow2(z) && s.tile == TileId(x, y, z)
    ensures SavedIds(saved + [s]) == SavedIds(saved) + [s.tile]
    ensures forall t :: t in SavedIds(saved + [s]) <==> Done(t, z, x, y + 1)
  {
    assert SavedIds(saved + [s]) == SavedIds(saved) + [s.tile];
  }

  lemma SavedAppend(f: Frame, saved: seq<SavedTile>, s: SavedTile)
    requires f.size > 0.0 && Saved(f, s)
    requires forall k :: 0 <= k < |saved| ==> Saved(f, saved[k])
    ensures forall k :: 0 <= k < |saved + [s]| ==> Saved(f, (saved + [s])[k])
  {
    var all := saved + [s];
    forall k | 0 <= k < |all| ensures Saved(f, all[k]) {
      if k < |saved| {
        assert all[k] == saved[k];
      }
    }
  }

  lemma NextColumn(f: Frame, saved: seq<SavedTile>, z: nat, x: nat, y: nat)
    requires f.size > 0.0 && Progress(f, saved, z, x, y) && y >= Pow2(z)
    ensures Progress(f, saved, z, x + 1, 0)
  {
  }

  lemma NextZoom(f: Frame, saved: seq<SavedTile>, z: nat, x: nat)
    requires f.size > 0.0 && Progress(f, saved, z, x, 0) && x >= Pow2(z)
    ensures Progress(f, saved, z + 1, 0, 0)
  {
  }

  /**
   * main: build the Tiler, then save every tile (x, y) of every zoom level
   * 0 .. max_tile_size - 1, column by column. An empty tag list raises in
   * the constructor.
   */
  method Generate(tags: seq<Tag>, arg: Option<int>) returns (r: Result<seq<SavedTile>, Error>)
    ensures r.Err? <==> |tags| == 0
    ensures r.Err? ==> r.error == EmptyTagList
    ensures r.Ok? ==> forall t :: t in SavedIds(r.value) <==> InGrid(t, t.z) && t.z < Levels(arg)
    ensures r.Ok? && arg.None? ==> forall t :: t in SavedIds(r.value) <==> InGrid(t, t.z) && t.z < DEFAULT_LEVELS
    ensures r.Ok? && arg.Some? && arg.value <= 0 ==> r.value == []
    ensures r.Ok? ==> Distinct(SavedIds(r.value))
    ensures r.Ok? ==> forall k :: 0 <= k < |r.value| ==>
      r.value[k].file == FileName(r.value[k].tile) && r.value[k].events == TileEvents(BuiltFrame(tags), r.value[k].tile)
  {
    if |tags| == 0 {
      return Err(EmptyTagList);
    }
    var tiler := new Tiler(tags);
    tiler.FrameIsBuilt();
    var levels := Levels(arg);
    var saved := SavePyramid(tiler, levels);
    assert forall k :: 0 <= k < |saved| ==> Saved(BuiltFrame(tags), saved[k]);
    return Ok(saved);
  }

  /** The zoom and column loops of main. */
  method SavePyramid(tiler: Tiler, levels: int) returns (saved: seq<SavedTile>)
    requires tiler.size > 0.0
    ensures forall t :: t in SavedIds(saved) <==> InGrid(t, t.z) && t.z < levels
    ensures Distinct(SavedIds(saved))
    ensures forall k :: 0 <= k < |saved| ==> Saved(tiler.AsFrame(), saved[k])
    ensures levels <= 0 ==> saved == []
  {
    ghost var f := tiler.AsFrame();
    saved := [];
    var z: nat := 0;
    while z < levels
      invariant z <= if levels > 0 then levels else 0
      invariant levels <= 0 ==> saved == []
      invariant Progress(f, saved, z, 0, 0)
    {
      var x := 0;
      while x < Pow2(z)
        invariant Progress(f, saved, z, x, 0)
      {
        saved := SaveColumn(tiler, saved, z, x);
        x := x + 1;
      }
      NextZoom(f, saved, z, x);
      z := z + 1;
    }
    assert forall t :: Done(t, z, 0, 0) <==> InGrid(t, t.z) && t.z < levels;
  }

  /** The innermost loop of main: tile_saver for every tile of column x of zoom z. */
  method SaveColumn(tiler: Tiler, saved: seq<SavedTile>, z: nat, x: nat) returns (done: seq<SavedTile>)
    requires tiler.size > 0.0 && x < Pow2(z) && Progress(tiler.AsFrame(), saved, z, x, 0)
    ensures Progress(tiler.AsFrame(), done, z, x + 1, 0)
  {
    ghost var f := tiler.AsFrame();
    done := saved;
    var y := 0;
    while y < Pow2(z)
      invariant Progress(f, done, z, x, y)
    {
      var events, cnt := tiler.GetTile(x, y, z);
      var s := SavedTile(FileName(TileId(x, y, z)), TileId(x, y, z), events);
      SaveOne(f, done, s, z, x, y);
      done := done + [s];
      y := y + 1;
    }
    NextColumn(f, done, z, x, y);
  }
}
