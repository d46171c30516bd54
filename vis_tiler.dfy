/**
 * The Tiler of src/visualization/get_tiling.py: the extent, the normalised
 * position dictionary, the spatial index and the PostCount maximum it
 * builds, the queries it answers, and the driver that cuts each rendered
 * metatile into the 256-pixel tiles of the pyramid.
 */
module VisTiler {
  import opened Wrappers
  import opened Geometry
  import opened Grid
  import opened Metatile

  // ---------------------------------------------------------------------------
  // set_postcount on tag values
  // ---------------------------------------------------------------------------

  /** One tag after set_postcount: a missing PostCount becomes -1, a present one stays. */
  function WithPostCount(t: Tag): (r: Tag)
    ensures r.x == t.x && r.y == t.y && r.name == t.name
    ensures r.postCount.Some? && Count(r) == Count(t)
    ensures t.postCount.Some? ==> r == t
  {
    Tag(t.x, t.y, t.name, Some(Count(t)))
  }

  /**
   * The tags held by the index after set_postcount has rewritten the tags of
   * the list: each held tag that is one of them now carries its PostCount.
   */
  function Recount(held: seq<Tag>, tags: seq<Tag>): (r: seq<Tag>)
    ensures |r| == |held|
    ensures forall j :: 0 <= j < |held| ==> r[j] == if held[j] in tags then WithPostCount(held[j]) else held[j]
  {
    seq(|held|, j requires 0 <= j < |held| => if held[j] in tags then WithPostCount(held[j]) else held[j])
  }

  /** Rewriting one tag object: every entry that holds it now holds the rewritten tag. */
  function ReplaceAll(held: seq<Tag>, old_: Tag, new_: Tag): (r: seq<Tag>)
    ensures |r| == |held|
    ensures forall j :: 0 <= j < |held| ==> r[j] == if held[j] == old_ then new_ else held[j]
  {
    seq(|held|, j requires 0 <= j < |held| => if held[j] == old_ then new_ else held[j])
  }

  /** The largest PostCount of a non-empty list (absent counts read as -1). */
  function MaxCount(tags: seq<Tag>): (m: int)
    requires |tags| > 0
    ensures exists i :: 0 <= i < |tags| && Count(tags[i]) == m
    ensures forall i :: 0 <= i < |tags| ==> Count(tags[i]) <= m
  {
    if |tags| == 1 then Count(tags[0])
    else
      var rest := MaxCount(tags[1..]);
      assert forall i :: 1 <= i < |tags| ==> tags[i] == tags[1..][i - 1];
      if Count(tags[0]) >= rest then Count(tags[0]) else rest
  }

  /** Rewriting a tag twice is rewriting it once. */
  lemma WithPostCountIdempotent(t: Tag)
    ensures WithPostCount(WithPostCount(t)) == WithPostCount(t)
  {
  }

  /** The list with every tag rewritten. */
  function Counted(tags: seq<Tag>): (r: seq<Tag>)
    ensures |r| == |tags| && forall i :: 0 <= i < |tags| ==> r[i] == WithPostCount(tags[i])
  {
    seq(|tags|, i requires 0 <= i < |tags| => WithPostCount(tags[i]))
  }

  /** Once each tag of the list is rewritten, the list itself reads as rewritten. */
  lemma RecountSelf(tags: seq<Tag>)
    ensures Recount(tags, tags) == Counted(tags)
  {
  }

  /** Filling the dictionary one more tag of the list. */
  lemma NormposMapStep(e: Extent, tags: seq<Tag>, i: nat)
    requires e.mapSize > 0.0 && i < |tags|
    ensures NormposMap(e, tags[..i + 1]) == NormposMap(e, tags[..i])[tags[i].name := NormPos(e, tags[i])]
  {
    assert tags[..i + 1][..i] == tags[..i];
  }

  // ---------------------------------------------------------------------------
  // The tiler
  // ---------------------------------------------------------------------------

  /**
   * The dictionary loop of set_extent: each tag's offset from the extent's
   * corner divided by the map side, a later tag overwriting an earlier one
   * with the same name.
   */
  method NormalisedPositions(e: Extent, tags: seq<Tag>) returns (dict: map<string, Point>)
    requires e.mapSize > 0.0
    ensures dict == NormposMap(e, tags)
  {
    dict := map[];
    for i := 0 to |tags|
      invariant dict == NormposMap(e, tags[..i])
    {
      var x, y := tags[i].x, tags[i].y;
      var relX, relY := x - e.minX, y - e.minY;
      var normX, normY := relX / e.mapSize, relY / e.mapSize;
      NormposMapStep(e, tags, i);
      dict := dict[tags[i].name := Point(normX, normY)];
    }
    assert tags[..|tags|] == tags;
  }

  class Tiler {
    /** The tag list the tiler was built from. */
    ghost var tags: seq<Tag>

    var minX: real
    var minY: real
    var maxX: real
    var maxY: real
    var origin: Point
    var mapSize: real
    var tileSize: seq<real>
    var tagToNormpos: map<string, Point>
    /** The bounding box the spatial index was created with. */
    var indexBox: Rect
    /** The tags inserted into the spatial index, in insertion order. */
    var index: seq<Tag>
    var maxPostCount: int
    var fonts: seq<int>

    /** The state the constructor leaves, as a function of the tag list. */
    ghost predicate Valid()
      reads this
    {
      |tags| > 0 &&
      var e := ComputeExtent(tags, SHIFT).value;
      minX == e.minX && minY == e.minY && maxX == e.maxX && maxY == e.maxY &&
      origin == e.Origin() && mapSize == e.mapSize && mapSize > 0.0 &&
      tileSize == TileSizes(mapSize) &&
      tagToNormpos == NormposMap(e, tags) &&
      indexBox == Rect(minX, minY, maxX, maxY) &&
      index == Counted(tags) &&
      maxPostCount == MaxCount(tags) &&
      fonts == FONT_SIZES &&
      AsView().Valid()
    }

    /** __init__: set_extent, set_bbox, set_postcount and set_fonts in turn. */
    constructor (tags: seq<Tag>)
      requires |tags| > 0
      ensures Valid() && this.tags == tags
    {
      this.tags := tags;
      new;
      SetExtent(tags);
      SetBbox(tags);
      SetPostcount(tags);
      RecountSelf(tags);
      SetFonts();
      TileSizesPositive(mapSize);
    }

    /**
     * set_extent: the padded bounding box, the square map side, the metatile
     * size per zoom, and the name-to-normalised-position dictionary.
     */
    method SetExtent(tags: seq<Tag>)
      requires |tags| > 0
      modifies this
      ensures var e := ComputeExtent(tags, SHIFT).value;
        minX == e.minX && minY == e.minY && maxX == e.maxX && maxY == e.maxY &&
        origin == e.Origin() && mapSize == e.mapSize && mapSize > 0.0 &&
        tileSize == TileSizes(mapSize) &&
        tagToNormpos == NormposMap(e, tags)
      ensures this.tags == old(this.tags) && index == old(index) && indexBox == old(indexBox)
      ensures maxPostCount == old(maxPostCount) && fonts == old(fonts)
    {
      var e := ComputeExtent(tags, SHIFT).value;
      MapSizeAtLeastTwoShifts(tags, SHIFT);
      var dict := NormalisedPositions(e, tags);
      var sizes := TileSizes(e.mapSize);
      maxX, minX, maxY, minY := e.maxX, e.minX, e.maxY, e.minY;
      origin, mapSize, tileSize, tagToNormpos := Point(e.minX, e.minY), e.mapSize, sizes, dict;
    }

    /** set_bbox: a new index over the padded box, holding every tag in list order. */
    method SetBbox(tags: seq<Tag>)
      modifies this
      ensures indexBox == Rect(minX, minY, maxX, maxY) && index == tags
      ensures this.tags == old(this.tags) && minX == old(minX) && minY == old(minY) && maxX == old(maxX) && maxY == old(maxY)
      ensures origin == old(origin) && mapSize == old(mapSize) && tileSize == old(tileSize) && tagToNormpos == old(tagToNormpos)
      ensures maxPostCount == old(maxPostCount) && fonts == old(fonts)
    {
      indexBox := Rect(minX, minY, maxX, maxY);
      var inserted := [];
      for i := 0 to |tags|
        invariant inserted == tags[..i]
      {
        inserted := inserted + [tags[i]];
      }
      assert tags[..|tags|] == tags;
      index := inserted;
    }

    /**
     * set_postcount: every tag of the list gets PostCount -1 when it has none,
     * which rewrites the index entries holding those tags; then the largest
     * PostCount is recorded.
     */
    method SetPostcount(tags: seq<Tag>)
      requires |tags| > 0
      modifies this
      ensures index == Recount(old(index), tags) && maxPostCount == MaxCount(tags)
      ensures this.tags == old(this.tags) && minX == old(minX) && minY == old(minY) && maxX == old(maxX) && maxY == old(maxY)
      ensures origin == old(origin) && mapSize == old(mapSize) && tileSize == old(tileSize) && tagToNormpos == old(tagToNormpos)
      ensures indexBox == old(indexBox) && fonts == old(fonts)
    {
      var held := index;
      for i := 0 to |tags|
        invariant held == Recount(index, tags[..i])
      {
        var tag := tags[i];
        held := ReplaceAll(held, tag, WithPostCount(tag));
        assert tags[..i + 1] == tags[..i] + [tag];
        forall j | 0 <= j < |held|
          ensures held[j] == Recount(index, tags[..i + 1])[j]
        {
          WithPostCountIdempotent(index[j]);
        }
      }
      assert tags[..|tags|] == tags;
      index := held;
      maxPostCount := MaxCount(tags);
    }

    /** set_fonts: the font of zoom z has size 25 - 2z, for z = 0 .. 8. */
    method SetFonts()
      modifies this
      ensures fonts == FONT_SIZES
      ensures forall z :: 0 <= z < |fonts| ==> fonts[z] == ANTIALIASING_SCALE * (25 - 2 * z)
      ensures this.tags == old(this.tags) && minX == old(minX) && minY == old(minY) && maxX == old(maxX) && maxY == old(maxY)
      ensures origin == old(origin) && mapSize == old(mapSize) && tileSize == old(tileSize) && tagToNormpos == old(tagToNormpos)
      ensures indexBox == old(indexBox) && index == old(index) && maxPostCount == old(maxPostCount)
    {
      fonts := seq(9, zoom requires 0 <= zoom < 9 => ANTIALIASING_SCALE * (25 - zoom * 2));
    }

    /** What the selector and the renderer read. */
    function AsView(): View
      reads this
    {
      View(origin, tileSize, index, maxPostCount)
    }

    lemma ValidView()
      requires Valid()
      ensures AsView().Valid()
    {
      TileSizesPositive(mapSize);
    }

    lemma ViewIsBuilt()
      requires Valid()
      ensures AsView() == BuiltView(tags)
    {
    }

    /** search: the normalised position recorded for a name, or None ('' in the source) for an unknown one. */
    function Search(name: string): (r: Option<Point>)
      reads this
      ensures r.Some? <==> name in tagToNormpos
      ensures r.Some? ==> r.value == tagToNormpos[name]
    {
      if name in tagToNormpos then Some(tagToNormpos[name]) else None
    }

    /**
     * A name is found exactly when a tag of the list carries it; the answer
     * is the normalised position of the last such tag and lies in the unit
     * square.
     */
    lemma SearchFindsTags(name: string)
      requires Valid()
      ensures Search(name).Some? <==> exists i :: 0 <= i < |tags| && tags[i].name == name
      ensures Search(name).Some? ==>
        var p := Search(name).value;
        0.0 <= p.x <= 1.0 && 0.0 <= p.y <= 1.0 &&
        exists i :: 0 <= i < |tags| && tags[i].name == name &&
          p == NormPos(ComputeExtent(tags, SHIFT).value, tags[i]) &&
          forall j :: i < j < |tags| ==> tags[j].name != name
    {
      var e := ComputeExtent(tags, SHIFT).value;
      NormposMapInUnit(tags, SHIFT, name);
      NormposMapKeys(e, tags, name);
      if name in tagToNormpos {
        var i := NormposMapLast(e, tags, name);
      }
    }

    /** get_postcount_measure: PostCount / max_post_count; a missing PostCount or a zero maximum raises. */
    function GetPostcountMeasure(t: Tag): (r: Result<real, Error>)
      reads this
      ensures r.Err? <==> t.postCount.None? || maxPostCount == 0
      ensures r.Err? ==> r.error == if t.postCount.None? then MissingPostCount else DivisionByZero
      ensures r.Ok? ==> r.value * maxPostCount as real == t.postCount.value as real
    {
      TagMeasure(t, maxPostCount)
    }

    /** Every indexed tag has its PostCount, so the renderer's measure is this one. */
    lemma IndexedMeasure(t: Tag)
      requires Valid() && t in index
      ensures t.postCount.Some?
      ensures GetPostcountMeasure(t) == PostcountMeasure(Count(t), maxPostCount)
    {
    }

    /** get_tags_in_tile: the indexed tags of metatile (metaX, metaY), optionally with the SHIFT margin. */
    function GetTagsInTile(metaX: int, metaY: int, zoom: nat, withShift: bool): (r: Result<seq<Tag>, Error>)
      reads this
      ensures r.Err? <==> zoom >= |tileSize|
      ensures r.Ok? ==> forall t :: t in r.value ==> t in index
      ensures r.Ok? ==> |r.value| <= |index|
    {
      var q := TagsInTile(AsView(), metaX, metaY, zoom, withShift);
      if q.Ok? then
        assert forall t :: t in q.value ==> t in index by {
          forall t | t in q.value ensures t in index {
            TagsInTileMembers(AsView(), metaX, metaY, zoom, withShift, t);
          }
        }
        q
      else q
    }

    /** get_names_of_shown_tags: nothing from ZOOM_TEXT_SHOW on, else at most ten names of the metatile. */
    function GetNamesOfShownTags(metaX: int, metaY: int, zoom: nat): (r: set<string>)
      requires Valid()
      reads this
      ensures zoom >= ZOOM_TEXT_SHOW ==> r == {}
      ensures |r| <= TAGS_ANNOTATED_PER_TILE
    {
      ValidView();
      ShownNames(AsView(), metaX, metaY, zoom)
    }

    /**
     * get_metatile for the metatile whose upper-left tile is (metaX, metaY):
     * the draw events of metatile index (metaX / 8, metaY / 8).
     */
    method GetMetatile(metaX: int, metaY: int, zoom: nat) returns (r: Result<Render, Error>)
      requires Valid() && metaX % METATILE_SIZE == 0 && metaY % METATILE_SIZE == 0
      ensures r == MetatileEvents(AsView(), metaX / METATILE_SIZE, metaY / METATILE_SIZE, zoom)
    {
      r := RenderMetatile(AsView(), metaX / METATILE_SIZE, metaY / METATILE_SIZE, zoom);
    }
  }

  /** The constructor's index holds every tag once rewritten, and every tag lies inside the index box by SHIFT. */
  lemma TilerIndexCoversTags(tiler: Tiler, t: Tag)
    requires tiler.Valid() && t in tiler.tags
    ensures WithPostCount(t) in tiler.index
    ensures tiler.indexBox.minX + SHIFT <= t.x <= tiler.indexBox.maxX - SHIFT
    ensures tiler.indexBox.minY + SHIFT <= t.y <= tiler.indexBox.maxY - SHIFT
  {
    var i :| 0 <= i < |tiler.tags| && tiler.tags[i] == t;
    assert tiler.index[i] == WithPostCount(t);
    ExtentBounds(tiler.tags, SHIFT);
  }

  /** The view a Tiler built from a non-empty tag list hands to the renderer. */
  function BuiltView(tags: seq<Tag>): (v: View)
    requires |tags| > 0
    ensures v.Valid() && v.index == Counted(tags) && v.maxPostCount == MaxCount(tags)
  {
    var e := ComputeExtent(tags, SHIFT).value;
    MapSizeAtLeastTwoShifts(tags, SHIFT);
    TileSizesPositive(e.mapSize);
    View(e.Origin(), TileSizes(e.mapSize), Counted(tags), MaxCount(tags))
  }

  // ---------------------------------------------------------------------------
  // render_tiles and the generation loop of main
  // ---------------------------------------------------------------------------

  /** A crop box of the metatile image in pixels: left, top, right, bottom. */
  datatype Box = Box(left: int, top: int, right: int, bottom: int)

  /**
   * One saved tile: the tile it is (its file is TileName(tile)), the
   * metatile drawing it is cut from, and the box it is cut with.
   */
  datatype TileImage = TileImage(tile: TileId, metatile: Render, box: Box)

  /** The tiles of the pyramid that lie in the metatile whose upper-left tile is (metaX, metaY). */
  predicate InBlock(t: TileId, metaX: nat, metaY: nat, z: nat) {
    InGrid(t, z) && metaX <= t.x < metaX + METATILE_SIZE && metaY <= t.y < metaY + METATILE_SIZE
  }

  /** The pixel square of a tile inside the image of its own metatile. */
  function CropBox(t: TileId): Box {
    var dx, dy := t.x % METATILE_SIZE, t.y % METATILE_SIZE;
    Box(dx * TILE_DIM, dy * TILE_DIM, (dx + 1) * TILE_DIM, (dy + 1) * TILE_DIM)
  }

  function Tiles(s: seq<TileImage>): seq<TileId> {
    seq(|s|, k requires 0 <= k < |s| => s[k].tile)
  }

  lemma TilesConcat(a: seq<TileImage>, b: seq<TileImage>)
    ensures Tiles(a + b) == Tiles(a) + Tiles(b)
  {
  }

  /**
   * render_tiles: the tiles of the 8 x 8 block from (metaX, metaY) that
   * exist at zoom z, column by column, each cut from the metatile image at
   * its offset in the block; columns and rows past the grid's edge are
   * skipped.
   */
  method RenderTiles(img: Render, metaX: nat, metaY: nat, z: nat) returns (saved: seq<TileImage>)
    ensures forall t :: t in Tiles(saved) <==> InBlock(t, metaX, metaY, z)
    ensures Distinct(Tiles(saved))
    ensures forall k :: 0 <= k < |saved| ==> saved[k].metatile == img
    ensures forall k :: 0 <= k < |saved| ==>
      var t := saved[k].tile;
      saved[k].box == Box((t.x - metaX) * TILE_DIM, (t.y - metaY) * TILE_DIM,
                          (t.x - metaX + 1) * TILE_DIM, (t.y - metaY + 1) * TILE_DIM)
  {
    saved := [];
    var dx := 0;
    while dx < METATILE_SIZE
      invariant 0 <= dx <= METATILE_SIZE
      invariant forall t :: t in Tiles(saved) <==> InBlock(t, metaX, metaY, z) && t.x < metaX + dx
      invariant Distinct(Tiles(saved))
      invariant forall k :: 0 <= k < |saved| ==> saved[k].metatile == img
      invariant forall k :: 0 <= k < |saved| ==>
        var t := saved[k].tile;
        saved[k].box == Box((t.x - metaX) * TILE_DIM, (t.y - metaY) * TILE_DIM,
                            (t.x - metaX + 1) * TILE_DIM, (t.y - metaY + 1) * TILE_DIM)
    {
      var x := metaX + dx;
      if x >= Pow2(z) {
        break;
      }
      var dy := 0;
      while dy < METATILE_SIZE
        invariant 0 <= dy <= METATILE_SIZE
        invariant forall t :: t in Tiles(saved) <==>
          InBlock(t, metaX, metaY, z) && (t.x < x || (t.x == x && t.y < metaY + dy))
        invariant Distinct(Tiles(saved))
        invariant forall k :: 0 <= k < |saved| ==> saved[k].metatile == img
        invariant forall k :: 0 <= k < |saved| ==>
          var t := saved[k].tile;
          saved[k].box == Box((t.x - metaX) * TILE_DIM, (t.y - metaY) * TILE_DIM,
                              (t.x - metaX + 1) * TILE_DIM, (t.y - metaY + 1) * TILE_DIM)
      {
        var y := metaY + dy;
        if y >= Pow2(z) {
          break;
        }
        var part := TileImage(TileId(x, y, z), img, Box(dx * TILE_DIM, dy * TILE_DIM, (dx + 1) * TILE_DIM, (dy + 1) * TILE_DIM));
        TilesConcat(saved, [part]);
        assert Tiles([part]) == [part.tile];
        DistinctConcat(Tiles(saved), [part.tile]);
        saved := saved + [part];
        dy := dy + 1;
      }
      dx := dx + 1;
    }
  }

  /** The tiles main has written before it renders metatile (metaX, metaY) of zoom z. */
  predicate Done(t: TileId, z: nat, metaX: nat, metaY: nat) {
    InGrid(t, t.z) &&
    (t.z < z || (t.z == z && (t.x < metaX || (t.x < metaX + METATILE_SIZE && t.y < metaY))))
  }

  /** A saved tile is cut, at its own offset, from the drawing of the metatile that contains it. */
  predicate FromMetatile(v: View, w: TileImage)
    requires v.Valid()
  {
    MetatileEvents(v, w.tile.x / METATILE_SIZE, w.tile.y / METATILE_SIZE, w.tile.z) == Ok(w.metatile) &&
    w.box == CropBox(w.tile)
  }

  /**
   * What main has saved when it reaches metatile (metaX, metaY) of zoom z:
   * every earlier tile once, each cut from its own metatile.
   */
  ghost predicate Progress(v: View, written: seq<TileImage>, z: nat, metaX: nat, metaY: nat)
    requires v.Valid()
  {
    (forall t :: t in Tiles(written) <==> Done(t, z, metaX, metaY)) &&
    Distinct(Tiles(written)) &&
    forall k :: 0 <= k < |written| ==> FromMetatile(v, written[k])
  }

  /** The next metatile of a row or a column starts on a metatile boundary too. */
  lemma NextBoundary(m: nat)
    requires m % METATILE_SIZE == 0
    ensures (m + METATILE_SIZE) % METATILE_SIZE == 0
  {
  }

  lemma SameBlock(x: nat, metaX: nat)
    requires metaX % METATILE_SIZE == 0 && metaX <= x < metaX + METATILE_SIZE
    ensures x / METATILE_SIZE == metaX / METATILE_SIZE && x % METATILE_SIZE == x - metaX
  {
  }

  /** Saving the tiles of one more metatile moves the progress one metatile down the column. */
  lemma SaveBlock(v: View, written: seq<TileImage>, saved: seq<TileImage>, img: Render, z: nat, metaX: nat, metaY: nat)
    requires v.Valid() && Progress(v, written, z, metaX, metaY)
    requires metaX % METATILE_SIZE == 0 && metaY % METATILE_SIZE == 0
    requires MetatileEvents(v, metaX / METATILE_SIZE, metaY / METATILE_SIZE, z) == Ok(img)
    requires forall t :: t in Tiles(saved) <==> InBlock(t, metaX, metaY, z)
    requires Distinct(Tiles(saved))
    requires forall k :: 0 <= k < |saved| ==> saved[k].metatile == img
    requires forall k :: 0 <= k < |saved| ==>
      var t := saved[k].tile;
      saved[k].box == Box((t.x - metaX) * TILE_DIM, (t.y - metaY) * TILE_DIM,
                          (t.x - metaX + 1) * TILE_DIM, (t.y - metaY + 1) * TILE_DIM)
    ensures Progress(v, written + saved, z, metaX, metaY + METATILE_SIZE)
  {
    TilesConcat(written, saved);
    forall t | t in Tiles(saved) ensures t !in Tiles(written) {
      assert InBlock(t, metaX, metaY, z);
    }
    DistinctConcat(Tiles(written), Tiles(saved));
    forall k | 0 <= k < |saved| ensures FromMetatile(v, saved[k]) {
      assert saved[k].tile == Tiles(saved)[k];
      assert InBlock(saved[k].tile, metaX, metaY, z);
      SameBlock(saved[k].tile.x, metaX);
      SameBlock(saved[k].tile.y, metaY);
    }
    var all := written + saved;
    forall k | 0 <= k < |all| ensures FromMetatile(v, all[k]) {
      if k >= |written| {
        assert all[k] == saved[k - |written|];
      }
    }
  }

  /** Past the grid's last row the column is finished: progress moves to the next column. */
  lemma NextColumn(v: View, written: seq<TileImage>, z: nat, metaX: nat, metaY: nat)
    requires v.Valid() && Progress(v, written, z, metaX, metaY) && metaY >= Pow2(z)
    ensures Progress(v, written, z, metaX + METATILE_SIZE, 0)
  {
  }

  /** Past the grid's last column the zoom level is finished: progress moves to the next level. */
  lemma NextZoom(v: View, written: seq<TileImage>, z: nat, metaX: nat)
    requires v.Valid() && Progress(v, written, z, metaX, 0) && metaX >= Pow2(z)
    ensures Progress(v, written, z + 1, 0, 0)
  {
  }

  /** Where main stopped: the exception and the upper-left tile of the metatile that raised it. */
  datatype Failure = Failure(error: Error, at: TileId)

  /** How main ends: the tiles written, and the exception that ended it, if any. */
  datatype Run = Run(written: seq<TileImage>, failure: Option<Failure>)

  /** The metatile whose upper-left tile is f.at lies in the grid and raises f.error. */
  predicate FailedAt(v: View, f: Failure)
    requires v.Valid()
  {
    InGrid(f.at, f.at.z) && f.at.x % METATILE_SIZE == 0 && f.at.y % METATILE_SIZE == 0 &&
    MetatileEvents(v, f.at.x / METATILE_SIZE, f.at.y / METATILE_SIZE, f.at.z) == Err(f.error)
  }

  /**
   * What main leaves behind for levels 0..maxZoom. Without an exception:
   * every tile of those levels once, each cut from its own metatile. With
   * one: the metatile that raised it, and exactly the tiles of the
   * metatiles before it in level, column, row order, whose rendering had
   * been handed to the pool.
   */
  ghost predicate Outcome(v: View, run: Run, maxZoom: int)
    requires v.Valid()
  {
    match run.failure
    case None =>
      (forall t :: t in Tiles(run.written) <==> InGrid(t, t.z) && t.z <= maxZoom) &&
      Distinct(Tiles(run.written)) &&
      forall k :: 0 <= k < |run.written| ==> FromMetatile(v, run.written[k])
    case Some(f) =>
      f.at.z <= maxZoom && FailedAt(v, f) && Progress(v, run.written, f.at.z, f.at.x, f.at.y)
  }

  /**
   * Every metatile before the point main has reached drew without an
   * exception, so a failure that Outcome records is the first one in
   * level, column, row order.
   */
  lemma EarlierMetatilesDrew(v: View, written: seq<TileImage>, z: nat, metaX: nat, metaY: nat, t: TileId)
    requires v.Valid() && Progress(v, written, z, metaX, metaY) && Done(t, z, metaX, metaY)
    ensures MetatileEvents(v, t.x / METATILE_SIZE, t.y / METATILE_SIZE, t.z).Ok?
  {
    assert t in Tiles(written);
    var k :| 0 <= k < |written| && Tiles(written)[k] == t;
    assert FromMetatile(v, written[k]);
  }

  /**
   * main: build the Tiler from the tags, then render the pyramid up to
   * maxZoom. An empty tag list raises in the constructor; a negative
   * maxZoom renders nothing.
   */
  method Generate(tags: seq<Tag>, maxZoom: int) returns (r: Result<Run, Error>)
    ensures r.Err? <==> |tags| == 0
    ensures r.Err? ==> r.error == EmptyTagList
    ensures r.Ok? ==> Outcome(BuiltView(tags), r.value, maxZoom)
    ensures r.Ok? && maxZoom < |FONT_SIZES| && MaxCount(tags) != 0 ==> r.value.failure.None?
    ensures |tags| > 0 && maxZoom < 0 ==> r == Ok(Run([], None))
  {
    if |tags| == 0 {
      return Err(EmptyTagList);
    }
    var tiler := new Tiler(tags);
    tiler.ViewIsBuilt();
    var run := RenderPyramid(tiler, maxZoom);
    return Ok(run);
  }

  /**
   * The loops of main: for every zoom level from 0 to maxZoom, every column
   * of metatiles of that level. The first metatile that raises ends the
   * run, keeping the tiles of the metatiles before it.
   */
  method RenderPyramid(tiler: Tiler, maxZoom: int) returns (run: Run)
    requires tiler.Valid()
    ensures Outcome(tiler.AsView(), run, maxZoom)
    ensures maxZoom < |FONT_SIZES| && tiler.maxPostCount != 0 ==> run.failure.None?
    ensures maxZoom < 0 ==> run == Run([], None)
  {
    ghost var v := tiler.AsView();
    var written: seq<TileImage> := [];
    var z := 0;
    while z <= maxZoom
      invariant maxZoom >= 0 ==> z <= maxZoom + 1
      invariant maxZoom < 0 ==> z == 0 && written == []
      invariant Progress(v, written, z, 0, 0)
    {
      var level := RenderLevel(tiler, written, z);
      if level.failure.Some? {
        return level;
      }
      written := level.written;
      z := z + 1;
    }
    assert forall t :: Done(t, z, 0, 0) <==> InGrid(t, t.z) && t.z <= maxZoom;
    return Run(written, None);
  }

  /**
   * The middle loop of main: every column of metatiles of zoom z, left to
   * right, until a metatile raises.
   */
  method RenderLevel(tiler: Tiler, written: seq<TileImage>, z: nat) returns (run: Run)
    requires tiler.Valid() && Progress(tiler.AsView(), written, z, 0, 0)
    ensures run.failure.None? ==> Progress(tiler.AsView(), run.written, z + 1, 0, 0)
    ensures run.failure.Some? ==>
      var f := run.failure.value;
      f.at.z == z && FailedAt(tiler.AsView(), f) &&
      Progress(tiler.AsView(), run.written, z, f.at.x, f.at.y)
    ensures z < |FONT_SIZES| && tiler.maxPostCount != 0 ==> run.failure.None?
  {
    ghost var v := tiler.AsView();
    var done := written;
    var metaX := 0;
    while metaX < Pow2(z)
      invariant metaX % METATILE_SIZE == 0
      invariant Progress(v, done, z, metaX, 0)
    {
      var column := RenderColumn(tiler, done, z, metaX);
      if column.failure.Some? {
        return column;
      }
      done := column.written;
      NextBoundary(metaX);
      metaX := metaX + METATILE_SIZE;
    }
    NextZoom(v, done, z, metaX);
    return Run(done, None);
  }

  /**
   * The innermost loop of main: every metatile of one column of zoom z,
   * top to bottom, each rendered and cut into the tiles saved after those
   * already written, until a metatile raises.
   */
  method RenderColumn(tiler: Tiler, written: seq<TileImage>, z: nat, metaX: nat) returns (run: Run)
    requires tiler.Valid() && metaX % METATILE_SIZE == 0 && metaX < Pow2(z)
    requires Progress(tiler.AsView(), written, z, metaX, 0)
    ensures run.failure.None? ==> Progress(tiler.AsView(), run.written, z, metaX + METATILE_SIZE, 0)
    ensures run.failure.Some? ==>
      var f := run.failure.value;
      f.at.x == metaX && f.at.z == z && FailedAt(tiler.AsView(), f) &&
      Progress(tiler.AsView(), run.written, z, metaX, f.at.y)
    ensures z < |FONT_SIZES| && tiler.maxPostCount != 0 ==> run.failure.None?
  {
    ghost var v := tiler.AsView();
    var done := written;
    var metaY := 0;
    while metaY < Pow2(z)
      invariant metaY % METATILE_SIZE == 0
      invariant Progress(v, done, z, metaX, metaY)
    {
      var error;
      done, error := VisitMetatile(tiler, v, done, z, metaX, metaY);
      if error.Some? {
        return Run(done, Some(Failure(error.value, TileId(metaX, metaY, z))));
      }
      NextBoundary(metaY);
      metaY := metaY + METATILE_SIZE;
    }
    NextColumn(v, done, z, metaX, metaY);
    return Run(done, None);
  }

  /**
   * One step of the innermost loop: the metatile at (metaX, metaY) is drawn
   * and, when it does not raise, cut into tiles saved after those already
   * written; when it raises, nothing more is written.
   */
  method VisitMetatile(tiler: Tiler, ghost v: View, written: seq<TileImage>, z: nat, metaX: nat, metaY: nat)
    returns (done: seq<TileImage>, error: Option<Error>)
    requires tiler.Valid() && v == tiler.AsView()
    requires metaX % METATILE_SIZE == 0 && metaY % METATILE_SIZE == 0
    requires metaX < Pow2(z) && metaY < Pow2(z)
    requires Progress(v, written, z, metaX, metaY)
    ensures error.None? ==> Progress(v, done, z, metaX, metaY + METATILE_SIZE)
    ensures error.Some? ==>
      done == written && FailedAt(v, Failure(error.value, TileId(metaX, metaY, z))) &&
      (z >= |FONT_SIZES| || v.maxPostCount == 0)
  {
    var img := tiler.GetMetatile(metaX, metaY, z);
    if img.Err? {
      MetatileFailure(v, metaX, metaY, z, img.error);
      return written, Some(img.error);
    }
    done := SaveMetatile(v, written, img.value, z, metaX, metaY);
    error := None;
  }

  /**
   * One metatile that drew without an exception: its tiles are saved after
   * those already written, moving the progress one metatile down the column.
   */
  method SaveMetatile(ghost v: View, written: seq<TileImage>, img: Render, z: nat, metaX: nat, metaY: nat)
    returns (done: seq<TileImage>)
    requires v.Valid() && Progress(v, written, z, metaX, metaY)
    requires metaX % METATILE_SIZE == 0 && metaY % METATILE_SIZE == 0
    requires MetatileEvents(v, metaX / METATILE_SIZE, metaY / METATILE_SIZE, z) == Ok(img)
    ensures Progress(v, done, z, metaX, metaY + METATILE_SIZE)
    ensures |written| <= |done| && done[..|written|] == written
  {
    var saved := RenderTiles(img, metaX, metaY, z);
    SaveBlock(v, written, saved, img, z, metaX, metaY);
    done := written + saved;
  }

  /** A metatile of the grid that fails to draw is where the run fails, and only fonts or a zero maximum can cause it. */
  lemma MetatileFailure(v: View, metaX: nat, metaY: nat, z: nat, e: Error)
    requires v.Valid() && metaX % METATILE_SIZE == 0 && metaY % METATILE_SIZE == 0
    requires metaX < Pow2(z) && metaY < Pow2(z)
    requires MetatileEvents(v, metaX / METATILE_SIZE, metaY / METATILE_SIZE, z) == Err(e)
    ensures FailedAt(v, Failure(e, TileId(metaX, metaY, z)))
    ensures z >= |FONT_SIZES| || v.maxPostCount == 0
  {
  }

  /** The world point of tile boundary (x, y) at a zoom level: a tile is an eighth of a metatile. */
  function TileOrigin(v: View, x: nat, y: nat, zoom: nat): Point
    requires zoom < |v.tileSize|
  {
    var side := v.tileSize[zoom] / METATILE_SIZE as real;
    Point(v.origin.x + x as real * side, v.origin.y + y as real * side)
  }

  /**
   * A tile's crop box is the pixel image of the tile's own world square:
   * the tile's world corner maps to the box's upper corner and the opposite
   * corner to its lower one, in the drawing of the metatile holding it.
   */
  lemma CropMatchesTile(v: View, t: TileId)
    requires v.Valid() && t.z < ZOOM_LEVELS
    ensures ToPixel(TileOrigin(v, t.x, t.y, t.z), Corner(v, t.x / METATILE_SIZE, t.y / METATILE_SIZE, t.z),
                    v.tileSize[t.z], METATILE_PIXELS)
      == Point(CropBox(t).left as real, CropBox(t).top as real)
    ensures ToPixel(TileOrigin(v, t.x + 1, t.y + 1, t.z), Corner(v, t.x / METATILE_SIZE, t.y / METATILE_SIZE, t.z),
                    v.tileSize[t.z], METATILE_PIXELS)
      == Point(CropBox(t).right as real, CropBox(t).bottom as real)
  {
    BoundaryPixel(v, t, 0);
    BoundaryPixel(v, t, 1);
  }

  /** Tile boundary (x + k, y + k) lies (x % 8 + k, y % 8 + k) tiles of pixels into the metatile of tile (x, y). */
  lemma BoundaryPixel(v: View, t: TileId, k: nat)
    requires v.Valid() && t.z < ZOOM_LEVELS && k <= 1
    ensures ToPixel(TileOrigin(v, t.x + k, t.y + k, t.z), Corner(v, t.x / METATILE_SIZE, t.y / METATILE_SIZE, t.z),
                    v.tileSize[t.z], METATILE_PIXELS)
      == Point(((t.x % METATILE_SIZE + k) * TILE_DIM) as real, ((t.y % METATILE_SIZE + k) * TILE_DIM) as real)
  {
    var size := v.tileSize[t.z];
    var p := TileOrigin(v, t.x + k, t.y + k, t.z);
    var c := Corner(v, t.x / METATILE_SIZE, t.y / METATILE_SIZE, t.z);
    AxisOffset(p.x, c.x, v.origin.x, t.x, size, k);
    AxisOffset(p.y, c.y, v.origin.y, t.y, size, k);
  }

  /**
   * Along one axis: tile boundary n + k, seen from the corner of the
   * metatile holding tile n, lies k + n % 8 tiles of pixels in.
   */
  lemma AxisOffset(p: real, c: real, o: real, n: nat, size: real, k: nat)
    requires size > 0.0 && k <= 1
    requires p == o + (n + k) as real * (size / METATILE_SIZE as real)
    requires c == o + (n / METATILE_SIZE) as real * size
    ensures (p - c) / size * METATILE_PIXELS == ((n % METATILE_SIZE + k) * TILE_DIM) as real
  {
    var q, m := n / 8, n % 8;
    var s8 := size / 8.0;
    assert size == 8.0 * s8;
    assert (n + k) as real == 8.0 * q as real + (m + k) as real;
    assert (n + k) as real * s8 - q as real * size == (m + k) as real * s8;
    assert (m + k) as real * s8 / size == (m + k) as real / 8.0;
  }
}
