/**
 * The LightTiler of src/visualization/tiler/lighttiler.py: a subclass that
 * overrides the font table, the PostCount measure, the label selector and
 * the metatile renderer of its base class, over the extent, the index and
 * the PostCount maximum the base class builds.
 */
module LightTiling {
  import opened Wrappers
  import opened Geometry
  import opened Metatile
  import opened VisTiler

  class LightTiler {
    var origin: Point
    var tileSize: seq<real>
    var index: seq<Tag>
    var maxPostCount: int
    var fonts: seq<int>

    /**
     * The inherited state: a metatile size per zoom level, every one
     * positive, and every indexed tag carrying its PostCount.
     */
    ghost predicate Valid()
      reads this
    {
      AsView().Valid() &&
      (forall t :: t in index ==> t.postCount.Some?) &&
      fonts == FONT_SIZES
    }

    /** What the selector and the renderer read. */
    function AsView(): View
      reads this
    {
      View(origin, tileSize, index, maxPostCount)
    }

    /**
     * __init__: the base class builds the extent, the index and the PostCount
     * maximum from the tags, as the Tiler of get_tiling.py does, and installs
     * this class's font table.
     */
    constructor (tags: seq<Tag>)
      requires |tags| > 0
      ensures Valid() && AsView() == BuiltView(tags)
    {
      var v := BuiltView(tags);
      origin, tileSize, index, maxPostCount := v.origin, v.tileSize, v.index, v.maxPostCount;
      new;
      SetFonts();
    }

    /** set_fonts: nine fonts, the one of zoom z of size 25 - 2z. */
    method SetFonts()
      modifies this
      ensures fonts == FONT_SIZES
      ensures forall z :: 0 <= z < |fonts| ==> fonts[z] == ANTIALIASING_SCALE * (25 - 2 * z)
      ensures origin == old(origin) && tileSize == old(tileSize) && index == old(index) && maxPostCount == old(maxPostCount)
    {
      fonts := seq(9, zoom requires 0 <= zoom < 9 => ANTIALIASING_SCALE * (25 - zoom * 2));
    }

    /** get_postcount_measure: tag.PostCount / max_post_count. */
    function GetPostcountMeasure(t: Tag): (r: Result<real, Error>)
      reads this
      ensures r.Err? <==> t.postCount.None? || maxPostCount == 0
      ensures r.Err? ==> r.error == if t.postCount.None? then MissingPostCount else DivisionByZero
      ensures r.Ok? ==> r.value * maxPostCount as real == t.postCount.value as real
    {
      TagMeasure(t, maxPostCount)
    }

    /**
     * get_names_of_shown_tags: nothing from ZOOM_TEXT_SHOW on; below it at
     * most TAGS_ANNOTATED_PER_TILE names of the metatile's tags, each with a
     * positive PostCount, none passed over for a lower-ranked one.
     */
    function GetNamesOfShownTags(metaX: int, metaY: int, zoom: nat): (r: set<string>)
      requires Valid()
      reads this
      ensures zoom >= ZOOM_TEXT_SHOW ==> r == {}
      ensures |r| <= TAGS_ANNOTATED_PER_TILE
      ensures forall n :: n in r ==>
        exists t :: t in TagsInTile(AsView(), metaX, metaY, zoom, false).value && t.name == n && Count(t) > 0
    {
      var r := ShownNames(AsView(), metaX, metaY, zoom);
      assert forall n :: n in r ==>
        exists t :: t in TagsInTile(AsView(), metaX, metaY, zoom, false).value && t.name == n && Count(t) > 0 by {
        forall n | n in r
          ensures exists t :: t in TagsInTile(AsView(), metaX, metaY, zoom, false).value && t.name == n && Count(t) > 0
        {
          ShownNamesFromMetatile(AsView(), metaX, metaY, zoom, n);
        }
      }
      r
    }

    /**
     * get_metatile for the metatile whose upper-left tile is (metaX, metaY):
     * the 3 x 3 neighbour union of shown names, then every marker, then the
     * labels.
     */
    method GetMetatile(metaX: int, metaY: int, zoom: nat) returns (r: Result<Render, Error>)
      requires Valid() && metaX % METATILE_SIZE == 0 && metaY % METATILE_SIZE == 0
      ensures r == MetatileEvents(AsView(), metaX / METATILE_SIZE, metaY / METATILE_SIZE, zoom)
    {
      r := RenderMetatile(AsView(), metaX / METATILE_SIZE, metaY / METATILE_SIZE, zoom);
    }
  }

  /**
   * Built from the same tags, the LightTiler and the Tiler of get_tiling.py
   * draw every metatile alike and select the same names.
   */
  lemma SameAsTiler(light: LightTiler, tiler: Tiler, mi: int, mj: int, zoom: nat)
    requires light.Valid() && tiler.Valid() && light.AsView() == BuiltView(tiler.tags)
    ensures MetatileEvents(light.AsView(), mi, mj, zoom) == MetatileEvents(tiler.AsView(), mi, mj, zoom)
    ensures light.GetNamesOfShownTags(mi, mj, zoom) == tiler.GetNamesOfShownTags(mi, mj, zoom)
  {
    tiler.ViewIsBuilt();
  }

  /** The measure read from an indexed tag is the one the renderer draws with. */
  lemma IndexedMeasureAgrees(light: LightTiler, t: Tag)
    requires light.Valid() && t in light.index
    ensures light.GetPostcountMeasure(t) == PostcountMeasure(Count(t), light.maxPostCount)
    ensures light.GetPostcountMeasure(t).Ok? <==> light.maxPostCount != 0
  {
    assert t.postCount.Some?;
  }
}
