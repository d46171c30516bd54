/**
 * The metatile renderer shared by src/visualization/get_tiling.py's Tiler and
 * src/visualization/tiler/lighttiler.py's LightTiler: the per-zoom metatile
 * sizes, the window queries, the label selector with its 3 x 3 neighbour
 * union, and the draw events of one metatile.
 */
module Metatile {
  import opened Wrappers
  import opened Geometry
  import opened Labels
  import opened Grid

  const ANTIALIASING_SCALE: nat := 1
  /** Pixels per tile side. */
  const TILE_DIM: nat := 256 * ANTIALIASING_SCALE
  /** The world-space margin around the data and around every query window. */
  const SHIFT: real := 10.0 * ANTIALIASING_SCALE as real
  /** Tiles per metatile side. */
  const METATILE_SIZE: nat := 8
  /** From this zoom level on every name is drawn. */
  const ZOOM_TEXT_SHOW: nat := 7
  /** At most this many names are selected per metatile. */
  const TAGS_ANNOTATED_PER_TILE: nat := 10
  /** tile_size has one entry for each zoom level 0 .. ZOOM_LEVELS - 1. */
  const ZOOM_LEVELS: nat := 20
  /** The font sizes of set_fonts, one per zoom level 0 .. 8. */
  const FONT_SIZES: seq<int> := [25, 23, 21, 19, 17, 15, 13, 11, 9]
  /** Pixels per metatile side. */
  const METATILE_PIXELS: real := (TILE_DIM * METATILE_SIZE) as real

  /** The neighbouring metatile offsets, in loop order. */
  const OFFSETS: seq<int> := [-1, 0, 1]

  // ---------------------------------------------------------------------------
  // Per-zoom metatile sizes
  // ---------------------------------------------------------------------------

  /** tile_size: the world side of a metatile at each zoom level, map_size / 2^z * 8. */
  function TileSizes(mapSize: real): (r: seq<real>)
    ensures |r| == ZOOM_LEVELS
  {
    seq(ZOOM_LEVELS, z requires 0 <= z => mapSize / (Pow2(z) as real) * (METATILE_SIZE as real))
  }

  /** Zoom 0's metatile is eight map sides, and each zoom level halves the previous one's. */
  lemma TileSizesHalve(mapSize: real, z: nat)
    requires z + 1 < ZOOM_LEVELS
    ensures TileSizes(mapSize)[0] == mapSize * METATILE_SIZE as real
    ensures TileSizes(mapSize)[z + 1] * 2.0 == TileSizes(mapSize)[z]
  {
    var s := TileSizes(mapSize);
    var p := Pow2(z) as real;
    var k := METATILE_SIZE as real;
    assert Pow2(z + 1) as real == 2.0 * p;
    assert s[z] == mapSize / p * k;
    assert s[z + 1] == mapSize / (2.0 * p) * k;
    HalfSide(mapSize, p, k);
    assert s[0] == mapSize / 1.0 * k;
  }

  /** Doubling the divisor halves the side. */
  lemma HalfSide(m: real, p: real, k: real)
    requires p > 0.0
    ensures m / (2.0 * p) * k * 2.0 == m / p * k
  {
    assert m / (2.0 * p) * 2.0 == m / p;
  }

  /** A positive map side gives positive metatile sizes at every zoom. */
  lemma TileSizesPositive(mapSize: real)
    requires mapSize > 0.0
    ensures forall z :: 0 <= z < ZOOM_LEVELS ==> TileSizes(mapSize)[z] > 0.0
  {
    forall z | 0 <= z < ZOOM_LEVELS ensures TileSizes(mapSize)[z] > 0.0 {
      var p := Pow2(z) as real;
      assert mapSize / p > 0.0;
    }
  }

  // ---------------------------------------------------------------------------
  // What a renderer reads
  // ---------------------------------------------------------------------------

  /** The read-only state of a tiler that the selector and the renderer consult. */
  datatype View = View(origin: Point, tileSize: seq<real>, index: seq<Tag>, maxPostCount: int) {
    predicate Valid() {
      |tileSize| == ZOOM_LEVELS && forall z :: 0 <= z < ZOOM_LEVELS ==> tileSize[z] > 0.0
    }
  }

  /** The lower-left world corner of metatile (mi, mj) at a zoom level. */
  function Corner(v: View, mi: int, mj: int, zoom: nat): Point
    requires zoom < |v.tileSize|
  {
    Point(v.origin.x + mi as real * v.tileSize[zoom], v.origin.y + mj as real * v.tileSize[zoom])
  }

  /**
   * get_tags_in_tile: the indexed tags in metatile (mi, mj), the window grown
   * by SHIFT when withShift holds; an out-of-range zoom raises.
   */
  function TagsInTile(v: View, mi: int, mj: int, zoom: nat, withShift: bool): (r: Result<seq<Tag>, Error>)
    ensures r.Err? <==> zoom >= |v.tileSize|
    ensures r.Err? ==> r.error == ZoomOutOfRange
  {
    if zoom >= |v.tileSize| then Err(ZoomOutOfRange)
    else Ok(Query(v.index, Window(Corner(v, mi, mj, zoom), v.tileSize[zoom], if withShift then SHIFT else 0.0)))
  }

  /**
   * A tag is returned exactly when it is indexed and lies in the closed
   * square [corner - shift, corner + size + shift]^2, as often as it is indexed.
   */
  lemma TagsInTileMembers(v: View, mi: int, mj: int, zoom: nat, withShift: bool, t: Tag)
    requires zoom < |v.tileSize|
    ensures var c, size, shift := Corner(v, mi, mj, zoom), v.tileSize[zoom], (if withShift then SHIFT else 0.0);
      var inside := c.x - shift <= t.x <= c.x + size + shift && c.y - shift <= t.y <= c.y + size + shift;
      (t in TagsInTile(v, mi, mj, zoom, withShift).value <==> t in v.index && inside) &&
      multiset(TagsInTile(v, mi, mj, zoom, withShift).value)[t] == if inside then multiset(v.index)[t] else 0
  {
    QueryIsFilter(v.index, Window(Corner(v, mi, mj, zoom), v.tileSize[zoom], if withShift then SHIFT else 0.0), t);
  }

  /** The shifted query returns every tag of the unshifted one, at least as often. */
  lemma ShiftedQueryContainsUnshifted(v: View, mi: int, mj: int, zoom: nat)
    requires zoom < |v.tileSize|
    ensures multiset(TagsInTile(v, mi, mj, zoom, false).value) <= multiset(TagsInTile(v, mi, mj, zoom, true).value)
  {
    QueryWindowGrows(v.index, Corner(v, mi, mj, zoom), v.tileSize[zoom], SHIFT);
  }

  // ---------------------------------------------------------------------------
  // The label selector
  // ---------------------------------------------------------------------------

  /** The (PostCount, name) pairs of the tags, in order. */
  function Ranks(tags: seq<Tag>): (r: seq<Rank>)
    ensures |r| == |tags|
    ensures forall i :: 0 <= i < |tags| ==> r[i] == Rank(Count(tags[i]), tags[i].name)
  {
    seq(|tags|, i requires 0 <= i < |tags| => Rank(Count(tags[i]), tags[i].name))
  }

  lemma RanksAppend(a: seq<Tag>, b: seq<Tag>)
    ensures Ranks(a + b) == Ranks(a) + Ranks(b)
  {
  }

  /** Reordering the tags reorders their pairs: the multiset of pairs depends only on the multiset of tags. */
  lemma {:induction false} RanksPermutation(s: seq<Tag>, t: seq<Tag>)
    requires multiset(s) == multiset(t)
    ensures multiset(Ranks(s)) == multiset(Ranks(t))
    decreases |s|
  {
    if |s| == 0 {
      assert |t| == |multiset(t)| == 0;
    } else {
      var j := MatchFirst(s, t);
      var rest := t[..j] + t[j + 1..];
      var head := multiset{Rank(Count(s[0]), s[0].name)};
      RanksPermutation(s[1..], rest);
      RanksWithout(t, j);
      assert multiset(Ranks(t)) == multiset(Ranks(rest)) + head;
      RanksTail(s);
    }
  }

  /** The pairs of a non-empty list are those of its tail plus its head's pair. */
  lemma RanksTail(s: seq<Tag>)
    requires |s| > 0
    ensures multiset(Ranks(s)) == multiset(Ranks(s[1..])) + multiset{Rank(Count(s[0]), s[0].name)}
  {
    var r := Ranks(s);
    assert r == [r[0]] + r[1..];
    assert r[1..] == Ranks(s[1..]);
  }

  /** A list is the list without entry j, plus entry j. */
  lemma MultisetWithout<T>(t: seq<T>, j: nat)
    requires j < |t|
    ensures multiset(t) == multiset(t[..j] + t[j + 1..]) + multiset{t[j]}
  {
    assert t == t[..j] + [t[j]] + t[j + 1..];
  }

  /** In a permutation of a non-empty list, some entry j is the list's head, and removing both leaves a permutation. */
  lemma MatchFirst<T>(s: seq<T>, t: seq<T>) returns (j: nat)
    requires |s| > 0 && multiset(s) == multiset(t)
    ensures j < |t| && t[j] == s[0]
    ensures multiset(s[1..]) == multiset(t[..j] + t[j + 1..])
  {
    assert s[0] in multiset(t);
    j :| 0 <= j < |t| && t[j] == s[0];
    MultisetWithout(t, j);
    MultisetWithout(s, 0);
    assert s[..0] + s[1..] == s[1..];
    MultisetCancel(multiset(s[1..]), multiset(t[..j] + t[j + 1..]), multiset(s), s[0]);
  }

  /** Two multisets that become equal once the same element is added to each are equal. */
  lemma MultisetCancel<T>(a: multiset<T>, b: multiset<T>, whole: multiset<T>, x: T)
    requires whole == a + multiset{x} && whole == b + multiset{x}
    ensures a == b
  {
    assert forall y :: a[y] == whole[y] - multiset{x}[y] == b[y];
  }

  /** The pairs of a list are the pairs of the list without entry j, plus entry j's pair. */
  lemma RanksWithout(t: seq<Tag>, j: nat)
    requires j < |t|
    ensures multiset(Ranks(t)) == multiset(Ranks(t[..j] + t[j + 1..])) + multiset{Rank(Count(t[j]), t[j].name)}
  {
    assert t == t[..j] + [t[j]] + t[j + 1..];
    RanksAppend(t[..j] + [t[j]], t[j + 1..]);
    RanksAppend(t[..j], [t[j]]);
    RanksAppend(t[..j], t[j + 1..]);
  }

  /** A tag's own pair is among the pairs of a list that holds it, and every pair comes from a tag. */
  lemma RankOfMember(tags: seq<Tag>, t: Tag)
    requires t in tags
    ensures Rank(Count(t), t.name) in Ranks(tags)
  {
    var i :| 0 <= i < |tags| && tags[i] == t;
    assert Ranks(tags)[i] == Rank(Count(t), t.name);
  }

  /**
   * get_names_of_shown_tags: nothing from ZOOM_TEXT_SHOW on (every name is
   * drawn there anyway); below it, the selection among the tags of the
   * unshifted metatile.
   */
  function ShownNames(v: View, mi: int, mj: int, zoom: nat): (r: set<string>)
    requires v.Valid()
    ensures zoom >= ZOOM_TEXT_SHOW ==> r == {}
    ensures |r| <= TAGS_ANNOTATED_PER_TILE
  {
    if zoom >= ZOOM_TEXT_SHOW then {}
    else
      SelectNames(Ranks(TagsInTile(v, mi, mj, zoom, false).value), TAGS_ANNOTATED_PER_TILE)
  }

  /** Every shown name is the name of a tag of the metatile whose PostCount is positive. */
  lemma ShownNamesFromMetatile(v: View, mi: int, mj: int, zoom: nat, n: string)
    requires v.Valid() && n in ShownNames(v, mi, mj, zoom)
    ensures zoom < ZOOM_TEXT_SHOW
    ensures exists t :: t in TagsInTile(v, mi, mj, zoom, false).value && t.name == n && Count(t) > 0
  {
    var tags := TagsInTile(v, mi, mj, zoom, false).value;
    SelectNamesBounds(Ranks(tags), TAGS_ANNOTATED_PER_TILE);
    var c :| c > 0 && Rank(c, n) in Ranks(tags);
    var i :| 0 <= i < |tags| && Ranks(tags)[i] == Rank(c, n);
    assert tags[i].name == n && Count(tags[i]) > 0;
  }

  /**
   * Below ZOOM_TEXT_SHOW a tag of the metatile with a positive PostCount
   * whose name is not shown is outranked by TAGS_ANNOTATED_PER_TILE pairs of
   * the metatile, each at least as large in (PostCount, name) order.
   */
  lemma ShownNamesAreTopRanked(v: View, mi: int, mj: int, zoom: nat, t: Tag)
    requires v.Valid() && zoom < ZOOM_TEXT_SHOW
    requires t in TagsInTile(v, mi, mj, zoom, false).value
    requires Count(t) > 0 && t.name !in ShownNames(v, mi, mj, zoom)
    ensures var top := TopK(Ranks(TagsInTile(v, mi, mj, zoom, false).value), TAGS_ANNOTATED_PER_TILE);
      |top| == TAGS_ANNOTATED_PER_TILE &&
      forall x :: x in top ==> !RankLess(x, Rank(Count(t), t.name))
  {
    var tags := TagsInTile(v, mi, mj, zoom, false).value;
    RankOfMember(tags, t);
    SelectNamesIsTopK(Ranks(tags), TAGS_ANNOTATED_PER_TILE, Count(t), t.name);
  }

  /** The selection is the same for every order in which the index may return the metatile's tags. */
  lemma ShownNamesOrderIndependent(v: View, mi: int, mj: int, zoom: nat, returned: seq<Tag>)
    requires v.Valid() && zoom < ZOOM_TEXT_SHOW
    requires multiset(returned) == multiset(TagsInTile(v, mi, mj, zoom, false).value)
    ensures SelectNames(Ranks(returned), TAGS_ANNOTATED_PER_TILE) == ShownNames(v, mi, mj, zoom)
  {
    var tags := TagsInTile(v, mi, mj, zoom, false).value;
    RanksPermutation(returned, tags);
    SelectNamesOrderIndependent(Ranks(returned), Ranks(tags), TAGS_ANNOTATED_PER_TILE);
  }

  // ---------------------------------------------------------------------------
  // The 3 x 3 neighbour union
  // ---------------------------------------------------------------------------

  /**
   * The selections of the nine metatiles (mi + OFFSETS[k / 3], mj + OFFSETS[k % 3]),
   * in the order get_metatile's two loops visit them.
   */
  function NeighbourSelections(v: View, mi: int, mj: int, zoom: nat): (sels: seq<set<string>>)
    requires v.Valid()
    ensures |sels| == 9
  {
    seq(9, k requires 0 <= k < 9 => Neighbour(v, mi, mj, zoom, k))
  }

  /** The selection of neighbour k of metatile (mi, mj). */
  function Neighbour(v: View, mi: int, mj: int, zoom: nat, k: nat): set<string>
    requires v.Valid() && k < 9
  {
    ShownNames(v, mi + OFFSETS[k / 3], mj + OFFSETS[k % 3], zoom)
  }

  lemma DivMod3(a: nat, b: nat)
    requires a < 3 && b < 3
    ensures (3 * a + b) / 3 == a && (3 * a + b) % 3 == b
  {
  }

  lemma SelectionAt(v: View, mi: int, mj: int, zoom: nat, k: nat)
    requires v.Valid() && k < 9
    ensures NeighbourSelections(v, mi, mj, zoom)[k] == ShownNames(v, mi + OFFSETS[k / 3], mj + OFFSETS[k % 3], zoom)
  {
    assert NeighbourSelections(v, mi, mj, zoom)[k] == Neighbour(v, mi, mj, zoom, k);
  }

  /** Entry 3a + b is the selection of metatile (mi + OFFSETS[a], mj + OFFSETS[b]). */
  lemma SelectionEntry(v: View, mi: int, mj: int, zoom: nat, a: nat, b: nat)
    requires v.Valid() && a < 3 && b < 3
    ensures NeighbourSelections(v, mi, mj, zoom)[3 * a + b] == ShownNames(v, mi + OFFSETS[a], mj + OFFSETS[b], zoom)
  {
    var k := 3 * a + b;
    DivMod3(a, b);
    assert NeighbourSelections(v, mi, mj, zoom)[k] == Neighbour(v, mi, mj, zoom, k);
  }

  /** The union of a sequence of name sets. */
  function UnionOf(sets: seq<set<string>>): set<string> {
    if |sets| == 0 then {} else UnionOf(sets[..|sets| - 1]) + sets[|sets| - 1]
  }

  /** A name is in the union exactly when one of the sets holds it. */
  lemma {:induction false} UnionOfMembers(sets: seq<set<string>>, name: string)
    ensures name in UnionOf(sets) <==> exists k :: 0 <= k < |sets| && name in sets[k]
  {
    if |sets| > 0 {
      var front := sets[..|sets| - 1];
      UnionOfMembers(front, name);
      assert forall k :: 0 <= k < |front| ==> front[k] == sets[k];
    }
  }

  lemma UnionContains(sets: seq<set<string>>, k: nat)
    requires k < |sets|
    ensures sets[k] <= UnionOf(sets)
  {
    forall n | n in sets[k] ensures n in UnionOf(sets) {
      UnionOfMembers(sets, n);
    }
  }

  /** The union of n sets of at most TAGS_ANNOTATED_PER_TILE names holds at most n times as many. */
  lemma {:induction false} UnionOfSize(sets: seq<set<string>>)
    requires forall k :: 0 <= k < |sets| ==> |sets[k]| <= TAGS_ANNOTATED_PER_TILE
    ensures |UnionOf(sets)| <= TAGS_ANNOTATED_PER_TILE * |sets|
  {
    if |sets| > 0 {
      var front := sets[..|sets| - 1];
      UnionOfSize(front);
      var a, b := UnionOf(front), sets[|sets| - 1];
      assert |a + b| + |a * b| == |a| + |b|;
    }
  }

  /** Extending a prefix by one set adds that set to the union. */
  lemma UnionOfStep(sets: seq<set<string>>, n: nat)
    requires n < |sets|
    ensures UnionOf(sets[..n + 1]) == UnionOf(sets[..n]) + sets[n]
  {
    assert sets[..n + 1][..n] == sets[..n];
  }

  /**
   * The names shown in metatile (mi, mj): the union over its 3 x 3
   * neighbourhood. Each of the nine selections holds at most
   * TAGS_ANNOTATED_PER_TILE names, so the union holds at most 90, and none
   * from ZOOM_TEXT_SHOW on.
   */
  function NeighbourShown(v: View, mi: int, mj: int, zoom: nat): (r: set<string>)
    requires v.Valid()
    ensures |r| <= 9 * TAGS_ANNOTATED_PER_TILE
    ensures zoom >= ZOOM_TEXT_SHOW ==> r == {}
  {
    SelectionsBounded(v, mi, mj, zoom);
    UnionOf(NeighbourSelections(v, mi, mj, zoom))
  }

  /** The bounds of NeighbourShown, stated on the union of the nine selections. */
  lemma SelectionsBounded(v: View, mi: int, mj: int, zoom: nat)
    requires v.Valid()
    ensures |UnionOf(NeighbourSelections(v, mi, mj, zoom))| <= 9 * TAGS_ANNOTATED_PER_TILE
    ensures zoom >= ZOOM_TEXT_SHOW ==> UnionOf(NeighbourSelections(v, mi, mj, zoom)) == {}
  {
    var sels := NeighbourSelections(v, mi, mj, zoom);
    forall k | 0 <= k < |sels| ensures |sels[k]| <= TAGS_ANNOTATED_PER_TILE && (zoom >= ZOOM_TEXT_SHOW ==> sels[k] == {}) {
      SelectionAt(v, mi, mj, zoom, k);
    }
    UnionOfSize(sels);
    if zoom >= ZOOM_TEXT_SHOW {
      forall name ensures name !in UnionOf(sels) {
        UnionOfMembers(sels, name);
      }
    }
  }

  /**
   * The neighbour union holds exactly the names of the nine selections,
   * entry 3a + b being metatile (mi + OFFSETS[a], mj + OFFSETS[b]) by
   * SelectionEntry.
   */
  lemma NeighbourShownIsUnion(v: View, mi: int, mj: int, zoom: nat, name: string)
    requires v.Valid()
    ensures name in NeighbourShown(v, mi, mj, zoom) <==>
      exists k :: 0 <= k < 9 && name in NeighbourSelections(v, mi, mj, zoom)[k]
  {
    UnionOfMembers(NeighbourSelections(v, mi, mj, zoom), name);
  }

  /** The neighbour union contains the centre's own selection, entry 4. */
  lemma NeighbourShownHasCentre(v: View, mi: int, mj: int, zoom: nat)
    requires v.Valid()
    ensures ShownNames(v, mi, mj, zoom) <= NeighbourShown(v, mi, mj, zoom)
  {
    var sels := NeighbourSelections(v, mi, mj, zoom);
    assert sels[4] == Neighbour(v, mi, mj, zoom, 4) == ShownNames(v, mi, mj, zoom);
    UnionContains(sels, 4);
  }

  /** The loops of get_metatile that union the neighbours' selections. */
  method CollectShownNames(v: View, mi: int, mj: int, zoom: nat) returns (shown: set<string>)
    requires v.Valid()
    ensures shown == NeighbourShown(v, mi, mj, zoom)
  {
    ghost var sels := NeighbourSelections(v, mi, mj, zoom);
    shown := {};
    for a := 0 to 3
      invariant shown == UnionOf(sels[..3 * a])
    {
      for b := 0 to 3
        invariant shown == UnionOf(sels[..3 * a + b])
      {
        var names := ShownNames(v, mi + OFFSETS[a], mj + OFFSETS[b], zoom);
        SelectionEntry(v, mi, mj, zoom, a, b);
        UnionOfStep(sels, 3 * a + b);
        shown := shown + names;
      }
    }
    assert sels[..9] == sels;
  }

  // ---------------------------------------------------------------------------
  // Drawing a metatile
  // ---------------------------------------------------------------------------

  /** A metatile's draw events, in order, and the number of matched tags. */
  datatype Render = Render(events: seq<Event>, count: nat)

  /** get_postcount_measure: PostCount / max_post_count, which raises when the maximum is 0. */
  function PostcountMeasure(count: int, maxCount: int): (r: Result<real, Error>)
    ensures r.Err? <==> maxCount == 0
    ensures r.Err? ==> r.error == DivisionByZero
    ensures r.Ok? ==> r.value * (maxCount as real) == count as real
  {
    if maxCount == 0 then Err(DivisionByZero) else Ok(count as real / maxCount as real)
  }

  /**
   * get_postcount_measure on a tag object: reading PostCount raises when the
   * tag has none, dividing raises when the maximum is 0.
   */
  function TagMeasure(t: Tag, maxCount: int): (r: Result<real, Error>)
    ensures r.Err? <==> t.postCount.None? || maxCount == 0
    ensures r.Err? ==> r.error == if t.postCount.None? then MissingPostCount else DivisionByZero
    ensures r.Ok? ==> r.value * maxCount as real == Count(t) as real
  {
    match t.postCount
    case None => Err(MissingPostCount)
    case Some(c) => PostcountMeasure(c, maxCount)
  }

  /** The marker radius max(0.5, zoom * measure). */
  function Radius(zoom: nat, measure: real): (r: real)
    ensures r >= 0.5 && r >= zoom as real * measure
    ensures r == 0.5 || r == zoom as real * measure
  {
    var scaled := zoom as real * measure;
    if scaled > 0.5 then scaled else 0.5
  }

  /**
   * The radius grows with PostCount and saturates: with a positive maximum,
   * a larger count never gets a smaller circle, and a count between 0 and
   * the maximum gets at most max(0.5, zoom).
   */
  lemma RadiusMonotoneSaturating(zoom: nat, c1: int, c2: int, maxCount: int)
    requires maxCount > 0 && c1 <= c2
    ensures Radius(zoom, c1 as real / maxCount as real) <= Radius(zoom, c2 as real / maxCount as real)
    ensures 0 <= c2 <= maxCount ==>
      Radius(zoom, c2 as real / maxCount as real) <= (if zoom as real > 0.5 then zoom as real else 0.5)
  {
    var m := maxCount as real;
    var u1, u2 := c1 as real / m, c2 as real / m;
    DivideMonotone(c1 as real, c2 as real, m);
    ScaleMonotone(zoom as real, u1, u2);
    RadiusOrder(zoom, u1, u2);
    if 0 <= c2 <= maxCount {
      DivideMonotone(c2 as real, m, m);
      ScaleMonotone(zoom as real, u2, 1.0);
      assert zoom as real * 1.0 == zoom as real;
      RadiusCap(zoom, u2);
    }
  }

  /** A larger scaled measure never gives a smaller radius. */
  lemma RadiusOrder(zoom: nat, u1: real, u2: real)
    requires zoom as real * u1 <= zoom as real * u2
    ensures Radius(zoom, u1) <= Radius(zoom, u2)
  {
    var a1, a2 := zoom as real * u1, zoom as real * u2;
    assert a1 <= a2;
    SaturatedOrder(Radius(zoom, u1), Radius(zoom, u2), a1, a2);
  }

  /** A scaled measure of at most zoom gives a radius of at most max(zoom, 0.5). */
  lemma RadiusCap(zoom: nat, u: real)
    requires zoom as real * u <= zoom as real
    ensures Radius(zoom, u) <= (if zoom as real > 0.5 then zoom as real else 0.5)
  {
    SaturatedCap(Radius(zoom, u), zoom as real * u, zoom as real);
  }

  /** Of two values max(0.5, a), the one with the larger a is the larger. */
  lemma SaturatedOrder(r1: real, r2: real, a1: real, a2: real)
    requires (r1 == 0.5 || r1 == a1) && r2 >= 0.5 && r2 >= a2 && a1 <= a2
    ensures r1 <= r2
  {
  }

  /** A value max(0.5, a) with a <= z is at most max(z, 0.5). */
  lemma SaturatedCap(r: real, a: real, z: real)
    requires (r == 0.5 || r == a) && a <= z
    ensures r <= (if z > 0.5 then z else 0.5)
  {
  }

  lemma DivideMonotone(a: real, b: real, m: real)
    requires m > 0.0 && a <= b
    ensures a / m <= b / m
    ensures m / m == 1.0
  {
    assert b / m - a / m == (b - a) / m;
  }

  lemma ScaleMonotone(z: real, u1: real, u2: real)
    requires z >= 0.0 && u1 <= u2
    ensures z * u1 <= z * u2
  {
    assert z * u2 - z * u1 == z * (u2 - u1);
  }

  /** The pixel of a tag on the canvas of metatile (mi, mj). */
  function PixelOf(v: View, mi: int, mj: int, zoom: nat, t: Tag): Point
    requires v.Valid() && zoom < ZOOM_LEVELS
  {
    ToPixel(Position(t), Corner(v, mi, mj, zoom), v.tileSize[zoom], METATILE_PIXELS)
  }

  /** One marker: a circle at the tag's pixel with the radius of its PostCount. */
  function Marker(v: View, mi: int, mj: int, zoom: nat, t: Tag): Event
    requires v.Valid() && zoom < ZOOM_LEVELS && v.maxPostCount != 0
  {
    Ellipse(PixelOf(v, mi, mj, zoom, t), Radius(zoom, Count(t) as real / v.maxPostCount as real))
  }

  /** The first drawing pass: one marker per matched tag, in order. */
  function Markers(v: View, mi: int, mj: int, zoom: nat, m: seq<Tag>): seq<Event>
    requires v.Valid() && zoom < ZOOM_LEVELS && (|m| == 0 || v.maxPostCount != 0)
  {
    if |m| == 0 then []
    else Markers(v, mi, mj, zoom, m[..|m| - 1]) + [Marker(v, mi, mj, zoom, m[|m| - 1])]
  }

  /** A tag's name is drawn: every name from ZOOM_TEXT_SHOW on, below it only the shown ones. */
  predicate Labelled(zoom: nat, shown: set<string>, t: Tag) {
    zoom >= ZOOM_TEXT_SHOW || t.name in shown
  }

  /** One label: the tag's name at its pixel, in the zoom level's font. */
  function Label(v: View, mi: int, mj: int, zoom: nat, t: Tag): Event
    requires v.Valid() && zoom < |FONT_SIZES|
  {
    Text(PixelOf(v, mi, mj, zoom, t), t.name, Some(FONT_SIZES[zoom]))
  }

  /** The second drawing pass: the names of the labelled tags, in order. */
  function NameTexts(v: View, mi: int, mj: int, zoom: nat, shown: set<string>, m: seq<Tag>): seq<Event>
    requires v.Valid() && zoom < ZOOM_LEVELS
    requires zoom < |FONT_SIZES| || forall i :: 0 <= i < |m| ==> !Labelled(zoom, shown, m[i])
  {
    if |m| == 0 then []
    else
      var t := m[|m| - 1];
      NameTexts(v, mi, mj, zoom, shown, m[..|m| - 1]) + (if Labelled(zoom, shown, t) then [Label(v, mi, mj, zoom, t)] else [])
  }

  /** The tags the renderer draws: those of the metatile window grown by SHIFT. */
  function Matched(v: View, mi: int, mj: int, zoom: nat): seq<Tag>
    requires v.Valid() && zoom < ZOOM_LEVELS
  {
    TagsInTile(v, mi, mj, zoom, true).value
  }

  /**
   * The drawing of metatile (mi, mj) given the set of shown names: every
   * matched tag's marker, then the labelled tags' names, and the number of
   * matched tags; or the exception the source raises first. Below the
   * zoom of the last font size and with a nonzero maximum count it cannot
   * fail, and a drawing starts with one marker per matched tag.
   */
  function Draw(v: View, mi: int, mj: int, zoom: nat, shown: set<string>): (r: Result<Render, Error>)
    requires v.Valid()
    ensures r == Err(ZoomOutOfRange) <==> zoom >= ZOOM_LEVELS
    ensures zoom < |FONT_SIZES| && v.maxPostCount != 0 ==> r.Ok?
    ensures r.Ok? ==> zoom < ZOOM_LEVELS && r.value.count == |Matched(v, mi, mj, zoom)| <= |r.value.events|
  {
    if zoom >= ZOOM_LEVELS then Err(ZoomOutOfRange)
    else
      var m := Matched(v, mi, mj, zoom);
      if |m| > 0 && v.maxPostCount == 0 then Err(DivisionByZero)
      else if zoom >= |FONT_SIZES| && exists i :: 0 <= i < |m| && Labelled(zoom, shown, m[i]) then Err(FontOutOfRange)
      else
        MarkersAt(v, mi, mj, zoom, m);
        Ok(Render(Markers(v, mi, mj, zoom, m) + NameTexts(v, mi, mj, zoom, shown, m), |m|))
  }

  /**
   * get_metatile for metatile (mi, mj): the drawing with the neighbour union
   * as the shown names. From ZOOM_TEXT_SHOW on no name is shown.
   */
  function MetatileEvents(v: View, mi: int, mj: int, zoom: nat): (r: Result<Render, Error>)
    requires v.Valid()
    ensures zoom >= ZOOM_TEXT_SHOW ==> r == Draw(v, mi, mj, zoom, {})
    ensures zoom < |FONT_SIZES| && v.maxPostCount != 0 ==> r.Ok?
    ensures r.Err? ==> zoom >= |FONT_SIZES| || v.maxPostCount == 0
  {
    Draw(v, mi, mj, zoom, NeighbourShown(v, mi, mj, zoom))
  }

  /** get_metatile: the neighbour union, then the two drawing loops. */
  method RenderMetatile(v: View, mi: int, mj: int, zoom: nat) returns (r: Result<Render, Error>)
    requires v.Valid()
    ensures r == MetatileEvents(v, mi, mj, zoom)
  {
    if zoom >= ZOOM_LEVELS {
      return Err(ZoomOutOfRange);
    }
    var shown := CollectShownNames(v, mi, mj, zoom);
    r := DrawMetatile(v, mi, mj, zoom, shown);
  }

  /** get_metatile's drawing loops: markers first, then names. */
  method DrawMetatile(v: View, mi: int, mj: int, zoom: nat, shown: set<string>) returns (r: Result<Render, Error>)
    requires v.Valid() && zoom < ZOOM_LEVELS
    ensures r == Draw(v, mi, mj, zoom, shown)
  {
    var matched := Matched(v, mi, mj, zoom);
    var markers := DrawMarkers(v, mi, mj, zoom, matched);
    if markers.Err? {
      return Err(markers.error);
    }
    var names := DrawNames(v, mi, mj, zoom, shown, matched);
    if names.Err? {
      return Err(names.error);
    }
    return Ok(Render(markers.value + names.value, |matched|));
  }

  /** The first drawing loop: a marker per tag, sized by its PostCount measure. */
  method DrawMarkers(v: View, mi: int, mj: int, zoom: nat, matched: seq<Tag>) returns (r: Result<seq<Event>, Error>)
    requires v.Valid() && zoom < ZOOM_LEVELS
    ensures |matched| > 0 && v.maxPostCount == 0 ==> r == Err(DivisionByZero)
    ensures |matched| == 0 || v.maxPostCount != 0 ==> r == Ok(Markers(v, mi, mj, zoom, matched))
  {
    var size := v.tileSize[zoom];
    var corner := Corner(v, mi, mj, zoom);
    var maxCircleRad := zoom;
    var events: seq<Event> := [];
    for i := 0 to |matched|
      invariant i > 0 ==> v.maxPostCount != 0
      invariant events == Markers(v, mi, mj, zoom, matched[..i])
    {
      var tag := matched[i];
      var pnt := ToPixel(Position(tag), corner, size, METATILE_PIXELS);
      var measure := PostcountMeasure(Count(tag), v.maxPostCount);
      if measure.Err? {
        return Err(measure.error);
      }
      var circleRad := Radius(maxCircleRad, measure.value);
      events := events + [Ellipse(pnt, circleRad)];
      assert matched[..i + 1][..i] == matched[..i];
    }
    assert matched[..|matched|] == matched;
    return Ok(events);
  }

  /** The second drawing loop: the labelled tags' names, failing on a zoom level without a font. */
  method DrawNames(v: View, mi: int, mj: int, zoom: nat, shown: set<string>, matched: seq<Tag>) returns (r: Result<seq<Event>, Error>)
    requires v.Valid() && zoom < ZOOM_LEVELS
    ensures r.Err? <==> zoom >= |FONT_SIZES| && exists i :: 0 <= i < |matched| && Labelled(zoom, shown, matched[i])
    ensures r.Err? ==> r.error == FontOutOfRange
    ensures r.Ok? ==> r.value == NameTexts(v, mi, mj, zoom, shown, matched)
  {
    var size := v.tileSize[zoom];
    var corner := Corner(v, mi, mj, zoom);
    var events: seq<Event> := [];
    for i := 0 to |matched|
      invariant zoom >= |FONT_SIZES| ==> forall j :: 0 <= j < i ==> !Labelled(zoom, shown, matched[j])
      invariant events == NameTexts(v, mi, mj, zoom, shown, matched[..i])
    {
      var tag := matched[i];
      var pnt := ToPixel(Position(tag), corner, size, METATILE_PIXELS);
      if zoom >= ZOOM_TEXT_SHOW || tag.name in shown {
        if zoom >= |FONT_SIZES| {
          return Err(FontOutOfRange);
        }
        events := events + [Text(pnt, tag.name, Some(FONT_SIZES[zoom]))];
      }
      assert matched[..i + 1][..i] == matched[..i];
    }
    assert matched[..|matched|] == matched;
    return Ok(events);
  }

  // ---------------------------------------------------------------------------
  // What a drawn metatile satisfies
  // ---------------------------------------------------------------------------

  lemma {:induction false} MarkersAt(v: View, mi: int, mj: int, zoom: nat, m: seq<Tag>)
    requires v.Valid() && zoom < ZOOM_LEVELS && (|m| == 0 || v.maxPostCount != 0)
    ensures |Markers(v, mi, mj, zoom, m)| == |m|
    ensures forall i :: 0 <= i < |m| ==> Markers(v, mi, mj, zoom, m)[i] == Marker(v, mi, mj, zoom, m[i])
  {
    if |m| > 0 {
      MarkersAt(v, mi, mj, zoom, m[..|m| - 1]);
    }
  }

  /** The second pass draws exactly the labelled tags' names and nothing else. */
  lemma {:induction false} NameTextsAre(v: View, mi: int, mj: int, zoom: nat, shown: set<string>, m: seq<Tag>)
    requires v.Valid() && zoom < |FONT_SIZES|
    ensures forall e :: e in NameTexts(v, mi, mj, zoom, shown, m) ==>
      exists i :: 0 <= i < |m| && Labelled(zoom, shown, m[i]) && e == Label(v, mi, mj, zoom, m[i])
    ensures forall i :: 0 <= i < |m| && Labelled(zoom, shown, m[i]) ==> Label(v, mi, mj, zoom, m[i]) in NameTexts(v, mi, mj, zoom, shown, m)
  {
    if |m| > 0 {
      var front := m[..|m| - 1];
      NameTextsAre(v, mi, mj, zoom, shown, front);
      assert forall i :: 0 <= i < |front| ==> front[i] == m[i];
    }
  }

  /** The exceptions get_metatile raises, and when it succeeds. */
  lemma DrawErrors(v: View, mi: int, mj: int, zoom: nat, shown: set<string>)
    requires v.Valid()
    ensures Draw(v, mi, mj, zoom, shown) == Err(ZoomOutOfRange) <==> zoom >= ZOOM_LEVELS
    ensures zoom < ZOOM_LEVELS ==>
      (Draw(v, mi, mj, zoom, shown) == Err(DivisionByZero) <==> |Matched(v, mi, mj, zoom)| > 0 && v.maxPostCount == 0)
    ensures zoom < ZOOM_LEVELS && v.maxPostCount != 0 ==>
      (Draw(v, mi, mj, zoom, shown) == Err(FontOutOfRange) <==> zoom >= |FONT_SIZES| && |Matched(v, mi, mj, zoom)| > 0)
    ensures zoom < |FONT_SIZES| && v.maxPostCount != 0 ==> Draw(v, mi, mj, zoom, shown).Ok?
  {
    if zoom < ZOOM_LEVELS && zoom >= |FONT_SIZES| && |Matched(v, mi, mj, zoom)| > 0 {
      assert Labelled(zoom, shown, Matched(v, mi, mj, zoom)[0]);
    }
  }

  /**
   * A drawn metatile has all markers before any name: the first count events
   * are the matched tags' circles in order, each of radius
   * max(0.5, zoom * PostCount / max_post_count) >= 0.5, and the rest are
   * names.
   */
  lemma DrawOrder(v: View, mi: int, mj: int, zoom: nat, shown: set<string>)
    requires v.Valid() && Draw(v, mi, mj, zoom, shown).Ok?
    ensures zoom < ZOOM_LEVELS
    ensures var r := Draw(v, mi, mj, zoom, shown).value;
      var m := Matched(v, mi, mj, zoom);
      r.count == |m| && r.count <= |r.events| &&
      (forall i :: 0 <= i < r.count ==>
         r.events[i] == Marker(v, mi, mj, zoom, m[i]) && r.events[i].radius >= 0.5) &&
      (forall i :: r.count <= i < |r.events| ==> r.events[i].Text?)
  {
    var m := Matched(v, mi, mj, zoom);
    MarkersAt(v, mi, mj, zoom, m);
    if |m| > 0 {
      var r := Draw(v, mi, mj, zoom, shown).value;
      var labels := NameTexts(v, mi, mj, zoom, shown, m);
      assert zoom < |FONT_SIZES|;
      NameTextsAre(v, mi, mj, zoom, shown, m);
      forall i | r.count <= i < |r.events| ensures r.events[i].Text? {
        assert r.events[i] == labels[i - r.count];
        assert labels[i - r.count] in labels;
      }
    }
  }

  /**
   * A matched tag's name is drawn exactly when it is labelled (zoom >=
   * ZOOM_TEXT_SHOW or the name is shown), and every drawn name is such a
   * tag's.
   */
  lemma DrawLabels(v: View, mi: int, mj: int, zoom: nat, shown: set<string>)
    requires v.Valid() && Draw(v, mi, mj, zoom, shown).Ok? && |Matched(v, mi, mj, zoom)| > 0
    ensures zoom < |FONT_SIZES|
    ensures var r := Draw(v, mi, mj, zoom, shown).value;
      var m := Matched(v, mi, mj, zoom);
      r.count <= |r.events| &&
      (forall i :: 0 <= i < |m| ==> (Label(v, mi, mj, zoom, m[i]) in r.events[r.count..] <==> Labelled(zoom, shown, m[i]))) &&
      (forall e :: e in r.events[r.count..] ==>
        exists i :: 0 <= i < |m| && Labelled(zoom, shown, m[i]) && e == Label(v, mi, mj, zoom, m[i]))
  {
    var m := Matched(v, mi, mj, zoom);
    assert zoom < |FONT_SIZES|;
    var r := Draw(v, mi, mj, zoom, shown).value;
    MarkersAt(v, mi, mj, zoom, m);
    var labels := NameTexts(v, mi, mj, zoom, shown, m);
    assert r.events[r.count..] == labels;
    NameTextsAre(v, mi, mj, zoom, shown, m);
    forall i | 0 <= i < |m| && Label(v, mi, mj, zoom, m[i]) in labels
      ensures Labelled(zoom, shown, m[i])
    {
      var j :| 0 <= j < |m| && Labelled(zoom, shown, m[j]) && Label(v, mi, mj, zoom, m[i]) == Label(v, mi, mj, zoom, m[j]);
      assert m[i].name == m[j].name;
    }
  }

  /** Tags inside the unshifted metatile are exactly the indexed tags drawn inside its canvas. */
  lemma MetatilePixelsInside(v: View, mi: int, mj: int, zoom: nat, t: Tag)
    requires v.Valid() && zoom < ZOOM_LEVELS
    ensures t in TagsInTile(v, mi, mj, zoom, false).value <==>
      t in v.index &&
      (var p := PixelOf(v, mi, mj, zoom, t);
       0.0 <= p.x <= METATILE_PIXELS && 0.0 <= p.y <= METATILE_PIXELS)
  {
    TagsInTileMembers(v, mi, mj, zoom, false, t);
    PixelInsideWindow(t, Corner(v, mi, mj, zoom), v.tileSize[zoom], METATILE_PIXELS);
  }
}
