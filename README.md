# StackOverflow Map tile pyramid, in Dafny

This project models how StackOverflow Map renders its tile pyramid. Each
StackOverflow tag has a 2-D position from the t-SNE embedding, a name and a
PostCount. The map of those tags is cut into a slippy-map pyramid: zoom level
`z` has `2^z x 2^z` square tiles, each saved as `x_y_z.png`.

Three renderers are modelled:

- **The metatile renderer of `src/visualization/get_tiling.py`.**
  - Class `Tiler` pads the tags' bounding box by `SHIFT` to build the map
    extent. It builds a spatial index over the tags and fills in missing
    PostCounts with `-1`.
  - It draws 8 x 8 tiles at a time into one "metatile" image, then crops
    the image into tiles.
  - Each tag gets a circle whose radius grows with its PostCount. Names are
    drawn after all circles.
  - Below zoom 7, each metatile selects at most 10 names: those of its
    highest-ranked tags with a positive PostCount. A metatile draws the
    names of those of its matched tags whose name is in the union of its
    3 x 3 neighbourhood's selections. From zoom 7 on, every matched tag's
    name is drawn.
  - `main` renders every zoom level from 0 up to the requested one, and
    nothing when that is negative. The first metatile that raises ends
    `main`; the tiles of the metatiles before it have been written.
- **`LightTiler` of `src/visualization/tiler/lighttiler.py`.** It overrides
  the font table, the PostCount measure, the name selector and the metatile
  renderer of its base class with the same logic.
- **The earlier `Tiler` of `frontend/get_tiling.py`.** It draws one 255-pixel
  tile at a time and writes each tile with a one-pixel black border.

Files:

| file | contents |
|---|---|
| `wrappers.dfy` | `Option` and `Result` |
| `geometry.dfy` | the shared vocabulary (below) |
| `labels.dfy` | Python's ordering on `(PostCount, name)` tuples, and the top-10 name selector |
| `grid.dfy` | tile ids, the grid of a zoom level, and decimal tile file names |
| `metatile.dfy` | the metatile renderer as specification functions, with the loop methods that implement them |
| `vis_tiler.dfy` | the class `Tiler`, `render_tiles` and `main` of `get_tiling.py` |
| `light_tiler.dfy` | the class `LightTiler` |
| `frontend.dfy` | the earlier per-tile renderer and its `main` |

`geometry.dfy` holds:

- tags;
- the spatial index, as a filter by closed rectangle;
- the world-to-pixel transform;
- the padded extent and the normalised positions;
- the draw events.

A drawing is modelled as the sequence of draw events it issues, in order:
an ellipse with its centre and radius, or a text with its position, string and
font size. Pixels themselves are not modelled.

Raised exceptions are `Err` results of `Result`:

- `max()` over no tags;
- a tag without a PostCount attribute, whose measure is asked for;
- a zoom level past the 20-entry `tile_size` table;
- a zoom level past the 9-entry font table;
- a zero largest PostCount.

## Model

| member | source | states |
|---|---|---|
| Geometry.Query | src/visualization/get_tiling.py:153-157 | the index query returns no more tags than the index holds (QueryIsFilter states which) |
| Geometry.QueryIsFilter | src/visualization/get_tiling.py:154-157 | the index query returns exactly the indexed tags inside the closed window, each with its multiplicity in the index |
| Geometry.QueryMonotone | src/visualization/get_tiling.py:153-157 | a query over a window contained in another returns a sub-multiset of the larger query |
| Geometry.QueryWindowGrows | src/visualization/get_tiling.py:153-157 | growing a window by a non-negative SHIFT only adds matched tags |
| Geometry.ToPixel | src/visualization/get_tiling.py:209-217 | the world-to-pixel transform of the drawing loops: the window corner maps to pixel (0, 0) and the opposite corner to (scale, scale) |
| Geometry.PixelLinear | src/visualization/get_tiling.py:209-217 | pixel differences are world differences scaled by scale / size |
| Geometry.PixelInsideWindow | src/visualization/get_tiling.py:209-217 | a tag lies in the unshifted window exactly when its pixel lies in [0, scale] on both axes |
| Geometry.ComputeExtent | src/visualization/get_tiling.py:92-101 | the extent fails with EmptyTagList exactly on an empty tag list |
| Geometry.ExtentBounds | src/visualization/get_tiling.py:92-101 | every tag lies at least SHIFT inside the box; each side of the box is attained by a tag; map_size is the larger of width and height |
| Geometry.MinMaxBound | src/visualization/get_tiling.py:93-97 | min and max of a non-empty sequence are members of it and bound all its entries |
| Geometry.MapSizeAtLeastTwoShifts | src/visualization/get_tiling.py:93-101 | map_size is at least 2 * SHIFT, hence positive |
| Geometry.NormPosInUnit | src/visualization/get_tiling.py:105-110 | every tag's normalised position lies in [SHIFT/map_size, 1 - SHIFT/map_size] on both axes |
| Geometry.NormposMap | src/visualization/get_tiling.py:105-110 | the dictionary filled in list order: the last tag's name maps to that tag's normalised position |
| Geometry.NormposMapKeys | src/visualization/get_tiling.py:105-110 | the name-to-position dictionary has a key exactly for each tag name |
| Geometry.NormposMapLast | src/visualization/get_tiling.py:105-110 | a duplicated name maps to the position of its last occurrence |
| Geometry.NormposMapInUnit | src/visualization/get_tiling.py:105-110 | every stored normalised position lies in the unit square |
| Labels.RankLessTotal | src/visualization/get_tiling.py:174 | Python's tuple order on (PostCount, name) is total on distinct pairs |
| Labels.RankLessTransitive | src/visualization/get_tiling.py:174 | the tuple order is transitive |
| Labels.InsertPermutes | src/visualization/get_tiling.py:174 | inserting into the sorted list adds exactly the inserted pair |
| Labels.SortDescPermutes | src/visualization/get_tiling.py:174-175 | sorting only reorders the pairs |
| Labels.SortDescSorted | src/visualization/get_tiling.py:174-175 | the sorted list is in descending tuple order |
| Labels.SortedUnique | src/visualization/get_tiling.py:174-175 | two descending lists of the same pairs are equal, so the order the index returns does not matter |
| Labels.TopK | src/visualization/get_tiling.py:175 | nlargest returns min(k, n) of the pairs |
| Labels.TopKDominates | src/visualization/get_tiling.py:175 | no pair left out of the top k ranks above a pair kept in it |
| Labels.PositiveNamesMembers | src/visualization/get_tiling.py:176 | a name is kept exactly when some top pair with that name has a positive PostCount |
| Labels.SelectNames | src/visualization/get_tiling.py:174-176 | at most k names are selected |
| Labels.SelectNamesBounds | src/visualization/get_tiling.py:174-176 | every selected name belongs to a pair with a positive PostCount |
| Labels.SelectNamesIsTopK | src/visualization/get_tiling.py:174-176 | a positive pair whose name is not selected is outranked by each of k selected pairs |
| Labels.SelectNamesOrderIndependent | src/visualization/get_tiling.py:172-176 | the selected names depend only on the multiset of pairs |
| Grid.TileName | src/visualization/get_tiling.py:269 | the file name ends in ".png" and has at least three digits and two separators before it |
| Grid.DecimalRoundTrip | src/visualization/get_tiling.py:269 | reading back the decimal digits of n gives n |
| Grid.TileNameInjective | src/visualization/get_tiling.py:269 | distinct tiles get distinct file names x_y_z.png |
| Grid.SavedNamesDistinct | src/visualization/get_tiling.py:269 | a list of distinct tiles writes no file twice |
| Metatile.TileSizes | src/visualization/get_tiling.py:103 | tile_size has one metatile side per zoom level 0 .. 19 |
| Metatile.TileSizesHalve | src/visualization/get_tiling.py:103 | tile_size[0] is 8 * map_size, and each zoom level halves the metatile side |
| Metatile.TileSizesPositive | src/visualization/get_tiling.py:103 | every metatile side is positive when map_size is |
| Metatile.TagsInTile | src/visualization/get_tiling.py:148-159 | the query fails with ZoomOutOfRange exactly when the zoom is past the tile_size table |
| Metatile.TagsInTileMembers | src/visualization/get_tiling.py:148-159 | the tags returned are exactly the indexed tags in the metatile square, grown by SHIFT when with_shift is set |
| Metatile.ShiftedQueryContainsUnshifted | src/visualization/get_tiling.py:153-159 | the shifted query returns every tag the unshifted one does |
| Metatile.RanksPermutation | src/visualization/get_tiling.py:174 | reordered tags give reordered (PostCount, name) pairs |
| Metatile.ShownNames | src/visualization/get_tiling.py:162-176 | no names from zoom 7 on; at most 10 names below it |
| Metatile.ShownNamesFromMetatile | src/visualization/get_tiling.py:172-176 | every shown name is that of a tag inside the unshifted metatile with a positive PostCount |
| Metatile.ShownNamesAreTopRanked | src/visualization/get_tiling.py:174-176 | a positive tag whose name is not shown is outranked by 10 selected pairs |
| Metatile.ShownNamesOrderIndependent | src/visualization/get_tiling.py:172-176 | any order of the index's results selects the same names |
| Metatile.NeighbourShownIsUnion | src/visualization/get_tiling.py:200-203 | a name is in the pooled set exactly when one of the 3 x 3 neighbouring metatiles selects it |
| Metatile.NeighbourShownHasCentre | src/visualization/get_tiling.py:200-203 | the metatile's own selection is part of the pooled set |
| Metatile.NeighbourShown | src/visualization/get_tiling.py:200-203 | names_of_shown_tags: the union of the 3 x 3 neighbourhood's selections, at most 90 names, and empty from zoom 7 on |
| Metatile.CollectShownNames | src/visualization/get_tiling.py:200-203 | the nested dx/dy loop computes the pooled union |
| Metatile.PostcountMeasure | src/visualization/get_tiling.py:142-145 | fails with DivisionByZero exactly when the largest PostCount is 0; otherwise measure * max equals the PostCount |
| Metatile.TagMeasure | src/visualization/get_tiling.py:142-145 | fails exactly on a tag without PostCount or a zero maximum, with MissingPostCount for the first and DivisionByZero for the second; otherwise measure * max equals the PostCount |
| Metatile.Radius | src/visualization/get_tiling.py:225 | the radius is max(0.5, zoom * measure): at least both, and equal to one of them |
| Metatile.RadiusMonotoneSaturating | src/visualization/get_tiling.py:224-225 | a larger PostCount never draws a smaller circle, and no circle exceeds max(zoom, 0.5) |
| Metatile.Draw | src/visualization/get_tiling.py:187-243 | ZoomOutOfRange exactly past the tile_size table; no error below zoom 9 with a non-zero maximum; a drawing counts its matched tags, and holds at least that many events |
| Metatile.MetatileEvents | src/visualization/get_tiling.py:179-243 | get_metatile's result: from zoom 7 on it is the drawing with no pooled names; it fails only at zoom 9 or above, or with a zero maximum |
| Metatile.RenderMetatile | src/visualization/get_tiling.py:179-243 | get_metatile issues exactly the draw events of the metatile specification, or its error |
| Metatile.DrawMetatile | src/visualization/get_tiling.py:206-243 | the two drawing loops issue the specified events, or the first error they meet |
| Metatile.DrawMarkers | src/visualization/get_tiling.py:220-231 | one marker per matched tag in order, or DivisionByZero when a tag is matched and the largest PostCount is 0 |
| Metatile.DrawNames | src/visualization/get_tiling.py:235-239 | the labelled tags' names in order; FontOutOfRange exactly when a name is due at a zoom with no font |
| Metatile.MarkersAt | src/visualization/get_tiling.py:220-231 | marker i is the circle of matched tag i |
| Metatile.NameTextsAre | src/visualization/get_tiling.py:235-239 | the name pass draws a tag's name exactly when the tag is labelled, and draws nothing else |
| Metatile.DrawErrors | src/visualization/get_tiling.py:194-239 | which error a metatile raises, in each case, and success below zoom 9 with a non-zero maximum |
| Metatile.DrawOrder | src/visualization/get_tiling.py:220-243 | all circles are drawn before any text; cnt_points is the number of matched tags; every radius is at least 0.5 |
| Metatile.DrawLabels | src/visualization/get_tiling.py:233-239 | a label follows the circles exactly for each tag whose name is shown, and the texts are nothing but such labels |
| Metatile.MetatilePixelsInside | src/visualization/get_tiling.py:206-217 | a tag is in the unshifted metatile exactly when its pixel falls inside the 2048-pixel image |
| VisTiler.WithPostCount | src/visualization/get_tiling.py:122 | the attribute is filled in (with -1 when missing) and nothing else changes |
| VisTiler.WithPostCountIdempotent | src/visualization/get_tiling.py:120-122 | filling PostCount in twice is the same as once |
| VisTiler.Recount | src/visualization/get_tiling.py:120-122 | every index entry that is one of the tags gets its PostCount filled in; other entries are unchanged |
| VisTiler.MaxCount | src/visualization/get_tiling.py:123 | max_post_count is attained by a tag and bounds every tag's PostCount |
| VisTiler.NormalisedPositions | src/visualization/get_tiling.py:105-110 | the loop builds the name-to-normalised-position dictionary |
| VisTiler.Tiler.constructor | src/visualization/get_tiling.py:131-135 | the Tiler built from a non-empty tag list is valid and keeps the tags |
| VisTiler.Tiler.SetExtent | src/visualization/get_tiling.py:92-110 | sets the padded box, the origin, map_size, tile_size and the dictionary; nothing else changes |
| VisTiler.Tiler.SetBbox | src/visualization/get_tiling.py:113-117 | the index box is the padded box and the index holds the tags; nothing else changes |
| VisTiler.Tiler.SetPostcount | src/visualization/get_tiling.py:120-123 | the indexed tags get their PostCount filled in, and max_post_count is the largest one; nothing else changes |
| VisTiler.Tiler.SetFonts | src/visualization/get_tiling.py:126-128 | nine fonts, zoom z getting size 25 - 2z; nothing else changes |
| VisTiler.Tiler.ViewIsBuilt | src/visualization/get_tiling.py:131-135 | a valid Tiler's renderer state is the one built from its tags |
| VisTiler.Tiler.SearchFindsTags | src/visualization/get_tiling.py:138-139 | a name is found exactly when some tag has it; the result lies in the unit square and belongs to that name's last tag |
| VisTiler.Tiler.GetPostcountMeasure | src/visualization/get_tiling.py:142-145 | fails exactly on a missing PostCount or a zero maximum, naming which; otherwise measure * max equals the PostCount |
| VisTiler.Tiler.IndexedMeasure | src/visualization/get_tiling.py:142-145 | every indexed tag has a PostCount, so its measure is the renderer's |
| VisTiler.Tiler.GetTagsInTile | src/visualization/get_tiling.py:148-159 | fails exactly past the tile_size table; otherwise returns indexed tags only |
| VisTiler.Tiler.GetNamesOfShownTags | src/visualization/get_tiling.py:162-176 | no names from zoom 7 on, and at most 10 below it |
| VisTiler.Tiler.GetMetatile | src/visualization/get_tiling.py:179-243 | on a Tiler built by its constructor (every indexed tag has its PostCount), the draw events of metatile (meta_x / 8, meta_y / 8), or its error |
| VisTiler.TilerIndexCoversTags | src/visualization/get_tiling.py:113-117 | every tag is indexed and lies SHIFT inside the index box |
| VisTiler.BuiltView | src/visualization/get_tiling.py:131-135 | the built state is valid, its index holds the tags with PostCounts filled in, and it keeps their maximum |
| VisTiler.RenderTiles | src/visualization/get_tiling.py:258-280 | saves exactly the tiles of the metatile's 8 x 8 block inside the grid, each once, each cropped from its own 256-pixel square |
| VisTiler.SaveBlock | src/visualization/get_tiling.py:296-301 | after a metatile, the saved tiles are exactly those of the blocks visited so far, each once |
| VisTiler.Generate | src/visualization/get_tiling.py:283-304 | fails with EmptyTagList exactly on empty data; a negative max_tile_zoom writes nothing; without an exception every tile of zooms 0 .. max_tile_zoom is written exactly once, from its own metatile; with one, the raising metatile is named with its error, and exactly the tiles of the metatiles before it are written; below zoom 9 with a non-zero maximum nothing raises |
| VisTiler.RenderPyramid | src/visualization/get_tiling.py:296-304 | the three nested loops write every tile up to max_tile_zoom once, nothing for a negative one, or stop at the first metatile that raises, keeping the tiles before it |
| VisTiler.RenderLevel | src/visualization/get_tiling.py:298-301 | one zoom level extends the written tiles by every tile of that level, or stops at the first metatile of the level that raises, keeping the tiles before it |
| VisTiler.RenderColumn | src/visualization/get_tiling.py:299-301 | one column of metatiles extends the written tiles by that column, or stops at the metatile of that column that raises, keeping the tiles above it |
| VisTiler.VisitMetatile | src/visualization/get_tiling.py:300-301 | a metatile that draws has its tiles written after the earlier ones; one that raises writes nothing, is where the run fails, and raises only at zoom 9 or above, or with a zero maximum |
| VisTiler.SaveMetatile | src/visualization/get_tiling.py:300-301 | the tiles of a metatile that drew are written after the earlier ones, moving the progress one metatile down the column |
| VisTiler.EarlierMetatilesDrew | src/visualization/get_tiling.py:296-301 | every metatile before the one main has reached drew without an exception, so the recorded failure is the first in level, column, row order |
| VisTiler.MetatileFailure | src/visualization/get_tiling.py:300 | a metatile that raises names the failure of the run, and raises only at zoom 9 or above, or with a zero maximum |
| VisTiler.CropMatchesTile | src/visualization/get_tiling.py:271-272 | a tile's crop box is the pixel image of the tile's own world square in its metatile's drawing |
| VisTiler.BoundaryPixel | src/visualization/get_tiling.py:271-272 | tile boundary (x + k, y + k) lies ((x mod 8 + k) * 256, (y mod 8 + k) * 256) pixels into the metatile image |
| LightTiling.LightTiler.constructor | src/visualization/tiler/lighttiler.py:18-20 | the base state is built from the tags, and the fonts are this class's |
| LightTiling.LightTiler.SetFonts | src/visualization/tiler/lighttiler.py:14-16 | nine fonts, zoom z getting size 25 - 2z; nothing else changes |
| LightTiling.LightTiler.GetPostcountMeasure | src/visualization/tiler/lighttiler.py:23-26 | fails exactly on a missing PostCount or a zero maximum; otherwise measure * max equals the PostCount |
| LightTiling.LightTiler.GetNamesOfShownTags | src/visualization/tiler/lighttiler.py:29-43 | no names from zoom 7 on; at most 10 names, each of a tag in the metatile with a positive PostCount |
| LightTiling.LightTiler.GetMetatile | src/visualization/tiler/lighttiler.py:45-107 | the draw events of the metatile, or its error |
| LightTiling.SameAsTiler | src/visualization/tiler/lighttiler.py:29-107 | built from the same tags, the LightTiler draws every metatile and selects every name as the Tiler does |
| LightTiling.IndexedMeasureAgrees | src/visualization/tiler/lighttiler.py:23-26 | an indexed tag's measure is the renderer's, and it succeeds exactly when the maximum is non-zero |
| Frontend.BuiltFrame | frontend/get_tiling.py:35-49 | the map side is at least 2 * SHIFT, and the index holds the tags |
| Frontend.TileSideHalves | frontend/get_tiling.py:59 | zoom 0 covers the map, and each zoom level halves the tile side |
| Frontend.TilePixelFrame | frontend/get_tiling.py:59-77 | a tile's corners map to pixels (0, 0) and (255, 255) |
| Frontend.TileTagsWindow | frontend/get_tiling.py:65-77 | the matched tags are those in the tile grown by SHIFT; a tag in the tile itself is matched and drawn inside the image |
| Frontend.TileEvents | frontend/get_tiling.py:52-86 | a tile's events: one per matched tag below zoom 7, two from zoom 7 on |
| Frontend.EventsLength | frontend/get_tiling.py:71-84 | one event per matched tag below zoom 7, and two from zoom 7 on |
| Frontend.EventsLayout | frontend/get_tiling.py:71-84 | from zoom 7 on each tag draws its name and then its circle of radius zoom / 2; below zoom 7 only the circle |
| Frontend.Tiler.constructor | frontend/get_tiling.py:35-49 | the Tiler built from a non-empty tag list is valid and keeps the tags |
| Frontend.Tiler.FrameIsBuilt | frontend/get_tiling.py:35-49 | a valid Tiler's state is the frame built from its tags |
| Frontend.IndexCoversTags | frontend/get_tiling.py:42-45 | every tag is indexed and lies SHIFT inside the index box |
| Frontend.Tiler.GetTile | frontend/get_tiling.py:52-86 | the loop issues exactly the tile's specified events, and cnt_points is the number of matched tags |
| Frontend.SaveOne | frontend/get_tiling.py:93-97 | saving one more tile keeps every tile of the traversal so far saved exactly once, with its own events and file |
| Frontend.Generate | frontend/get_tiling.py:89-104 | fails exactly on empty data; otherwise every tile of zooms below max_tile_size is saved exactly once, under './tiles/x_y_z.png', with its own events; without a command-line argument exactly the tiles of zooms 0 .. 7 are saved, and a non-positive argument saves nothing |
| Frontend.SavePyramid | frontend/get_tiling.py:99-104 | the nested loops save every tile of zooms below the level count once, with its own events |
| Frontend.SaveColumn | frontend/get_tiling.py:101-104 | one column of tiles extends the saved tiles by that column |

## Left out

- Image content is not modelled: PIL image creation, rasterisation, anti-aliasing, resizing, the `ImageOps.expand` border and PNG encoding. A drawing is its sequence of draw events, and a saved tile is its crop box.
- File system effects are not modelled: `get_tile_dir`, `prepare_tile_dir` and the `os.path.join` of the tile directory.
- Input is not modelled: CSV/TSV reading (`get_tags_data`) and the `Tag` objects' `__dict__` attribute copying. Tags arrive as values; a missing PostCount column is `None`.
- The command line is not modelled. `sys.argv` becomes parameters (`maxZoom` for `get_tiling.py`, `arg: Option<int>` for the frontend). Progress printing is left out.
- Concurrency is not modelled. `get_tiling.py` hands each `render_tiles` call to a `ThreadPoolExecutor`; the model runs them in submission order, and a call submitted before an exception ends `main` still writes its tiles. `frontend/get_tiling.py` imports `multiprocessing.Pool` but never uses it: its `main` saves tiles one at a time in a plain loop, as modelled.
- Floating point is not modelled. Coordinates and measures are exact reals, so rounding at tile boundaries is not captured.
- pyqtree is modelled as an exact filter by closed rectangle that returns indexed tags in insertion order. Its internal quadtree and its own result order are not modelled. The name selection is proved independent of that order (`Metatile.ShownNamesOrderIndependent`); the drawing order of the events assumes it.
- Tags are values. `set_postcount` changes the shared tag objects in place; here it is a rewrite of the index, and aliasing between the tag list and the index is not captured.
- `tiler.tiler`, the base class `LightTiler` imports, is not part of this model. `LightTiler` is built on the state that `get_tiling.py`'s `Tiler` builds. The model assumes the base `__init__` calls `set_fonts`, which is why the override's own call can stay commented out at `lighttiler.py:20`.
- VisTiler.Tiler.GetMetatile: requires `meta_x` and `meta_y` to be multiples of 8. The source divides them by 8 as floats; `main` only passes multiples of 8.
- LightTiling.LightTiler.GetMetatile: requires `meta_x` and `meta_y` to be multiples of 8, as for the base class.
- VisTiler.Tiler.constructor: requires a non-empty tag list. On empty data `max()` raises ValueError, which `VisTiler.Generate` returns as `EmptyTagList`.
- LightTiling.LightTiler.constructor: requires a non-empty tag list, for the same reason.
- Frontend.Tiler.constructor: requires a non-empty tag list. The empty case is `Frontend.Generate`'s `EmptyTagList`.
- The `src/use_bhtsne` embedding code (C++/OpenMP) and `frontend/http_cors_server.py` are outside the tile renderer and are not modelled.
- The loops of `main` are written as six methods (`RenderPyramid`, `RenderLevel`, `RenderColumn`, `VisitMetatile`, `SaveMetatile`, `RenderTiles`). This shortens the proofs; the loop order is unchanged.
- The font table has 9 entries while `tile_size` has 20. From zoom 7 on every matched tag's name is drawn, so at zooms 9 to 19 any metatile that matches a tag, with a non-zero maximum, raises `FontOutOfRange`; from zoom 20 on `ZoomOutOfRange` is raised first. This is the source's behaviour, and the model keeps it (`Metatile.DrawErrors`).
