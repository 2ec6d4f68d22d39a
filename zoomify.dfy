/**
 * The OpenSeadragon tile source for Zoomify pyramids: the tiers obtained by
 * halving the image until it fits one tile, the tile counts per tier and their
 * running totals, the descriptor test, the service URL taken from a descriptor
 * URL, and the URL of one tile.
 */
module Zoomify {
  import opened Wrappers
  import opened Exceptions
  import opened Strings
  import Tileset

  /** `OpenSeadragon.Point`, with integer coordinates. */
  datatype Point = Point(x: int, y: int)

  const DefaultTileSize: int := 256
  /** Zoomify stores its tiles in directories of 256 files each. */
  const TilesPerGroup: int := 256
  const RequiredMessage: string := "width, height, and tilesUrl parameters are required."

  /** `Math.ceil(a / b)` for a positive divisor. */
  function CeilDiv(a: int, b: int): (r: int)
    requires b > 0
    ensures b * (r - 1) < a <= b * r
  {
    var q := (-a) / b;
    assert -a == b * q + (-a) % b;
    -q
  }

  /** `new Point(Math.floor(x / 2), Math.floor(y / 2))`. */
  function Half(p: Point): Point {
    Point(p.x / 2, p.y / 2)
  }

  /** The loop condition of the constructor: the tier does not fit in one tile. */
  predicate Exceeds(p: Point, tileSize: int) {
    p.x > tileSize || p.y > tileSize
  }

  /** The tile grid that covers a tier, `ceil` in each axis. */
  function TilesOf(p: Point, tileSize: int): (r: Point)
    requires tileSize > 0
    ensures tileSize * (r.x - 1) < p.x <= tileSize * r.x
    ensures tileSize * (r.y - 1) < p.y <= tileSize * r.y
  {
    Point(CeilDiv(p.x, tileSize), CeilDiv(p.y, tileSize))
  }

  function Magnitude(p: Point): nat {
    (if p.x > 0 then p.x else 0) + (if p.y > 0 then p.y else 0)
  }

  /** Halving a tier that does not fit one tile makes it strictly smaller. */
  lemma HalfShrinks(p: Point, tileSize: int)
    requires tileSize > 0 && Exceeds(p, tileSize)
    ensures Magnitude(Half(p)) < Magnitude(p)
  {
  }

  /** The tier sizes in the order the constructor's loop produces them: the full image first. */
  function Tiers(p: Point, tileSize: int): (r: seq<Point>)
    requires tileSize > 0
    ensures |r| >= 1 && r[0] == p
    decreases Magnitude(p)
  {
    if Exceeds(p, tileSize) then
      HalfShrinks(p, tileSize);
      [p] + Tiers(Half(p), tileSize)
    else [p]
  }

  /** `Array.prototype.reverse`, as a value. */
  function Reversed<T>(s: seq<T>): (r: seq<T>)
    ensures |r| == |s|
    ensures forall i :: 0 <= i < |s| ==> r[i] == s[|s| - 1 - i]
  {
    if s == [] then [] else Reversed(s[1..]) + [s[0]]
  }

  /** Every tier but the last exceeds one tile, and the next is its floor-half. */
  lemma {:induction false} TiersHalve(p: Point, tileSize: int, i: nat)
    requires tileSize > 0 && i + 1 < |Tiers(p, tileSize)|
    ensures Exceeds(Tiers(p, tileSize)[i], tileSize)
    ensures Tiers(p, tileSize)[i + 1] == Half(Tiers(p, tileSize)[i])
    decreases i
  {
    if i > 0 {
      TiersHalve(Half(p), tileSize, i - 1);
    }
  }

  /** The last tier the loop produces fits in one tile. */
  lemma {:induction false} TiersEndSmall(p: Point, tileSize: int)
    requires tileSize > 0
    ensures !Exceeds(Tiers(p, tileSize)[|Tiers(p, tileSize)| - 1], tileSize)
    decreases Magnitude(p)
  {
    if Exceeds(p, tileSize) {
      HalfShrinks(p, tileSize);
      TiersEndSmall(Half(p), tileSize);
    }
  }

  /** In level order, level 0 fits in one tile and the top level is the full image. */
  lemma PyramidEnds(p: Point, tileSize: int)
    requires tileSize > 0
    ensures var r := Reversed(Tiers(p, tileSize));
      !Exceeds(r[0], tileSize) && r[|r| - 1] == p
  {
    TiersEndSmall(p, tileSize);
  }

  /** In level order, each level is the floor-half of the one above it, which did not fit in one tile. */
  lemma PyramidStep(p: Point, tileSize: int, i: nat)
    requires tileSize > 0 && i + 1 < |Tiers(p, tileSize)|
    ensures var r := Reversed(Tiers(p, tileSize));
      r[i] == Half(r[i + 1]) && Exceeds(r[i + 1], tileSize)
  {
    TiersHalve(p, tileSize, |Tiers(p, tileSize)| - 2 - i);
  }

  /** Tiers of an image with non-negative sides have non-negative sides, growing level by level. */
  lemma PyramidGrows(p: Point, tileSize: int, i: nat)
    requires tileSize > 0 && p.x >= 0 && p.y >= 0
    requires i + 1 < |Tiers(p, tileSize)|
    ensures var r := Reversed(Tiers(p, tileSize));
      0 <= r[i].x <= r[i + 1].x && 0 <= r[i].y <= r[i + 1].y
  {
    var t := Tiers(p, tileSize);
    TiersNonNegative(p, tileSize);
    PyramidStep(p, tileSize, i);
    assert t[|t| - 1 - (i + 1)].x >= 0 && t[|t| - 1 - (i + 1)].y >= 0;
  }

  /** Halving keeps the sides of a tier non-negative. */
  lemma {:induction false} TiersNonNegative(p: Point, tileSize: int)
    requires tileSize > 0 && p.x >= 0 && p.y >= 0
    ensures forall i :: 0 <= i < |Tiers(p, tileSize)| ==> Tiers(p, tileSize)[i].x >= 0 && Tiers(p, tileSize)[i].y >= 0
    decreases Magnitude(p)
  {
    if Exceeds(p, tileSize) {
      HalfShrinks(p, tileSize);
      TiersNonNegative(Half(p), tileSize);
    }
  }

  function Area(p: Point): int {
    p.x * p.y
  }

  /** The number of tiles in the given tiers. */
  function AreaSum(tiles: seq<Point>): int {
    if tiles == [] then 0 else Area(tiles[0]) + AreaSum(tiles[1..])
  }

  /** Adding a tier at the end adds its tiles to the total. */
  lemma {:induction false} AreaSumSnoc(tiles: seq<Point>, p: Point)
    ensures AreaSum(tiles + [p]) == AreaSum(tiles) + Area(p)
  {
    if tiles != [] {
      assert (tiles + [p])[1..] == tiles[1..] + [p];
      AreaSumSnoc(tiles[1..], p);
    }
  }

  predicate NonNegative(tiles: seq<Point>) {
    forall i :: 0 <= i < |tiles| ==> tiles[i].x >= 0 && tiles[i].y >= 0
  }

  /** With non-negative grids, the running total of tiles never decreases. */
  lemma {:induction false} AreaSumMonotone(tiles: seq<Point>, i: nat, j: nat)
    requires NonNegative(tiles) && i <= j <= |tiles|
    ensures AreaSum(tiles[..i]) <= AreaSum(tiles[..j])
    decreases j - i
  {
    if i < j {
      AreaSumMonotone(tiles, i, j - 1);
      assert tiles[..j] == tiles[..j - 1] + [tiles[j - 1]];
      AreaSumSnoc(tiles[..j - 1], tiles[j - 1]);
      assert Area(tiles[j - 1]) >= 0;
    }
  }

  /** The tile `(x, y)` lies on the grid of level `level`. */
  predicate InTier(tiles: seq<Point>, level: nat, x: int, y: int) {
    level < |tiles| && 0 <= x < tiles[level].x && 0 <= y < tiles[level].y
  }

  /** The tile number, counting row by row and level by level. */
  function TileIndex(tiles: seq<Point>, level: nat, x: int, y: int): (r: int)
    requires level < |tiles|
    ensures InTier(tiles, level, x, y) ==> AreaSum(tiles[..level]) <= r < AreaSum(tiles[..level + 1])
  {
    RowMajorBound(x, y, tiles[level].x, tiles[level].y);
    assert tiles[..level + 1] == tiles[..level] + [tiles[level]];
    AreaSumSnoc(tiles[..level], tiles[level]);
    x + y * tiles[level].x + AreaSum(tiles[..level])
  }

  /** Row-major numbering of a grid of width `w` and height `h` stays below `w * h`. */
  lemma RowMajorBound(x: int, y: int, w: int, h: int)
    ensures 0 <= x < w && 0 <= y < h ==> 0 <= x + y * w < w * h
  {
    if 0 <= x < w && 0 <= y < h {
      assert y * w <= (h - 1) * w;
    }
  }

  /** Row-major numbering tells the tiles of one grid apart. */
  lemma RowMajorInjective(x1: int, y1: int, x2: int, y2: int, w: int)
    requires 0 <= x1 < w && 0 <= x2 < w && y1 >= 0 && y2 >= 0
    requires x1 + y1 * w == x2 + y2 * w
    ensures x1 == x2 && y1 == y2
  {
    assert (y1 - y2) * w == x2 - x1;
    SmallMultiple(y1 - y2, w, x2 - x1);
  }

  /** The only multiple of `w` strictly between `-w` and `w` is 0. */
  lemma SmallMultiple(k: int, w: int, d: int)
    requires w > 0 && k * w == d && -w < d < w
    ensures k == 0
  {
  }

  /** Different tiles of a pyramid get different numbers. */
  lemma TileIndexInjective(tiles: seq<Point>, l1: nat, x1: int, y1: int, l2: nat, x2: int, y2: int)
    requires NonNegative(tiles)
    requires InTier(tiles, l1, x1, y1) && InTier(tiles, l2, x2, y2)
    requires TileIndex(tiles, l1, x1, y1) == TileIndex(tiles, l2, x2, y2)
    ensures l1 == l2 && x1 == x2 && y1 == y2
  {
    if l1 < l2 {
      AreaSumMonotone(tiles, l1 + 1, l2);
    } else if l2 < l1 {
      AreaSumMonotone(tiles, l2 + 1, l1);
    } else {
      RowMajorInjective(x1, y1, x2, y2, tiles[l1].x);
    }
  }

  /** The path of one tile under the tiles URL. */
  function TilePath(group: int, level: int, x: int, y: int): (r: string)
    ensures SplitOn(r, '/') ==
      ["TileGroup" + IntToString(group), IntToString(level) + "-" + IntToString(x) + "-" + IntToString(y) + ".jpg"]
  {
    var dir := "TileGroup" + IntToString(group);
    var file := IntToString(level) + "-" + IntToString(x) + "-" + IntToString(y) + ".jpg";
    NoSlashInTilePath(group, level, x, y);
    SplitOnTwo(dir, '/', file);
    dir + "/" + file
  }

  /** Neither the group directory nor the file name of a tile contains a slash. */
  lemma NoSlashInTilePath(group: int, level: int, x: int, y: int)
    ensures '/' !in "TileGroup" + IntToString(group)
    ensures '/' !in IntToString(level) + "-" + IntToString(x) + "-" + IntToString(y) + ".jpg"
  {
    NoSlashInInt(group);
    NoSlashInInt(level);
    NoSlashInInt(x);
    NoSlashInInt(y);
    NoSlashConcat("TileGroup", IntToString(group));
    NoSlashConcat(IntToString(level), "-");
    NoSlashConcat(IntToString(level) + "-", IntToString(x));
    NoSlashConcat(IntToString(level) + "-" + IntToString(x), "-");
    NoSlashConcat(IntToString(level) + "-" + IntToString(x) + "-", IntToString(y));
    NoSlashConcat(IntToString(level) + "-" + IntToString(x) + "-" + IntToString(y), ".jpg");
  }

  lemma NoSlashInInt(i: int)
    ensures '/' !in IntToString(i)
  {
    var r := IntToString(i);
    assert forall k :: 0 <= k < |r| ==> r[k] != '/';
  }

  lemma NoSlashConcat(a: string, b: string)
    requires '/' !in a && '/' !in b
    ensures '/' !in a + b
  {
  }

  /** The level `getTileUrl` looks up: one below the requested one, and never below 0. */
  function ClampedLevel(level: int): (r: nat)
    ensures r >= level - 1 && (r == 0 || r == level - 1)
  {
    if level - 1 > 0 then level - 1 else 0
  }

  /**
   * The constructor's `while` loop: starting from the full image, push the floor-half
   * of the last tier, and its tile grid, while the last tier does not fit in one tile.
   */
  method HalvingLoop(full: Point, tileSize: int) returns (tierImageSize: seq<Point>, tierSizeInTiles: seq<Point>)
    requires tileSize > 0
    ensures tierImageSize == Tiers(full, tileSize)
    ensures |tierSizeInTiles| == |tierImageSize|
    ensures forall i :: 0 <= i < |tierImageSize| ==> tierSizeInTiles[i] == TilesOf(tierImageSize[i], tileSize)
  {
    var imageSize := full;
    var tiles := TilesOf(imageSize, tileSize);
    tierSizeInTiles := [tiles];
    tierImageSize := [imageSize];
    ghost var done: seq<Point> := [];
    while imageSize.x > tileSize || imageSize.y > tileSize
      invariant tierImageSize == done + [imageSize]
      invariant done + Tiers(imageSize, tileSize) == Tiers(full, tileSize)
      invariant |tierSizeInTiles| == |tierImageSize|
      invariant forall i :: 0 <= i < |tierImageSize| ==> tierSizeInTiles[i] == TilesOf(tierImageSize[i], tileSize)
      decreases Magnitude(imageSize)
    {
      HalfShrinks(imageSize, tileSize);
      assert done + Tiers(imageSize, tileSize) == (done + [imageSize]) + Tiers(Half(imageSize), tileSize);
      done := done + [imageSize];
      imageSize := Half(imageSize);
      tiles := TilesOf(imageSize, tileSize);
      tierSizeInTiles := tierSizeInTiles + [tiles];
      tierImageSize := tierImageSize + [imageSize];
    }
  }

  /**
   * The constructor's `for` loop: entry 0 is 0, and each further entry adds the tiles
   * of the previous tier to the previous entry.
   */
  method RunningTotals(tierSizeInTiles: seq<Point>) returns (tileCountUpToTier: seq<int>)
    requires |tierSizeInTiles| >= 1
    ensures |tileCountUpToTier| == |tierSizeInTiles|
    ensures forall j :: 0 <= j < |tierSizeInTiles| ==> tileCountUpToTier[j] == AreaSum(tierSizeInTiles[..j])
  {
    tileCountUpToTier := [0];
    for i := 1 to |tierSizeInTiles|
      invariant |tileCountUpToTier| == i
      invariant forall j :: 0 <= j < i ==> tileCountUpToTier[j] == AreaSum(tierSizeInTiles[..j])
    {
      assert tierSizeInTiles[..i] == tierSizeInTiles[..i - 1] + [tierSizeInTiles[i - 1]];
      AreaSumSnoc(tierSizeInTiles[..i - 1], tierSizeInTiles[i - 1]);
      tileCountUpToTier := tileCountUpToTier + [tierSizeInTiles[i - 1].x * tierSizeInTiles[i - 1].y + tileCountUpToTier[i - 1]];
    }
  }

  /** `ZoomifyTileSource`: the tier tables built by the constructor. */
  class ZoomifyTileSource {
    var tileSize: int
    var tilesUrl: string
    var maxLevel: int
    var tierSizeInTiles: seq<Point>
    var tierImageSize: seq<Point>
    var numberOfTiers: int
    var tileCountUpToTier: seq<int>

    /** The tables agree: one grid per tier, and the running totals of their tiles. */
    ghost predicate Valid()
      reads this
    {
      tileSize > 0 && numberOfTiers >= 1 &&
      |tierImageSize| == numberOfTiers && |tierSizeInTiles| == numberOfTiers && |tileCountUpToTier| == numberOfTiers &&
      (forall i :: 0 <= i < numberOfTiers ==> tierSizeInTiles[i] == TilesOf(tierImageSize[i], tileSize)) &&
      (forall i :: 0 <= i < numberOfTiers ==> tileCountUpToTier[i] == AreaSum(tierSizeInTiles[..i]))
    }

    /**
     * The constructor once its options passed the required-parameter test: a tile size
     * of 0 (missing) becomes 256. A negative tile size never ends the tier loop, so it
     * is excluded.
     */
    constructor (width: int, height: int, tileSize: int, tilesUrl: string)
      requires width != 0 && height != 0 && tilesUrl != [] && tileSize >= 0
      ensures Valid()
      ensures this.tileSize == (if tileSize == 0 then DefaultTileSize else tileSize) && this.tilesUrl == tilesUrl
      ensures tierImageSize == Reversed(Tiers(Point(width, height), this.tileSize))
      ensures maxLevel == numberOfTiers
    {
      var ts := if tileSize == 0 then DefaultTileSize else tileSize;
      var sizes, grids := HalvingLoop(Point(width, height), ts);
      var counts := RunningTotals(Reversed(grids));
      this.tileSize := ts;
      this.tilesUrl := tilesUrl;
      tierSizeInTiles := Reversed(grids);
      tierImageSize := Reversed(sizes);
      numberOfTiers := |grids|;
      maxLevel := |grids|;
      tileCountUpToTier := counts;
    }

    /**
     * `getTileUrl(level, x, y)` against the tiles URL currently configured: a level
     * past the last tier reads a missing table entry and raises.
     */
    function GetTileUrl(tilesUrl: string, level: int, x: int, y: int): (r: Result<string, Exception>)
      reads this
      requires Valid()
      ensures r.Success? <==> ClampedLevel(level) < numberOfTiers
      ensures r.Success? ==>
        var l := ClampedLevel(level);
        r.value == tilesUrl + TilePath(TileIndex(tierSizeInTiles, l, x, y) / TilesPerGroup, l, x, y)
    {
      var l := ClampedLevel(level);
      if l >= numberOfTiers then Failure(JsError("TypeError"))
      else
        var tileIndex := x + y * tierSizeInTiles[l].x + tileCountUpToTier[l];
        assert tileIndex == TileIndex(tierSizeInTiles, l, x, y);
        var tileGroup := tileIndex / TilesPerGroup;
        Success(tilesUrl + TilePath(tileGroup, l, x, y))
    }
  }

  /**
   * `new ZoomifyTileSource(width, height, tileSize, tilesUrl)` with its required-parameter
   * test: a missing width, height or tiles URL raises before any table is built.
   */
  method NewTileSource(width: int, height: int, tileSize: int, tilesUrl: string)
    returns (r: Result<ZoomifyTileSource, Exception>)
    requires width == 0 || height == 0 || tilesUrl == [] || tileSize >= 0
    ensures r.Failure? <==> width == 0 || height == 0 || tilesUrl == []
    ensures r.Failure? ==> r.error == JsError(RequiredMessage)
    ensures r.Success? ==> fresh(r.value) && r.value.Valid() && r.value.tilesUrl == tilesUrl
    ensures r.Success? ==> r.value.tierImageSize == Reversed(Tiers(Point(width, height), r.value.tileSize))
  {
    if width == 0 || height == 0 || tilesUrl == [] {
      return Failure(JsError(RequiredMessage));
    }
    var source := new ZoomifyTileSource(width, height, tileSize, tilesUrl);
    return Success(source);
  }

  /**
   * On level 0 or 1, the top-left tile of any pyramid is `TileGroup0/0-0-0.jpg`, the
   * tile the server side downloads as the thumbnail.
   */
  lemma FirstTileUrl(t: ZoomifyTileSource, tilesUrl: string, level: int)
    requires t.Valid() && level <= 1
    ensures t.GetTileUrl(tilesUrl, level, 0, 0) == Success(tilesUrl + Tileset.FirstTile)
  {
    assert ClampedLevel(level) == 0;
    assert t.tierSizeInTiles[..0] == [];
    assert TileIndex(t.tierSizeInTiles, 0, 0, 0) == 0 * t.tierSizeInTiles[0].x + AreaSum([]);
    FirstTilePath();
  }

  /** The path of tile (0, 0) of level 0 in group 0. */
  lemma FirstTilePath()
    ensures TilePath(0, 0, 0, 0) == Tileset.FirstTile
  {
    assert IntToString(0) == "0";
  }

  /** A tile of the pyramid goes to a group no larger than the total number of tiles allows. */
  lemma TileGroupBound(t: ZoomifyTileSource, level: int, x: int, y: int)
    requires t.Valid() && NonNegative(t.tierSizeInTiles)
    requires InTier(t.tierSizeInTiles, ClampedLevel(level), x, y)
    ensures var i := TileIndex(t.tierSizeInTiles, ClampedLevel(level), x, y);
      0 <= i < AreaSum(t.tierSizeInTiles) && 0 <= i / TilesPerGroup
  {
    var tiles := t.tierSizeInTiles;
    var l := ClampedLevel(level);
    AreaSumMonotone(tiles, 0, l);
    AreaSumMonotone(tiles, l + 1, |tiles|);
    assert tiles[..|tiles|] == tiles;
    assert tiles[..0] == [];
  }

  /** A non-negative side needs a non-negative number of tiles. */
  lemma TilesOfNonNegative(p: Point, tileSize: int)
    requires tileSize > 0 && p.x >= 0 && p.y >= 0
    ensures TilesOf(p, tileSize).x >= 0 && TilesOf(p, tileSize).y >= 0
  {
  }

  /** An image with positive sides gets tile grids with non-negative sides. */
  lemma PositiveImageGrids(t: ZoomifyTileSource, width: int, height: int)
    requires t.Valid() && width > 0 && height > 0
    requires t.tierImageSize == Reversed(Tiers(Point(width, height), t.tileSize))
    ensures NonNegative(t.tierSizeInTiles)
  {
    var q := Tiers(Point(width, height), t.tileSize);
    TiersNonNegative(Point(width, height), t.tileSize);
    forall i | 0 <= i < |t.tierSizeInTiles|
      ensures t.tierSizeInTiles[i].x >= 0 && t.tierSizeInTiles[i].y >= 0
    {
      var p := t.tierImageSize[i];
      assert p == q[|q| - 1 - i];
      TilesOfNonNegative(p, t.tileSize);
    }
  }

  // ----- Descriptors -----

  /** What `supports` and `configure` receive: a parsed JSON object or an XML document. */
  datatype Descriptor =
    | PlainObject(type_: string, width: Option<int>, height: Option<int>, tileSize: Option<int>, tilesUrl: Option<string>)
    | XmlDocument(rootTag: Option<string>)

  /** `supports(data, url)`: an object of type `zoomify`, or an `IMAGE_PROPERTIES` XML document. */
  function Supports(data: Descriptor): (r: bool)
    ensures data.PlainObject? ==> (r <==> data.type_ == "zoomify")
    ensures data.XmlDocument? ==> (r <==> data.rootTag == Some("IMAGE_PROPERTIES"))
  {
    match data
    case PlainObject(t, _, _, _, _) => t != [] && t == "zoomify"
    case XmlDocument(root) => root.Some? && root.value == "IMAGE_PROPERTIES"
  }

  /** `tilesurl.split('/')`, drop the last part, join with `/`, then add `/`. */
  function ServicePath(tilesUrl: string): (r: string)
    ensures EndsWith(r, "/")
  {
    var parts := SplitOn(tilesUrl, '/');
    JoinOn(parts[..|parts| - 1], '/') + "/"
  }

  /** The service path is the URL up to and including its last `/`, or `/` when it has none. */
  lemma ServicePathPrefix(tilesUrl: string)
    ensures var k := LastIndexOf(tilesUrl, '/');
      ServicePath(tilesUrl) == if k >= 0 then tilesUrl[..k + 1] else "/"
  {
    var k := LastIndexOf(tilesUrl, '/');
    if k >= 0 {
      ServicePathAt(tilesUrl, k);
    } else {
      SplitOnNoSeparator(tilesUrl, '/');
    }
  }

  /** With its last `/` at `k`, the parts before the last one rejoin into the URL before `k`. */
  lemma ServicePathAt(tilesUrl: string, k: nat)
    requires k == LastIndexOf(tilesUrl, '/')
    ensures ServicePath(tilesUrl) == tilesUrl[..k + 1]
  {
    var a, b := tilesUrl[..k], tilesUrl[k + 1..];
    assert tilesUrl == a + ['/'] + b;
    SplitOnAppend(a, '/', b);
    SplitOnNoSeparator(b, '/');
    var parts := SplitOn(tilesUrl, '/');
    assert parts[..|parts| - 1] == SplitOn(a, '/');
    JoinOnSplitOn(a, '/');
    SliceSnoc(tilesUrl, k);
  }

  /**
   * `configure(data, url)`: an XML document calls a function that does not exist and
   * raises; an object gets its `tilesUrl` replaced by the service URL, which is made
   * absolute with the page's protocol and host unless it starts with `http`.
   */
  function Configure(data: Descriptor, url: string, protocol: string, host: string): (r: Result<Descriptor, Exception>)
    ensures data.XmlDocument? ==> r == Failure(JsError("ReferenceError"))
    ensures data.PlainObject? && url == [] && data.tilesUrl.None? ==> r == Failure(JsError("TypeError"))
    ensures r.Success? <==> data.PlainObject? && (url != [] || data.tilesUrl.Some?)
    ensures r.Success? ==>
      var source := if url != [] then url else data.tilesUrl.value;
      r.value == data.(tilesUrl := Some(
        (if StartsWith(source, "http") then "" else protocol + "//" + host) + ServicePath(source)))
  {
    if data.XmlDocument? then Failure(JsError("ReferenceError"))
    else if url == [] && data.tilesUrl.None? then Failure(JsError("TypeError"))
    else
      var source := if url != [] then url else data.tilesUrl.value;
      var service := ServicePath(source);
      var head := if |source| >= 4 then source[..4] else source;
      assert head == "http" <==> StartsWith(source, "http");
      var host := if head != "http" then protocol + "//" + host else "";
      Success(data.(tilesUrl := Some(host + service)))
  }

  /** A descriptor URL ending in `ImageProperties.xml` configures the directory that holds it. */
  lemma ConfigureDirectory(data: Descriptor, dir: string, protocol: string, host: string)
    requires data.PlainObject? && StartsWith(dir, "http") && EndsWith(dir, "/")
    ensures Configure(data, dir + Tileset.ImageProperties, protocol, host) == Success(data.(tilesUrl := Some(dir)))
  {
    var u := dir + Tileset.ImageProperties;
    assert ServicePath(u) == dir by {
      assert '/' !in Tileset.ImageProperties;
      LastIndexOfUnique(u, '/', |dir| - 1);
      ServicePathPrefix(u);
      assert u[..|dir|] == dir;
    }
    assert StartsWith(u, "http") by {
      assert u[..4] == dir[..4];
    }
    var r := Configure(data, u, protocol, host);
    assert r.Success?;
    assert r.value.tilesUrl == Some("" + dir);
    assert "" + dir == dir;
  }

  /** A relative descriptor URL configures its directory, prefixed with the page's protocol and host. */
  lemma ConfigureRelativeDirectory(data: Descriptor, dir: string, protocol: string, host: string)
    requires data.PlainObject? && EndsWith(dir, "/") && !StartsWith(dir + Tileset.ImageProperties, "http")
    ensures Configure(data, dir + Tileset.ImageProperties, protocol, host)
      == Success(data.(tilesUrl := Some(protocol + "//" + host + dir)))
  {
    var u := dir + Tileset.ImageProperties;
    assert ServicePath(u) == dir by {
      assert '/' !in Tileset.ImageProperties;
      LastIndexOfUnique(u, '/', |dir| - 1);
      ServicePathPrefix(u);
      assert u[..|dir|] == dir;
    }
  }
}
