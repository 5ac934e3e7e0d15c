/** `calculateMetatile` of lib/render.js: the block of tiles rendered together
    for one requested tile, its pixel size and origin, and the `format,z,x,y`
    keys of the tiles it holds. The floating-point bounding box is not part of
    this model. */
module Metatile {
  import opened Common
  import opened Strings

  /** A tile address `[z, x, y]` of the XYZ pyramid. */
  datatype Tile = Tile(z: nat, x: nat, y: nat)

  /** The descriptor `calculateMetatile` returns, without `bbox`. The sizes are
      signed: a request outside the pyramid gets a non-positive span. */
  datatype Metatile = Metatile(width: int, height: int, x: nat, y: nat, tiles: seq<Tile>)

  /** `Math.pow(2, z)`: the number of tiles per axis at zoom z. */
  function Pow2(z: nat): (p: nat)
    ensures p >= 1
  {
    if z == 0 then 1 else 2 * Pow2(z - 1)
  }

  function Min3(a: int, b: int, c: int): (m: int)
    ensures m <= a && m <= b && m <= c
    ensures m == a || m == b || m == c
  {
    if a <= b && a <= c then a else if b <= c then b else c
  }

  /** The start of the metatile column or row holding `v`: the largest multiple
      of `m` not above `v`. */
  function Snap(v: nat, m: nat): (s: nat)
    requires m >= 1
    ensures s <= v && v - s < m
  {
    (v / m) * m
  }

  /** Lines 20-21 compute the start as `v - v % m`; for the non-negative values
      here JavaScript's `%` agrees with Dafny's. That start is a multiple of `m`. */
  lemma SnapRemainder(v: nat, m: nat)
    requires m >= 1
    ensures Snap(v, m) == v - v % m
    ensures Snap(v, m) % m == 0
  {
    MultipleRemainder(v / m, m);
  }

  /** A multiple of `m` leaves no remainder. */
  lemma MultipleRemainder(q: nat, m: nat)
    requires m >= 1
    ensures (q * m) % m == 0
  {
    var a := q * m;
    var d := a / m;
    assert a == d * m + a % m;
    assert (q - d) * m == a % m by {
      assert (q - d) * m == q * m - d * m;
    }
    SmallMultiple(q - d, m);
  }

  /** The only multiple of `m` in `[0, m)` is 0. */
  lemma SmallMultiple(k: int, m: nat)
    requires m >= 1 && 0 <= k * m < m
    ensures k == 0
  {
  }

  /** Lines 24-25: the span is capped by the metatile size, the pyramid, and the
      distance from the origin to its edge. */
  function Span(m: nat, total: nat, origin: nat): (n: int)
    ensures n <= m && n <= total && n <= total - origin
    ensures n == m || n == total || n == total - origin
  {
    Min3(m, total, total - origin)
  }

  /** The tiles `[z, x, y0 + dy]` for `0 <= dy < h`, in order: the inner loop. */
  function Column(z: nat, x: nat, y0: nat, h: int): seq<Tile>
    decreases h
  {
    if h <= 0 then [] else Column(z, x, y0, h - 1) + [Tile(z, x, y0 + h - 1)]
  }

  /** The columns `x0 + dx` for `0 <= dx < w`, in order: the outer loop. */
  function Grid(z: nat, x0: nat, y0: nat, w: int, h: int): seq<Tile>
    decreases w
  {
    if w <= 0 then [] else Grid(z, x0, y0, w - 1, h) + Column(z, x0 + w - 1, y0, h)
  }

  function Clamp(n: int): nat {
    if n < 0 then 0 else n
  }

  /** The position of tile `(dx, dy)` in a grid of columns of height `h`. */
  function Offset(dx: nat, dy: nat, h: nat): nat {
    dx * h + dy
  }

  lemma {:induction false} MulMonotone(a: nat, b: nat, h: nat)
    requires a <= b
    ensures a * h <= b * h
    decreases b - a
  {
    if a < b {
      MulMonotone(a + 1, b, h);
    }
  }

  /** Lines 40-41: a span of tiles in pixels. */
  function Pixels(span: int, tileSize: int): int {
    span * tileSize
  }

  /** What `calculateMetatile` computes for the request `(z, x, y)`, the metatile
      size and the tile size in pixels. */
  function MetatileOf(z: nat, x: nat, y: nat, metatile: nat, tileSize: int): Metatile
    requires metatile >= 1
  {
    var total := Pow2(z);
    var x0 := Snap(x, metatile);
    var y0 := Snap(y, metatile);
    var w := Span(metatile, total, x0);
    var h := Span(metatile, total, y0);
    Metatile(Pixels(w, tileSize), Pixels(h, tileSize), x0, y0, Grid(z, x0, y0, w, h))
  }

  /** Lines 14-46 with their nested loops (lines 28-33). */
  method CalculateMetatile(z: nat, x: nat, y: nat, metatile: nat, tileSize: int) returns (meta: Metatile)
    requires metatile >= 1
    ensures meta == MetatileOf(z, x, y, metatile, tileSize)
  {
    var total := Pow2(z);
    var x0 := x - x % metatile;
    var y0 := y - y % metatile;
    SnapRemainder(x, metatile);
    SnapRemainder(y, metatile);
    var metaWidth := Min3(metatile, total, total - x0);
    var metaHeight := Min3(metatile, total, total - y0);
    var tiles: seq<Tile> := [];
    var dx := 0;
    while dx < metaWidth
      invariant 0 <= dx && (metaWidth >= 0 ==> dx <= metaWidth) && (metaWidth < 0 ==> dx == 0)
      invariant tiles == Grid(z, x0, y0, dx, metaHeight)
    {
      var dy := 0;
      while dy < metaHeight
        invariant 0 <= dy && (metaHeight >= 0 ==> dy <= metaHeight) && (metaHeight < 0 ==> dy == 0)
        invariant tiles == Grid(z, x0, y0, dx, metaHeight) + Column(z, x0 + dx, y0, dy)
      {
        tiles := tiles + [Tile(z, x0 + dx, y0 + dy)];
        dy := dy + 1;
      }
      ColumnEmpty(z, x0 + dx, y0, dy, metaHeight);
      dx := dx + 1;
    }
    GridEmpty(z, x0, y0, dx, metaHeight, metaWidth);
    meta := Metatile(Pixels(metaWidth, tileSize), Pixels(metaHeight, tileSize), x0, y0, tiles);
  }

  /** A column whose height is not positive is empty, whatever the exact height. */
  lemma ColumnEmpty(z: nat, x: nat, y0: nat, dy: nat, h: int)
    requires dy == h || (h < 0 && dy == 0)
    ensures Column(z, x, y0, dy) == Column(z, x, y0, h)
  {
  }

  lemma GridEmpty(z: nat, x0: nat, y0: nat, dx: nat, h: int, w: int)
    requires dx == w || (w < 0 && dx == 0)
    ensures Grid(z, x0, y0, dx, h) == Grid(z, x0, y0, w, h)
  {
  }

  lemma {:induction false} ColumnAt(z: nat, x: nat, y0: nat, h: int, dy: nat)
    ensures |Column(z, x, y0, h)| == Clamp(h)
    ensures dy < h ==> Column(z, x, y0, h)[dy] == Tile(z, x, y0 + dy)
    decreases h
  {
    if h > 0 {
      ColumnAt(z, x, y0, h - 1, dy);
    }
  }

  /** The grid holds `w * h` tiles. */
  lemma {:induction false} GridLength(z: nat, x0: nat, y0: nat, w: int, h: int)
    ensures |Grid(z, x0, y0, w, h)| == Clamp(w) * Clamp(h)
    decreases w
  {
    if w > 0 {
      GridLength(z, x0, y0, w - 1, h);
      ColumnAt(z, x0 + w - 1, y0, h, 0);
      assert Clamp(w) * Clamp(h) == Clamp(w - 1) * Clamp(h) + Clamp(h);
    }
  }

  /** The tile at position `dx * h + dy` of the grid is `[z, x0 + dx, y0 + dy]`:
      outer dx, inner dy. */
  lemma {:induction false} GridAt(z: nat, x0: nat, y0: nat, w: int, h: int, dx: nat, dy: nat)
    requires dx < w && dy < h
    ensures Offset(dx, dy, Clamp(h)) < |Grid(z, x0, y0, w, h)|
    ensures Grid(z, x0, y0, w, h)[Offset(dx, dy, Clamp(h))] == Tile(z, x0 + dx, y0 + dy)
    decreases w
  {
    var g := Grid(z, x0, y0, w - 1, h);
    var c := Column(z, x0 + w - 1, y0, h);
    var i := Offset(dx, dy, Clamp(h));
    assert Grid(z, x0, y0, w, h) == g + c;
    GridLength(z, x0, y0, w - 1, h);
    ColumnAt(z, x0 + w - 1, y0, h, dy);
    if dx < w - 1 {
      GridAt(z, x0, y0, w - 1, h, dx, dy);
      assert (g + c)[i] == g[i];
    } else {
      assert i == |g| + dy;
      assert (g + c)[i] == c[dy];
    }
  }

  /** A tile is in the grid exactly when it is at zoom z and within the
      rectangle `[x0, x0 + w) x [y0, y0 + h)`. */
  lemma {:induction false} GridMembers(z: nat, x0: nat, y0: nat, w: int, h: int, t: Tile)
    ensures t in Grid(z, x0, y0, w, h) <==> t.z == z && x0 <= t.x < x0 + w && y0 <= t.y < y0 + h
    decreases w
  {
    if w > 0 {
      GridMembers(z, x0, y0, w - 1, h, t);
      ColumnMembers(z, x0 + w - 1, y0, h, t);
    }
  }

  lemma {:induction false} ColumnMembers(z: nat, x: nat, y0: nat, h: int, t: Tile)
    ensures t in Column(z, x, y0, h) <==> t.z == z && t.x == x && y0 <= t.y < y0 + h
    decreases h
  {
    if h > 0 {
      ColumnMembers(z, x, y0, h - 1, t);
    }
  }

  /** No tile appears twice in a grid. */
  lemma {:induction false} GridDistinct(z: nat, x0: nat, y0: nat, w: int, h: int)
    ensures forall i, j :: 0 <= i < j < |Grid(z, x0, y0, w, h)| ==> Grid(z, x0, y0, w, h)[i] != Grid(z, x0, y0, w, h)[j]
    decreases w
  {
    if w > 0 {
      GridDistinct(z, x0, y0, w - 1, h);
      ColumnDistinct(z, x0 + w - 1, y0, h);
      var g := Grid(z, x0, y0, w - 1, h);
      var c := Column(z, x0 + w - 1, y0, h);
      forall i, j | 0 <= i < |g| && 0 <= j < |c|
        ensures g[i] != c[j]
      {
        GridMembers(z, x0, y0, w - 1, h, g[i]);
        ColumnMembers(z, x0 + w - 1, y0, h, c[j]);
      }
    }
  }

  lemma {:induction false} ColumnDistinct(z: nat, x: nat, y0: nat, h: int)
    ensures forall i, j :: 0 <= i < j < |Column(z, x, y0, h)| ==> Column(z, x, y0, h)[i] != Column(z, x, y0, h)[j]
    decreases h
  {
    if h > 0 {
      ColumnDistinct(z, x, y0, h - 1);
      var c := Column(z, x, y0, h - 1);
      forall i | 0 <= i < |c|
        ensures c[i] != Tile(z, x, y0 + h - 1)
      {
        ColumnMembers(z, x, y0, h - 1, c[i]);
      }
    }
  }

  /** The tile list of a metatile has `metaWidth * metaHeight` entries in outer
      dx / inner dy order, each inside the metatile's rectangle and the pyramid
      at zoom z, none twice; the pixel size is the span times the tile size. */
  lemma MetatileLayout(z: nat, x: nat, y: nat, metatile: nat, tileSize: int)
    requires metatile >= 1
    ensures var meta := MetatileOf(z, x, y, metatile, tileSize);
            var w := Span(metatile, Pow2(z), meta.x);
            var h := Span(metatile, Pow2(z), meta.y);
            && meta.width == w * tileSize && meta.height == h * tileSize
            && |meta.tiles| == Clamp(w) * Clamp(h)
            && (forall dx: nat, dy: nat :: dx < w && dy < h ==>
                  Offset(dx, dy, Clamp(h)) < |meta.tiles| && meta.tiles[Offset(dx, dy, Clamp(h))] == Tile(z, meta.x + dx, meta.y + dy))
            && (forall t :: t in meta.tiles <==> t.z == z && meta.x <= t.x < meta.x + w && meta.y <= t.y < meta.y + h)
            && (forall t :: t in meta.tiles ==> t.x < Pow2(z) && t.y < Pow2(z))
            && (forall i, j :: 0 <= i < j < |meta.tiles| ==> meta.tiles[i] != meta.tiles[j])
  {
    var meta := MetatileOf(z, x, y, metatile, tileSize);
    var w := Span(metatile, Pow2(z), meta.x);
    var h := Span(metatile, Pow2(z), meta.y);
    GridLength(z, meta.x, meta.y, w, h);
    forall dx: nat, dy: nat | dx < w && dy < h
      ensures Offset(dx, dy, Clamp(h)) < |meta.tiles| && meta.tiles[Offset(dx, dy, Clamp(h))] == Tile(z, meta.x + dx, meta.y + dy)
    {
      GridAt(z, meta.x, meta.y, w, h, dx, dy);
    }
    forall t
      ensures t in meta.tiles <==> t.z == z && meta.x <= t.x < meta.x + w && meta.y <= t.y < meta.y + h
    {
      GridMembers(z, meta.x, meta.y, w, h, t);
    }
    GridDistinct(z, meta.x, meta.y, w, h);
  }

  /** The metatile of a tile inside the pyramid contains that tile. */
  lemma MetatileCoversRequest(z: nat, x: nat, y: nat, metatile: nat, tileSize: int)
    requires metatile >= 1 && x < Pow2(z) && y < Pow2(z)
    ensures Tile(z, x, y) in MetatileOf(z, x, y, metatile, tileSize).tiles
  {
    var meta := MetatileOf(z, x, y, metatile, tileSize);
    GridMembers(z, meta.x, meta.y, Span(metatile, Pow2(z), meta.x), Span(metatile, Pow2(z), meta.y), Tile(z, x, y));
  }

  /** At zoom 0 the only tile is rendered alone, whatever the metatile size. */
  lemma ZoomZero(metatile: nat, tileSize: int)
    requires metatile >= 1
    ensures MetatileOf(0, 0, 0, metatile, tileSize) == Metatile(tileSize, tileSize, 0, 0, [Tile(0, 0, 0)])
  {
    assert Grid(0, 0, 0, 1, 1) == [Tile(0, 0, 0)] by {
      assert Column(0, 0, 0, 1) == [Tile(0, 0, 0)];
    }
  }

  /** The tiles of the 2 x 2 block at (2, 2) of zoom 2, columns first. */
  lemma DefaultGrid()
    ensures Grid(2, 2, 2, 2, 2) == [Tile(2, 2, 2), Tile(2, 2, 3), Tile(2, 3, 2), Tile(2, 3, 3)]
  {
  }

  /** Tile (2, 2, 2) with the default metatile 2 and 256-pixel tiles: the 2 x 2
      block at (2, 2), 512 pixels square. */
  lemma DefaultMetatileExample()
    ensures MetatileOf(2, 2, 2, 2, 256) ==
              Metatile(512, 512, 2, 2, [Tile(2, 2, 2), Tile(2, 2, 3), Tile(2, 3, 2), Tile(2, 3, 3)])
  {
    assert Pow2(2) == 4;
    assert Snap(2, 2) == 2;
    assert Span(2, 4, 2) == 2;
    DefaultGrid();
  }

  /** Near the edge of the pyramid the span is clipped: at zoom 1 a metatile of 4
      holds only the 2 x 2 tiles that exist. */
  lemma ClippedMetatileExample()
    ensures MetatileOf(1, 1, 0, 4, 256).width == 512
    ensures |MetatileOf(1, 1, 0, 4, 256).tiles| == 4
  {
    assert Pow2(1) == 2;
    assert Snap(1, 4) == 0 && Snap(0, 4) == 0;
    assert Span(4, 2, 0) == 2;
    GridLength(1, 0, 0, 2, 2);
  }

  /** A request outside the pyramid, tile (1, 3, 0) with metatile 2, snaps to
      column 2, where no tile exists: the metatile has no tiles, so
      `_renderMetatile` returns no keys. */
  lemma OutsideThePyramid()
    ensures MetatileOf(1, 3, 0, 2, 256).tiles == []
    ensures MetatileOf(1, 3, 0, 2, 256).x == 2 && MetatileOf(1, 3, 0, 2, 256).y == 0
  {
    assert Pow2(1) == 2;
    assert Snap(3, 2) == 2;
    assert Snap(0, 2) == 0;
    assert Span(2, 2, 2) == 0;
  }

  /** The key of a tile (lines 60, 91 and 233): the format, then z, x and y, joined by commas. */
  function TileKey(format: string, t: Tile): string {
    format + "," + JoinNats([t.z, t.x, t.y])
  }

  /** Reads a key back for a known format. */
  function ParseTileKey(format: string, key: string): Option<Tile> {
    var p := format + ",";
    if |key| < |p| || key[..|p|] != p || !DigitsOrCommas(key[|p|..]) then None
    else
      var ns := ParseNats(key[|p|..]);
      if |ns| == 3 then Some(Tile(ns[0], ns[1], ns[2])) else None
  }

  /** A key reads back as the tile it was made from. */
  lemma TileKeyRoundTrip(format: string, t: Tile)
    ensures ParseTileKey(format, TileKey(format, t)) == Some(t)
  {
    var key := TileKey(format, t);
    var p := format + ",";
    assert key == p + JoinNats([t.z, t.x, t.y]);
    assert key[..|p|] == p && key[|p|..] == JoinNats([t.z, t.x, t.y]);
    ParseJoinNats([t.z, t.x, t.y]);
  }

  /** Distinct tiles of one format have distinct keys. */
  lemma TileKeyInjective(format: string, t1: Tile, t2: Tile)
    requires TileKey(format, t1) == TileKey(format, t2)
    ensures t1 == t2
  {
    TileKeyRoundTrip(format, t1);
    TileKeyRoundTrip(format, t2);
  }

  /** Lines 232-234: the keys of the tiles of a metatile, in tile order. */
  function TileKeys(format: string, tiles: seq<Tile>): (keys: seq<string>)
    ensures |keys| == |tiles|
    ensures forall i :: 0 <= i < |tiles| ==> ParseTileKey(format, keys[i]) == Some(tiles[i])
  {
    var keys := seq(|tiles|, i requires 0 <= i < |tiles| => TileKey(format, tiles[i]));
    assert forall i :: 0 <= i < |tiles| ==> ParseTileKey(format, keys[i]) == Some(tiles[i]) by {
      forall i | 0 <= i < |tiles| {
        TileKeyRoundTrip(format, tiles[i]);
      }
    }
    keys
  }

  /** The keys returned for a metatile are pairwise distinct. */
  lemma MetatileKeysDistinct(format: string, z: nat, x: nat, y: nat, metatile: nat, tileSize: int)
    requires metatile >= 1
    ensures var keys := TileKeys(format, MetatileOf(z, x, y, metatile, tileSize).tiles);
            forall i, j :: 0 <= i < j < |keys| ==> keys[i] != keys[j]
  {
    var tiles := MetatileOf(z, x, y, metatile, tileSize).tiles;
    var keys := TileKeys(format, tiles);
    MetatileLayout(z, x, y, metatile, tileSize);
    forall i, j | 0 <= i < j < |keys|
      ensures keys[i] != keys[j]
    {
      assert ParseTileKey(format, keys[i]) == Some(tiles[i]);
      assert ParseTileKey(format, keys[j]) == Some(tiles[j]);
    }
  }
}
