/** The tile montage the stitchers rely on (`skimage.util.montage` with a grid shape and no
    padding): tile k goes to block row k // cols and block column k % cols, and grid cells
    without a tile keep the fill value. */
module Mosaic {
  import opened Outcomes
  import opened Images
  import Arith

  /** The value of montage pixel (y, x): the tile whose block contains it, or the fill. */
  function MontagePixel(tiles: seq<Plane>, h: nat, w: nat, cols: nat, fill: real, y: nat, x: nat): real
    requires forall k | 0 <= k < |tiles| :: HasShape(tiles[k], h, w)
  {
    if h == 0 || w == 0 then fill
    else
      var k := (y / h) * cols + x / w;
      if 0 <= k < |tiles| then
        var t := tiles[k];
        assert HasShape(t, h, w) && Rectangular(t);
        t.px[y % h][x % w]
      else fill
  }

  /** `montage(tiles, grid_shape=(rows, cols))` for tiles of shape (h, w). The tile loop divides
      by cols (ZeroDivisionError when cols is 0 and there is a tile) and indexes the row slots
      (IndexError when there are more tiles than grid cells). */
  function Montage(tiles: seq<Plane>, h: nat, w: nat, rows: nat, cols: nat, fill: real): (r: Result<Plane>)
    requires forall k | 0 <= k < |tiles| :: HasShape(tiles[k], h, w)
    ensures r.Err? <==> |tiles| > 0 && (cols == 0 || |tiles| > rows * cols)
    ensures r.Err? ==> r.error == (if cols == 0 then ZeroDivisionError else IndexError)
    ensures r.Ok? ==> HasShape(r.value, rows * h, cols * w)
  {
    if |tiles| > 0 && cols == 0 then Err(ZeroDivisionError)
    else if |tiles| > rows * cols then Err(IndexError)
    else
      Ok(Build(rows * h, cols * w, (y, x) => if 0 <= y && 0 <= x then MontagePixel(tiles, h, w, cols, fill, y, x) else fill))
  }

  /** Each montage pixel is computed by MontagePixel. */
  lemma MontageAt(tiles: seq<Plane>, h: nat, w: nat, rows: nat, cols: nat, fill: real, m: Plane, y: nat, x: nat)
    requires forall k | 0 <= k < |tiles| :: HasShape(tiles[k], h, w)
    requires Montage(tiles, h, w, rows, cols, fill) == Ok(m)
    requires y < m.h && x < m.w
    ensures m.px[y][x] == MontagePixel(tiles, h, w, cols, fill, y, x)
  {
  }

  /** Pixel (y, x) of a tile of shape (h, w). */
  function TilePixel(t: Plane, h: nat, w: nat, y: nat, x: nat): real
    requires HasShape(t, h, w) && y < h && x < w
  {
    t.px[y][x]
  }

  /** Pixel (y, x) of grid cell (i, j) of the montage m holds pixel (y, x) of tile
      i * cols + j, or the fill value where there is no such tile. */
  predicate CellPixel(m: Plane, tiles: seq<Plane>, h: nat, w: nat, cols: nat, fill: real,
                      i: nat, j: nat, y: nat, x: nat)
    requires forall k | 0 <= k < |tiles| :: HasShape(tiles[k], h, w)
    requires y < h && x < w
  {
    && i * h + y < m.h && j * w + x < m.w
    && var k := i * cols + j;
       m.px[i * h + y][j * w + x] == if k < |tiles| then TilePixel(tiles[k], h, w, y, x) else fill
  }

  /** Every pixel of every grid cell of the montage is as `CellPixel` says. */
  lemma MontageCell(tiles: seq<Plane>, h: nat, w: nat, rows: nat, cols: nat, fill: real, m: Plane,
                    i: nat, j: nat, y: nat, x: nat)
    requires forall k | 0 <= k < |tiles| :: HasShape(tiles[k], h, w)
    requires Montage(tiles, h, w, rows, cols, fill) == Ok(m)
    requires i < rows && j < cols && y < h && x < w
    ensures CellPixel(m, tiles, h, w, cols, fill, i, j, y, x)
  {
    Arith.RowMajorBound(i, y, rows, h);
    Arith.RowMajorBound(j, x, cols, w);
    Arith.RowMajor(i, y, h);
    Arith.RowMajor(j, x, w);
    MontageAt(tiles, h, w, rows, cols, fill, m, i * h + y, j * w + x);
  }

  /** `p[y0:y0 + h, x0:x0 + w]` for a window inside p. */
  function Crop(p: Plane, y0: nat, x0: nat, h: nat, w: nat): (r: Plane)
    requires y0 + h <= p.h && x0 + w <= p.w
    ensures HasShape(r, h, w)
    ensures forall y, x :: 0 <= y < h && 0 <= x < w ==> r.px[y][x] == p.px[y0 + y][x0 + x]
  {
    Build(h, w, (y, x) => if 0 <= y < h && 0 <= x < w then p.px[y0 + y][x0 + x] else 0.0)
  }

  /** Plane t appears unchanged in p with its top-left corner at (y0, x0). */
  predicate SitsAt(p: Plane, y0: int, x0: int, t: Plane) {
    && 0 <= y0 && 0 <= x0 && y0 + t.h <= p.h && x0 + t.w <= p.w
    && forall y, x | 0 <= y < t.h && 0 <= x < t.w :: p.px[y0 + y][x0 + x] == t.px[y][x]
  }

  /** Where t sits in p, cutting that window out of p gives back t. */
  lemma SitsAtCrop(p: Plane, y0: nat, x0: nat, t: Plane)
    requires SitsAt(p, y0, x0, t)
    ensures Crop(p, y0, x0, t.h, t.w) == t
  {
    Extensionality(Crop(p, y0, x0, t.h, t.w), t);
  }

  /** The montage loses nothing: cutting grid cell (i, j) back out gives tile i * cols + j. Every
      tile k has such a cell, (k // cols, k % cols), by `Arith.RowMajorInverse`. */
  lemma MontageRoundTrip(tiles: seq<Plane>, h: nat, w: nat, rows: nat, cols: nat, fill: real, m: Plane,
                         i: nat, j: nat, k: nat)
    requires forall k | 0 <= k < |tiles| :: HasShape(tiles[k], h, w)
    requires Montage(tiles, h, w, rows, cols, fill) == Ok(m)
    requires i < rows && j < cols && k == i * cols + j && k < |tiles|
    ensures SitsAt(m, i * h, j * w, tiles[k])
  {
    Arith.BlockFits(i, rows, h);
    Arith.BlockFits(j, cols, w);
    var y0: nat, x0: nat := i * h, j * w;
    forall y, x | 0 <= y < h && 0 <= x < w
      ensures m.px[y0 + y][x0 + x] == tiles[k].px[y][x]
    {
      MontageCell(tiles, h, w, rows, cols, fill, m, i, j, y, x);
    }
  }

  /** A plane sitting in a plane that sits in p sits in p, at the sum of the offsets. */
  lemma SitsAtTransitive(p: Plane, y0: int, x0: int, q: Plane, y1: int, x1: int, t: Plane)
    requires SitsAt(p, y0, x0, q) && SitsAt(q, y1, x1, t)
    ensures SitsAt(p, y0 + y1, x0 + x1, t)
  {
    forall y, x | 0 <= y < t.h && 0 <= x < t.w
      ensures p.px[y0 + y1 + y][x0 + x1 + x] == t.px[y][x]
    {
      assert q.px[y1 + y][x1 + x] == t.px[y][x];
      assert p.px[y0 + (y1 + y)][x0 + (x1 + x)] == q.px[y1 + y][x1 + x];
    }
  }
}
