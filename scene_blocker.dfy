/** The fixed 3 x 3 `SceneBlocker`: nine tiles put together column by column, tiles 0-2 down the
    first column, and each (time, channel) mosaic stored in a (1416, 1920) buffer slot.

    Layout. The blocker's scene is a numpy array of shape (T, M, Y, X, C), channel last. It is
    modelled as a `Tensor5` with leading axes (T, C, M): `at[t][c][m].px[y][x]` is
    `scene[t, m, y, x, c]`, so `Fibre(scene, t, c)` is `scene[t, :, :, :, c]`. The result
    (T, 1416, 1920, C) is an array of planes indexed by (t, c). */
module SceneBlocking {
  import opened Outcomes
  import opened Images
  import opened Tensors
  import Mosaic

  /** The hard-coded shape of a blocked mosaic. */
  const BlockedHeight: nat := 1416
  const BlockedWidth: nat := 1920

  /** `arr[a:b]` of a list of planes: Python clamps both bounds to the length. */
  function Slice(ps: seq<Plane>, a: nat, b: nat): (r: seq<Plane>)
    requires a <= b
    ensures |r| == (if |ps| <= a then 0 else if |ps| <= b then |ps| - a else b - a)
    ensures forall i | 0 <= i < |r| :: r[i] == ps[a + i]
  {
    if |ps| <= a then [] else if |ps| <= b then ps[a..] else ps[a..b]
  }

  /** `_stich(arr)`: tiles 0-2, 3-5 and 6-8 each concatenated along axis 0 (the source calls
      them rows, but each stacks its tiles vertically), and the three stacks concatenated
      along axis 1. Any numpy concatenation error is ValueError. */
  function Stich(tiles: seq<Plane>): (r: Result<Plane>)
    ensures r.Err? ==> r.error == ValueError
  {
    var col1 :- Concat0(Slice(tiles, 0, 3));
    var col2 :- Concat0(Slice(tiles, 3, 6));
    var col3 :- Concat0(Slice(tiles, 6, 9));
    Concat1([col1, col2, col3])
  }

  /** Tiles of one shape (h, w) stitch exactly when there are at least nine of them, or seven
      or eight of zero height (the last stack is then as high as the others); the result has
      shape (3h, 3w). */
  lemma StichOk(tiles: seq<Plane>, h: nat, w: nat)
    requires forall k | 0 <= k < |tiles| :: HasShape(tiles[k], h, w)
    ensures Stich(tiles).Ok? <==> |tiles| >= 9 || (|tiles| >= 7 && h == 0)
    ensures Stich(tiles).Ok? ==> HasShape(Stich(tiles).value, 3 * h, 3 * w)
  {
    if |tiles| >= 7 {
      var s1, s2, s3 := Slice(tiles, 0, 3), Slice(tiles, 3, 6), Slice(tiles, 6, 9);
      Concat0Uniform(s1, h, w);
      Concat0Uniform(s2, h, w);
      Concat0Uniform(s3, h, w);
      var c1, c2, c3 := Concat0(s1).value, Concat0(s2).value, Concat0(s3).value;
      var cs := [c1, c2, c3];
      assert cs[1..] == [c2, c3] && cs[1..][1..] == [c3];
      assert Concat1([c3]) == Ok(c3);
      assert Stich(tiles) == Concat1(cs);
      if |tiles| == 7 {
        assert c3.h == h;
      } else if |tiles| == 8 {
        assert c3.h == h + h;
      } else {
        assert c3.h == h + h + h;
      }
      if c3.h == c1.h {
        Concat1Three(c1, c2, c3);
      } else {
        assert [c2, c3][1..] == [c3];
        assert Concat1([c2, c3]).Err?;
      }
    }
  }

  /** Only tiles 0-8 are read. */
  lemma StichIgnoresRest(tiles: seq<Plane>)
    requires |tiles| >= 9
    ensures Stich(tiles) == Stich(tiles[..9])
  {
    assert Slice(tiles, 0, 3) == Slice(tiles[..9], 0, 3);
    assert Slice(tiles, 3, 6) == Slice(tiles[..9], 3, 6);
    assert Slice(tiles, 6, 9) == Slice(tiles[..9], 6, 9);
  }

  /** Both halves of `Above(a, b)` sit where they were put. */
  lemma AboveSits(a: Plane, b: Plane)
    requires a.w == b.w
    ensures Mosaic.SitsAt(Above(a, b), 0, 0, a) && Mosaic.SitsAt(Above(a, b), a.h, 0, b)
  {
    var r := Above(a, b);
    assert r.px == a.px + b.px;
    forall y, x | 0 <= y < a.h && 0 <= x < a.w
      ensures r.px[0 + y][0 + x] == a.px[y][x]
    {
      assert r.px[y] == a.px[y];
    }
    forall y, x | 0 <= y < b.h && 0 <= x < b.w
      ensures r.px[a.h + y][0 + x] == b.px[y][x]
    {
      assert r.px[a.h + y] == b.px[y];
    }
  }

  /** Both halves of `Beside(a, b)` sit where they were put. */
  lemma BesideSits(a: Plane, b: Plane)
    requires a.h == b.h
    ensures Mosaic.SitsAt(Beside(a, b), 0, 0, a) && Mosaic.SitsAt(Beside(a, b), 0, a.w, b)
  {
    var r := Beside(a, b);
    forall y, x | 0 <= y < a.h && 0 <= x < a.w
      ensures r.px[0 + y][0 + x] == a.px[y][x]
    {
      assert r.px[y] == a.px[y] + b.px[y];
    }
    forall y, x | 0 <= y < b.h && 0 <= x < b.w
      ensures r.px[0 + y][a.w + x] == b.px[y][x]
    {
      assert r.px[y] == a.px[y] + b.px[y];
    }
  }

  /** Three planes stacked with `Above` sit at rows 0, a.h and a.h + b.h. */
  lemma ColumnSits(a: Plane, b: Plane, c: Plane)
    requires a.w == b.w == c.w
    ensures Mosaic.SitsAt(Above(a, Above(b, c)), 0, 0, a)
    ensures Mosaic.SitsAt(Above(a, Above(b, c)), a.h, 0, b)
    ensures Mosaic.SitsAt(Above(a, Above(b, c)), a.h + b.h, 0, c)
  {
    var col := Above(a, Above(b, c));
    AboveSits(a, Above(b, c));
    AboveSits(b, c);
    Mosaic.SitsAtTransitive(col, a.h, 0, Above(b, c), 0, 0, b);
    Mosaic.SitsAtTransitive(col, a.h, 0, Above(b, c), b.h, 0, c);
  }

  /** Three planes placed side by side with `Beside` sit at columns 0, a.w and a.w + b.w. */
  lemma RowSits(a: Plane, b: Plane, c: Plane)
    requires a.h == b.h == c.h
    ensures Mosaic.SitsAt(Beside(a, Beside(b, c)), 0, 0, a)
    ensures Mosaic.SitsAt(Beside(a, Beside(b, c)), 0, a.w, b)
    ensures Mosaic.SitsAt(Beside(a, Beside(b, c)), 0, a.w + b.w, c)
  {
    var row := Beside(a, Beside(b, c));
    BesideSits(a, Beside(b, c));
    BesideSits(b, c);
    Mosaic.SitsAtTransitive(row, 0, a.w, Beside(b, c), 0, 0, b);
    Mosaic.SitsAtTransitive(row, 0, a.w, Beside(b, c), 0, b.w, c);
  }

  /** Stack j of the stitched image: tiles 3j, 3j + 1 and 3j + 2, one below the other. */
  function Stack(tiles: seq<Plane>, h: nat, w: nat, j: nat): (r: Plane)
    requires |tiles| >= 9 && forall k | 0 <= k < |tiles| :: HasShape(tiles[k], h, w)
    requires j < 3
    ensures HasShape(r, 3 * h, w)
  {
    assert HasShape(tiles[3 * j], h, w) && HasShape(tiles[3 * j + 1], h, w) && HasShape(tiles[3 * j + 2], h, w);
    Above(tiles[3 * j], Above(tiles[3 * j + 1], tiles[3 * j + 2]))
  }

  /** Nine or more tiles of one shape stitch into the three stacks side by side. */
  lemma StichStacks(tiles: seq<Plane>, h: nat, w: nat)
    requires |tiles| >= 9 && forall k | 0 <= k < |tiles| :: HasShape(tiles[k], h, w)
    ensures Stich(tiles) == Ok(Beside(Stack(tiles, h, w, 0), Beside(Stack(tiles, h, w, 1), Stack(tiles, h, w, 2))))
  {
    var s1, s2, s3 := Slice(tiles, 0, 3), Slice(tiles, 3, 6), Slice(tiles, 6, 9);
    assert s1 == [tiles[0], tiles[1], tiles[2]];
    assert s2 == [tiles[3], tiles[4], tiles[5]];
    assert s3 == [tiles[6], tiles[7], tiles[8]];
    Concat0Three(tiles[0], tiles[1], tiles[2]);
    Concat0Three(tiles[3], tiles[4], tiles[5]);
    Concat0Three(tiles[6], tiles[7], tiles[8]);
    Concat1Three(Stack(tiles, h, w, 0), Stack(tiles, h, w, 1), Stack(tiles, h, w, 2));
  }

  /** Stack j sits at column j * w of the stitched image. */
  lemma StackInStich(tiles: seq<Plane>, h: nat, w: nat, j: nat)
    requires |tiles| >= 9 && forall k | 0 <= k < |tiles| :: HasShape(tiles[k], h, w)
    requires j < 3
    ensures Stich(tiles).Ok? && Mosaic.SitsAt(Stich(tiles).value, 0, j * w, Stack(tiles, h, w, j))
  {
    var s0, s1, s2 := Stack(tiles, h, w, 0), Stack(tiles, h, w, 1), Stack(tiles, h, w, 2);
    StichStacks(tiles, h, w);
    RowSits(s0, s1, s2);
    if j == 0 {
      assert j * w == 0 && Stack(tiles, h, w, j) == s0;
    } else if j == 1 {
      assert j * w == s0.w && Stack(tiles, h, w, j) == s1;
    } else {
      assert j * w == s0.w + s1.w && Stack(tiles, h, w, j) == s2;
    }
  }

  /** Tile 3j + i sits at row i * h of stack j. */
  lemma TileInStack(tiles: seq<Plane>, h: nat, w: nat, i: nat, j: nat)
    requires |tiles| >= 9 && forall k | 0 <= k < |tiles| :: HasShape(tiles[k], h, w)
    requires i < 3 && j < 3
    ensures Mosaic.SitsAt(Stack(tiles, h, w, j), i * h, 0, tiles[3 * j + i])
  {
    var a, b, c := tiles[3 * j], tiles[3 * j + 1], tiles[3 * j + 2];
    assert HasShape(a, h, w) && HasShape(b, h, w) && HasShape(c, h, w);
    assert Stack(tiles, h, w, j) == Above(a, Above(b, c));
    ColumnSits(a, b, c);
    if i == 0 {
      assert i * h == 0 && tiles[3 * j + i] == a;
    } else if i == 1 {
      assert i * h == a.h && tiles[3 * j + i] == b;
    } else {
      assert i * h == a.h + b.h && tiles[3 * j + i] == c;
    }
  }

  /** Block (i, j) of the stitched image, rows i * h and columns j * w on, is tile 3 * j + i:
      the tiles run down the columns. */
  lemma StichBlock(tiles: seq<Plane>, h: nat, w: nat, i: nat, j: nat)
    requires |tiles| >= 9 && forall k | 0 <= k < |tiles| :: HasShape(tiles[k], h, w)
    requires i < 3 && j < 3
    ensures Stich(tiles).Ok?
    ensures Mosaic.SitsAt(Stich(tiles).value, i * h, j * w, tiles[3 * j + i])
  {
    StackInStich(tiles, h, w, j);
    TileInStack(tiles, h, w, i, j);
    Mosaic.SitsAtTransitive(Stich(tiles).value, 0, j * w, Stack(tiles, h, w, j), i * h, 0, tiles[3 * j + i]);
  }

  /** Tile k of the first nine lands in block row k % 3 and block column k // 3: column-major,
      the transpose of montage's row-major layout. */
  lemma StichColumnMajor(tiles: seq<Plane>, h: nat, w: nat, k: nat)
    requires |tiles| >= 9 && forall i | 0 <= i < |tiles| :: HasShape(tiles[i], h, w)
    requires k < 9
    ensures Stich(tiles).Ok?
    ensures Mosaic.SitsAt(Stich(tiles).value, (k % 3) * h, (k / 3) * w, tiles[k])
  {
    StichBlock(tiles, h, w, k % 3, k / 3);
    assert 3 * (k / 3) + k % 3 == k;
  }

  /** Tiles of (t, c) for every channel c of time point t: M tiles of shape (h, w) each. */
  predicate RowOfTiles(tiles: seq<seq<Plane>>, m: nat, h: nat, w: nat) {
    forall c | 0 <= c < |tiles| :: |tiles[c]| == m && forall k | 0 <= k < m :: HasShape(tiles[c][k], h, w)
  }

  /** One slot of `block`: `_stich` of the slot's tiles, then numpy's assignment of the result
      into a (1416, 1920) slot. The slot is filled exactly when there are at least nine tiles,
      each of shape (472, 640), and it then holds the stitched image itself; anything else
      raises ValueError. */
  method FillSlot(tiles: seq<Plane>, h: nat, w: nat) returns (r: Result<Plane>)
    requires forall k | 0 <= k < |tiles| :: HasShape(tiles[k], h, w)
    ensures r.Ok? <==> |tiles| >= 9 && h == 472 && w == 640
    ensures r.Ok? ==> Stich(tiles) == r && HasShape(r.value, BlockedHeight, BlockedWidth)
    ensures r.Err? ==> r.error == ValueError
  {
    StichOk(tiles, h, w);
    var img := Stich(tiles);
    if img.Err? {
      return Err(img.error);
    }
    var p := img.value;
    assert p.h == 3 * h && p.w == 3 * w;
    if h == 472 && w == 640 {
      BroadcastSameShape(p);
      assert |tiles| >= 9;
    } else {
      assert p.h != BlockedHeight || p.w != BlockedWidth;
      assert p.h != 1 && p.w != 1;
    }
    r := Broadcast(p, BlockedHeight, BlockedWidth);
  }

  /** The inner loop of `block` for time point t: slot (t, c) is filled from `tiles[c]`, for
      c = 0, 1, ... in turn, and the first slot that cannot be filled stops it with its
      error. Other rows of the buffer are left alone. */
  method FillRow(blocked: array2<Plane>, t: nat, tiles: seq<seq<Plane>>, m: nat, h: nat, w: nat)
    returns (e: Option<Error>)
    requires t < blocked.Length0 && blocked.Length1 == |tiles| && RowOfTiles(tiles, m, h, w)
    modifies blocked
    ensures e.Some? <==> |tiles| > 0 && !(m >= 9 && h == 472 && w == 640)
    ensures e.Some? ==> e.value == ValueError
    ensures e.None? ==> forall c | 0 <= c < |tiles| ::
      Stich(tiles[c]) == Ok(blocked[t, c]) && HasShape(blocked[t, c], BlockedHeight, BlockedWidth)
    ensures forall t', c' | 0 <= t' < blocked.Length0 && t' != t && 0 <= c' < blocked.Length1 ::
      blocked[t', c'] == old(blocked[t', c'])
  {
    for c := 0 to |tiles|
      invariant c > 0 ==> m >= 9 && h == 472 && w == 640
      invariant forall c' | 0 <= c' < c ::
        Stich(tiles[c']) == Ok(blocked[t, c']) && HasShape(blocked[t, c'], BlockedHeight, BlockedWidth)
      invariant forall t', c' | 0 <= t' < blocked.Length0 && t' != t && 0 <= c' < blocked.Length1 ::
        blocked[t', c'] == old(blocked[t', c'])
    {
      var slot := FillSlot(tiles[c], h, w);
      if slot.Err? {
        return Some(slot.error);
      }
      blocked[t, c] := slot.value;
    }
    e := None;
  }

  class SceneBlocker {
    /** The tiles, `scene[t, m, :, :, c]` at (t, c, m). */
    const scene: Tensor5

    constructor (scene: Tensor5)
      ensures this.scene == scene
    {
      this.scene := scene;
    }

    /** `block`: a (T, C) buffer of zero planes, each slot overwritten once, in (t, c) order,
        with the stitched tiles of (t, c). It raises ValueError, at the first slot, unless the
        scene has at least nine tiles of shape (472, 640) or no slot at all. */
    method Block() returns (r: Result<array2<Plane>>)
      ensures r.Err? <==> scene.n0 > 0 && scene.n1 > 0 && !(scene.n2 >= 9 && scene.h == 472 && scene.w == 640)
      ensures r.Err? ==> r.error == ValueError
      ensures r.Ok? ==> fresh(r.value) && r.value.Length0 == scene.n0 && r.value.Length1 == scene.n1
      ensures r.Ok? ==> forall t, c | 0 <= t < scene.n0 && 0 <= c < scene.n1 ::
        Stich(Fibre(scene, t, c)) == Ok(r.value[t, c]) && HasShape(r.value[t, c], BlockedHeight, BlockedWidth)
    {
      var blocked := new Plane[scene.n0, scene.n1]((t, c) => Zeros(BlockedHeight, BlockedWidth));
      for t := 0 to scene.n0
        invariant t > 0 && scene.n1 > 0 ==> scene.n2 >= 9 && scene.h == 472 && scene.w == 640
        invariant forall t', c' | 0 <= t' < t && 0 <= c' < scene.n1 ::
          Stich(Fibre(scene, t', c')) == Ok(blocked[t', c']) && HasShape(blocked[t', c'], BlockedHeight, BlockedWidth)
      {
        var e := FillRow(blocked, t, scene.at[t], scene.n2, scene.h, scene.w);
        if e.Some? {
          return Err(e.value);
        }
      }
      r := Ok(blocked);
    }
  }
}
