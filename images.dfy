/** Two-dimensional image planes with numpy's shape semantics: a plane always knows its height and
    width, even when it has no pixels (numpy keeps the shape (0, X)). */
module Images {
  import opened Outcomes
  import Arith

  datatype Grid = Grid(h: nat, w: nat, px: seq<seq<real>>)

  /** numpy arrays are rectangular: `h` rows of `w` pixels. */
  predicate Rectangular(g: Grid) {
    |g.px| == g.h && forall y | 0 <= y < g.h :: |g.px[y]| == g.w
  }

  type Plane = g: Grid | Rectangular(g) witness Grid(0, 0, [])

  predicate HasShape(p: Plane, h: nat, w: nat) {
    p.h == h && p.w == w
  }

  /** True when the plane has at least one pixel (numpy: `image.size > 0`). */
  predicate NonEmpty(p: Plane) {
    p.h > 0 && p.w > 0
  }

  /** The plane of shape (h, w) whose pixel (y, x) is f(y, x). */
  function Build(h: nat, w: nat, f: (int, int) -> real): (r: Plane)
    ensures r.h == h && r.w == w
    ensures forall y, x :: 0 <= y < h && 0 <= x < w ==> r.px[y][x] == f(y, x)
  {
    Grid(h, w, Rows(h, w, f))
  }

  /** Rows 0 .. n - 1 of the plane built from f. */
  function Rows(n: nat, w: nat, f: (int, int) -> real): (rows: seq<seq<real>>)
    ensures |rows| == n
    ensures forall y | 0 <= y < n :: |rows[y]| == w
    ensures forall y, x :: 0 <= y < n && 0 <= x < w ==> rows[y][x] == f(y, x)
  {
    if n == 0 then [] else Rows(n - 1, w, f) + [Row(n - 1, w, f)]
  }

  /** Pixels 0 .. n - 1 of row y. */
  function Row(y: nat, n: nat, f: (int, int) -> real): (row: seq<real>)
    ensures |row| == n
    ensures forall x | 0 <= x < n :: row[x] == f(y, x)
  {
    if n == 0 then [] else Row(y, n - 1, f) + [f(y, n - 1)]
  }

  /** Two planes are equal when they agree on shape and on every pixel. */
  lemma Extensionality(p: Plane, q: Plane)
    requires p.h == q.h && p.w == q.w
    requires forall y, x :: 0 <= y < p.h && 0 <= x < p.w ==> p.px[y][x] == q.px[y][x]
    ensures p == q
  {
    forall y | 0 <= y < p.h
      ensures p.px[y] == q.px[y]
    {
      assert |p.px[y]| == p.w == |q.px[y]|;
    }
    assert p.px == q.px;
  }

  /** `np.zeros((h, w))`. */
  function Zeros(h: nat, w: nat): (z: Plane)
    ensures HasShape(z, h, w)
    ensures forall y, x :: 0 <= y < h && 0 <= x < w ==> z.px[y][x] == 0.0
  {
    Grid(h, w, seq(h, _ => seq(w, _ => 0.0)))
  }

  /** A numeric library filter seen pixel by pixel: for an input plane, the value of each
      output pixel (y, x), computed from the whole input. Filters built from it keep the input's
      shape. */
  type Kernel = Plane -> (int, int) -> real

  function Pointwise(k: Kernel, p: Plane): (r: Plane)
    ensures HasShape(r, p.h, p.w)
    ensures forall y, x :: 0 <= y < p.h && 0 <= x < p.w ==> r.px[y][x] == k(p)(y, x)
  {
    Build(p.h, p.w, k(p))
  }

  /** Pixelwise difference `a - b` of two planes of one shape. */
  function Subtract(a: Plane, b: Plane): (r: Plane)
    requires HasShape(b, a.h, a.w)
    ensures HasShape(r, a.h, a.w)
    ensures forall y, x :: 0 <= y < a.h && 0 <= x < a.w ==> r.px[y][x] == a.px[y][x] - b.px[y][x]
  {
    Build(a.h, a.w, (y, x) => if 0 <= y < a.h && 0 <= x < a.w then a.px[y][x] - b.px[y][x] else 0.0)
  }

  /** Pixel k of the plane read in row-major (C) order, as `p.ravel()[k]`. */
  function FlatAt(p: Plane, k: nat): real
    requires k < p.h * p.w
  {
    Arith.RowMajorInverse(k, p.h, p.w);
    p.px[k / p.w][k % p.w]
  }

  /** numpy `reshape` of one plane to (h, w): the same pixels in the same row-major order. */
  function Reshape(p: Plane, h: nat, w: nat): (r: Plane)
    requires p.h * p.w == h * w
    ensures HasShape(r, h, w)
  {
    Build(h, w, (y, x) => if 0 <= y < h && 0 <= x < w then Arith.RowMajorBound(y, x, h, w); FlatAt(p, y * w + x) else 0.0)
  }

  /** Reshaping a plane to its own shape gives the plane back. */
  lemma ReshapeToOwnShape(p: Plane)
    ensures Reshape(p, p.h, p.w) == p
  {
    var r := Reshape(p, p.h, p.w);
    forall y, x | 0 <= y < p.h && 0 <= x < p.w
      ensures r.px[y][x] == p.px[y][x]
    {
      Arith.RowMajor(y, x, p.w);
    }
    Extensionality(r, p);
  }

  /** numpy assignment of plane `p` into a slot of shape (h, w): each axis must match or be 1
      (a length-1 axis is repeated); anything else raises ValueError. */
  function Broadcast(p: Plane, h: nat, w: nat): (r: Result<Plane>)
    ensures r.Ok? <==> (p.h == h || p.h == 1) && (p.w == w || p.w == 1)
    ensures r.Err? ==> r.error == ValueError
    ensures r.Ok? ==> HasShape(r.value, h, w)
  {
    if (p.h == h || p.h == 1) && (p.w == w || p.w == 1) then
      Ok(Build(h, w, (y, x) => if 0 <= y < h && 0 <= x < w then
        p.px[if p.h == 1 then 0 else y][if p.w == 1 then 0 else x] else 0.0))
    else
      Err(ValueError)
  }

  /** Assigning a plane into a slot of its own shape stores the plane unchanged. */
  lemma BroadcastSameShape(p: Plane)
    ensures Broadcast(p, p.h, p.w) == Ok(p)
  {
    var r := Broadcast(p, p.h, p.w).value;
    Extensionality(r, p);
  }

  /** numpy assignment of a stack of planes into a stack of slots of shape (h, w), plane by
      plane: ValueError as soon as one plane does not broadcast. */
  function BroadcastAll(ps: seq<Plane>, h: nat, w: nat): (r: Result<seq<Plane>>)
    ensures r.Ok? <==> forall i | 0 <= i < |ps| :: Broadcast(ps[i], h, w).Ok?
    ensures r.Ok? ==> |r.value| == |ps| && forall i | 0 <= i < |ps| :: Broadcast(ps[i], h, w) == Ok(r.value[i])
    ensures r.Err? ==> r.error == ValueError
  {
    if |ps| == 0 then Ok([])
    else
      var front :- BroadcastAll(ps[..|ps| - 1], h, w);
      var last :- Broadcast(ps[|ps| - 1], h, w);
      assert forall i | 0 <= i < |ps| - 1 :: ps[..|ps| - 1][i] == ps[i];
      Ok(front + [last])
  }

  /** `np.concatenate([a, b], axis=0)` for planes of one width: b below a. */
  function Above(a: Plane, b: Plane): (r: Plane)
    requires a.w == b.w
    ensures HasShape(r, a.h + b.h, a.w)
  {
    Grid(a.h + b.h, a.w, a.px + b.px)
  }

  /** `np.concatenate([a, b], axis=1)` for planes of one height: b right of a. */
  function Beside(a: Plane, b: Plane): (r: Plane)
    requires a.h == b.h
    ensures HasShape(r, a.h, a.w + b.w)
  {
    Grid(a.h, a.w + b.w, seq(a.h, y requires 0 <= y < a.h => a.px[y] + b.px[y]))
  }

  /** `np.concatenate(ps, axis=0)`: ValueError for an empty list or unequal widths. */
  function Concat0(ps: seq<Plane>): (r: Result<Plane>)
    ensures r.Err? ==> r.error == ValueError
  {
    if |ps| == 0 then Err(ValueError)
    else if |ps| == 1 then Ok(ps[0])
    else
      var rest :- Concat0(ps[1..]);
      if ps[0].w != rest.w then Err(ValueError) else Ok(Above(ps[0], rest))
  }

  /** `np.concatenate(ps, axis=1)`: ValueError for an empty list or unequal heights. */
  function Concat1(ps: seq<Plane>): (r: Result<Plane>)
    ensures r.Err? ==> r.error == ValueError
  {
    if |ps| == 0 then Err(ValueError)
    else if |ps| == 1 then Ok(ps[0])
    else
      var rest :- Concat1(ps[1..]);
      if ps[0].h != rest.h then Err(ValueError) else Ok(Beside(ps[0], rest))
  }

  /** Concatenating planes of one shape (h, w) along axis 0 gives a plane of shape (n * h, w). */
  lemma {:induction false} Concat0Uniform(ps: seq<Plane>, h: nat, w: nat)
    requires |ps| > 0 && forall i | 0 <= i < |ps| :: HasShape(ps[i], h, w)
    ensures Concat0(ps).Ok? && HasShape(Concat0(ps).value, |ps| * h, w)
    decreases |ps|
  {
    if |ps| > 1 {
      Concat0Uniform(ps[1..], h, w);
      assert (|ps| - 1) * h + h == |ps| * h;
    }
  }

  /** Three planes of one width concatenated along axis 0: each below the one before. */
  lemma Concat0Three(a: Plane, b: Plane, c: Plane)
    requires a.w == b.w == c.w
    ensures Concat0([a, b, c]) == Ok(Above(a, Above(b, c)))
  {
    var ps := [a, b, c];
    assert ps[1..] == [b, c] && ps[1..][1..] == [c];
    assert Concat0([c]) == Ok(c);
    assert Concat0([b, c]) == Ok(Above(b, c));
  }

  /** Three planes of one height concatenated along axis 1: each right of the one before. */
  lemma Concat1Three(a: Plane, b: Plane, c: Plane)
    requires a.h == b.h == c.h
    ensures Concat1([a, b, c]) == Ok(Beside(a, Beside(b, c)))
  {
    var ps := [a, b, c];
    assert ps[1..] == [b, c] && ps[1..][1..] == [c];
    assert Concat1([c]) == Ok(c);
    assert Concat1([b, c]) == Ok(Beside(b, c));
  }
}
