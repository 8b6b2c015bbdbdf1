/** Stacks of planes with explicit extents: a numpy array of rank 4 or 5 whose last two axes are
    (Y, X). Each operation states which source axes the leading indices stand for. */
module Tensors {
  import opened Images

  /** Three leading axes of extents n0, n1, n2 over planes of shape (h, w); `at[i][j][k]` is the
      plane at index (i, j, k). */
  datatype Stack5 = Stack5(n0: nat, n1: nat, n2: nat, h: nat, w: nat, at: seq<seq<seq<Plane>>>)

  predicate Shaped5(s: Stack5) {
    && |s.at| == s.n0
    && (forall i | 0 <= i < s.n0 :: |s.at[i]| == s.n1)
    && (forall i, j | 0 <= i < s.n0 && 0 <= j < s.n1 :: |s.at[i][j]| == s.n2)
    && (forall i, j, k | 0 <= i < s.n0 && 0 <= j < s.n1 && 0 <= k < s.n2 ::
          HasShape(s.at[i][j][k], s.h, s.w))
  }

  type Tensor5 = s: Stack5 | Shaped5(s) witness Stack5(0, 0, 0, 0, 0, [])

  /** Two leading axes of extents n0, n1 over planes of shape (h, w). */
  datatype Stack4 = Stack4(n0: nat, n1: nat, h: nat, w: nat, at: seq<seq<Plane>>)

  predicate Shaped4(s: Stack4) {
    && |s.at| == s.n0
    && (forall i | 0 <= i < s.n0 :: |s.at[i]| == s.n1)
    && (forall i, j | 0 <= i < s.n0 && 0 <= j < s.n1 :: HasShape(s.at[i][j], s.h, s.w))
  }

  type Tensor4 = s: Stack4 | Shaped4(s) witness Stack4(0, 0, 0, 0, [])

  /** The tiles `scene[i, j, :, :, :]` along the third leading axis. */
  function Fibre(s: Tensor5, i: nat, j: nat): (r: seq<Plane>)
    requires i < s.n0 && j < s.n1
    ensures |r| == s.n2
    ensures forall k | 0 <= k < s.n2 :: r[k] == s.at[i][j][k] && HasShape(r[k], s.h, s.w)
  {
    s.at[i][j]
  }

  /** Tensors with the same extents and the same planes are equal. */
  lemma Extensionality5(a: Tensor5, b: Tensor5)
    requires a.n0 == b.n0 && a.n1 == b.n1 && a.n2 == b.n2 && a.h == b.h && a.w == b.w
    requires forall i, j, k | 0 <= i < a.n0 && 0 <= j < a.n1 && 0 <= k < a.n2 ::
      a.at[i][j][k] == b.at[i][j][k]
    ensures a == b
  {
    forall i | 0 <= i < a.n0
      ensures a.at[i] == b.at[i]
    {
      forall j | 0 <= j < a.n1
        ensures a.at[i][j] == b.at[i][j]
      {
      }
    }
  }

  lemma Extensionality4(a: Tensor4, b: Tensor4)
    requires a.n0 == b.n0 && a.n1 == b.n1 && a.h == b.h && a.w == b.w
    requires forall i, j | 0 <= i < a.n0 && 0 <= j < a.n1 :: a.at[i][j] == b.at[i][j]
    ensures a == b
  {
    forall i | 0 <= i < a.n0
      ensures a.at[i] == b.at[i]
    {
    }
  }

  /** `np.moveaxis(processed_data, 0, 1)`: the per-channel (T, M) grids stacked into a scene
      with leading axes (T, channel slot, M). */
  function ChannelsToScene(n0: nat, n2: nat, h: nat, w: nat, outs: seq<Tensor4>): (r: Tensor5)
    requires forall i | 0 <= i < |outs| :: outs[i].n0 == n0 && outs[i].n1 == n2 && outs[i].h == h && outs[i].w == w
    ensures r.n0 == n0 && r.n1 == |outs| && r.n2 == n2 && r.h == h && r.w == w
    ensures forall t, i, m | 0 <= t < n0 && 0 <= i < |outs| && 0 <= m < n2 :: r.at[t][i][m] == outs[i].at[t][m]
  {
    Stack5(n0, |outs|, n2, h, w,
      seq(n0, t requires 0 <= t < n0 => seq(|outs|, i requires 0 <= i < |outs| => outs[i].at[t])))
  }

  /** A (T, C, 1) scene from the quilts of each time point. */
  function QuiltsToScene(n1: nat, h: nat, w: nat, quilts: seq<seq<Plane>>): (r: Tensor5)
    requires forall t | 0 <= t < |quilts| :: |quilts[t]| == n1
    requires forall t, c | 0 <= t < |quilts| && 0 <= c < n1 :: HasShape(quilts[t][c], h, w)
    ensures r.n0 == |quilts| && r.n1 == n1 && r.n2 == 1 && r.h == h && r.w == w
    ensures forall t, c | 0 <= t < |quilts| && 0 <= c < n1 :: r.at[t][c][0] == quilts[t][c]
  {
    Stack5(|quilts|, n1, 1, h, w,
      seq(|quilts|, t requires 0 <= t < |quilts| => seq(n1, c requires 0 <= c < n1 => [quilts[t][c]])))
  }

  /** `np.expand_dims` on axes 0 and 3 of `np.moveaxis(processed, 0, 1)` for a (C, T, Y, X)
      buffer: a scene with leading axes (T, C, 1) whose plane (t, c, 0) is `processed[c][t]`. */
  function ChannelMajorToScene(n0: nat, h: nat, w: nat, outs: seq<seq<Plane>>): (r: Tensor5)
    requires forall c | 0 <= c < |outs| :: |outs[c]| == n0
    requires forall c, t | 0 <= c < |outs| && 0 <= t < n0 :: HasShape(outs[c][t], h, w)
    ensures r.n0 == n0 && r.n1 == |outs| && r.n2 == 1 && r.h == h && r.w == w
    ensures forall t, c | 0 <= t < n0 && 0 <= c < |outs| :: r.at[t][c][0] == outs[c][t]
  {
    Stack5(n0, |outs|, 1, h, w,
      seq(n0, t requires 0 <= t < n0 => seq(|outs|, c requires 0 <= c < |outs| => [outs[c][t]])))
  }

  /** `scene[:, c]` of a (T, C, M) scene: the (T, M) grid of channel c. */
  function ChannelGrid(s: Tensor5, c: nat): (r: Tensor4)
    requires c < s.n1
    ensures r.n0 == s.n0 && r.n1 == s.n2 && r.h == s.h && r.w == s.w
    ensures forall t, m | 0 <= t < s.n0 && 0 <= m < s.n2 :: r.at[t][m] == s.at[t][c][m]
  {
    Stack4(s.n0, s.n2, s.h, s.w, seq(s.n0, t requires 0 <= t < s.n0 => Fibre(s, t, c)))
  }
}
