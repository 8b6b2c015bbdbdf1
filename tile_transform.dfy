/** The tile pipeline's ParallelTransformer: channel plan resolution, per-channel chains over
    the (time, tile) planes, the stitched quilt and the post-stitch chain.

    Layouts. An acquisition is a sequence of scenes; only scene 0 is used. A scene is a
    `Tensor5` whose leading axes are (time T, channel C, tile M) over (Y, X) planes, as numpy's
    `czi_data[0]` of shape (T, C, M, Y, X); `np.moveaxis` only relabels axes and is modelled by
    indexing. A 6-D result `(1, T, C', M', Y', X')` is a one-element sequence of scenes. */
module TileTransform {
  import opened Outcomes
  import opened Images
  import opened Tensors
  import opened Operations
  import ChannelPlan
  import Filters
  import Mosaic
  import Arith

  /** The `ops` table: 13 names. */
  const TileOps: map<string, Op> := map[
    "ball" := Ball, "dilate" := Dilate, "dilate_s" := DilateStatic, "eq_hist" := EqHist,
    "ada_hist" := AdaptHist, "log" := Log, "blur" := Blur, "gamma" := Gamma, "otsu" := Otsu,
    "local_eq" := LocalEq, "resize" := Resize, "rescale" := RescaleUnit, "stretch" := Stretch]

  /** The configuration the transformer reads. */
  datatype TileParams = TileParams(
    processChannels: ChannelPlan.Dict<string, seq<string>>,  // channel name -> its chain
    settings: Settings,                                       // the operations' parameters
    resizeTiles: bool,
    quiltResizeFactor: nat,
    resizeQuilt: bool,
    gridShape: (nat, nat),                                    // (rows, cols)
    stitchProcessing: seq<string>,
    parallelProcs: int
  )

  datatype Metadata = Metadata(channelMap: ChannelPlan.ChannelMap, imageShape: (nat, nat))

  /** `scene[c].reshape(T * M, Y, X)`: the planes of channel c, plane (t, m) at t * M + m. */
  function Flatten(scene: Tensor5, c: nat): (r: seq<Plane>)
    requires c < scene.n1
    ensures |r| == scene.n0 * scene.n2
    ensures forall k | 0 <= k < |r| :: HasShape(r[k], scene.h, scene.w)
  {
    seq(scene.n0 * scene.n2, k requires 0 <= k < scene.n0 * scene.n2 => FlatPlane(scene, c, k))
  }

  /** Item k of the work list: plane (k / M, k % M). */
  function FlatPlane(scene: Tensor5, c: nat, k: nat): (p: Plane)
    requires c < scene.n1 && k < scene.n0 * scene.n2
    ensures HasShape(p, scene.h, scene.w)
  {
    Arith.RowMajorInverse(k, scene.n0, scene.n2);
    scene.at[k / scene.n2][c][k % scene.n2]
  }

  /** Plane (t, m) of the channel is item t * M + m of the work list. */
  lemma FlattenAt(scene: Tensor5, c: nat, t: nat, m: nat, k: nat)
    requires c < scene.n1 && t < scene.n0 && m < scene.n2 && k == t * scene.n2 + m
    ensures k < scene.n0 * scene.n2
    ensures Flatten(scene, c)[k] == scene.at[t][c][m]
  {
    Arith.RowMajorBound(t, m, scene.n0, scene.n2);
    Arith.RowMajor(t, m, scene.n2);
  }

  /** `np.asarray(results).reshape(T, M, h2, w2)` for T * M results of shape (h, w): the element
      counts must agree (ValueError otherwise), and then plane (t, m) is result t * M + m read
      in row-major order as an (h2, w2) plane. */
  function Unflatten(results: seq<Plane>, n0: nat, n2: nat, h: nat, w: nat, h2: nat, w2: nat)
    : (r: Result<Tensor4>)
    requires |results| == n0 * n2
    requires forall k | 0 <= k < |results| :: HasShape(results[k], h, w)
    ensures r.Err? <==> n0 * n2 > 0 && h * w != h2 * w2
    ensures r.Err? ==> r.error == ValueError
    ensures r.Ok? ==> r.value.n0 == n0 && r.value.n1 == n2 && r.value.h == h2 && r.value.w == w2
  {
    if n0 * n2 > 0 && h * w != h2 * w2 then Err(ValueError)
    else
      Ok(Stack4(n0, n2, h2, w2, seq(n0, t requires 0 <= t < n0 => seq(n2, m requires 0 <= m < n2 =>
        Reassembled(results, n0, n2, h, w, h2, w2, t, m)))))
  }

  /** Plane (t, m) of the reshaped results. */
  function Reassembled(results: seq<Plane>, n0: nat, n2: nat, h: nat, w: nat, h2: nat, w2: nat,
                       t: nat, m: nat): (p: Plane)
    requires |results| == n0 * n2
    requires forall k | 0 <= k < |results| :: HasShape(results[k], h, w)
    requires !(n0 * n2 > 0 && h * w != h2 * w2)
    requires t < n0 && m < n2
    ensures HasShape(p, h2, w2)
  {
    Arith.RowMajorBound(t, m, n0, n2);
    var p := results[t * n2 + m];
    assert HasShape(p, h, w) && n0 * n2 > 0;
    Reshape(p, h2, w2)
  }

  /** Unflattening puts result t * M + m at (t, m), read as an (h2, w2) plane. */
  lemma UnflattenReshapes(results: seq<Plane>, n0: nat, n2: nat, h: nat, w: nat, h2: nat, w2: nat,
                          t: nat, m: nat, k: nat)
    requires |results| == n0 * n2
    requires forall i | 0 <= i < |results| :: HasShape(results[i], h, w)
    requires Unflatten(results, n0, n2, h, w, h2, w2).Ok?
    requires t < n0 && m < n2 && k == t * n2 + m
    ensures k < |results| && results[k].h * results[k].w == h2 * w2
    ensures Unflatten(results, n0, n2, h, w, h2, w2).value.at[t][m] == Reshape(results[k], h2, w2)
  {
    Arith.RowMajorBound(t, m, n0, n2);
    assert HasShape(results[k], h, w);
  }

  /** When the results already have the target shape, unflattening puts result t * M + m back
      at (t, m) unchanged. */
  lemma UnflattenAt(results: seq<Plane>, n0: nat, n2: nat, h: nat, w: nat, t: nat, m: nat, k: nat)
    requires |results| == n0 * n2
    requires forall i | 0 <= i < |results| :: HasShape(results[i], h, w)
    requires t < n0 && m < n2 && k == t * n2 + m
    ensures k < |results|
    ensures Unflatten(results, n0, n2, h, w, h, w).Ok?
    ensures Unflatten(results, n0, n2, h, w, h, w).value.at[t][m] == results[k]
  {
    Arith.RowMajorBound(t, m, n0, n2);
    ReshapeToOwnShape(results[k]);
  }

  /** `list(scene[c])` once the channel axis is moved first and the tile axis squeezed away:
      the T planes of channel c. */
  function TimePlanes(scene: Tensor5, c: nat): (r: seq<Plane>)
    requires scene.n2 == 1 && c < scene.n1
    ensures |r| == scene.n0
    ensures forall t | 0 <= t < scene.n0 :: r[t] == scene.at[t][c][0] && HasShape(r[t], scene.h, scene.w)
  {
    seq(scene.n0, t requires 0 <= t < scene.n0 => scene.at[t][c][0])
  }

  /** A plane of shape `shape` can be assigned into a slot of shape (h, w). */
  predicate Fits(shape: (nat, nat), h: nat, w: nat) {
    (shape.0 == h || shape.0 == 1) && (shape.1 == w || shape.1 == 1)
  }

  class ParallelTransformer {
    const params: TileParams
    const metadata: Metadata
    const lib: Filters.Numerics
    /** The channel index of each `process_channels` key, in key order. */
    const channels: seq<nat>

    /** The channel indices are those of the configured channel names. */
    ghost predicate Valid() {
      ChannelPlan.Resolved(metadata.channelMap, ChannelPlan.Keys(params.processChannels), channels)
    }

    constructor (params: TileParams, metadata: Metadata, lib: Filters.Numerics, channels: seq<nat>)
      requires ChannelPlan.Resolved(metadata.channelMap, ChannelPlan.Keys(params.processChannels), channels)
      ensures this.params == params && this.metadata == metadata && this.lib == lib
      ensures this.channels == channels
      ensures Valid()
    {
      this.params := params;
      this.metadata := metadata;
      this.lib := lib;
      this.channels := channels;
    }

    /** `__init__`: resolve the configured channel names to indices (KeyError for the first
        unknown name), then keep the configuration. */
    static method Create(params: TileParams, metadata: Metadata, lib: Filters.Numerics)
      returns (r: Result<ParallelTransformer>)
      ensures r.Ok? <==> forall i | 0 <= i < |params.processChannels| ::
        ChannelPlan.Get(metadata.channelMap, params.processChannels[i].0).Some?
      ensures r.Ok? ==> fresh(r.value) && r.value.Valid()
      ensures r.Ok? ==> r.value.params == params && r.value.metadata == metadata && r.value.lib == lib
      ensures r.Err? ==> exists i | 0 <= i < |params.processChannels| ::
        && ChannelPlan.Get(metadata.channelMap, params.processChannels[i].0).None?
        && (forall j | 0 <= j < i :: ChannelPlan.Get(metadata.channelMap, params.processChannels[j].0).Some?)
        && r.error == KeyError(NameKey(params.processChannels[i].0))
    {
      var names := ChannelPlan.Keys(params.processChannels);
      var indices := ChannelPlan.GetChannelIndices(metadata.channelMap, names);
      if indices.Err? {
        return Err(indices.error);
      }
      var t := new ParallelTransformer(params, metadata, lib, indices.value);
      r := Ok(t);
    }

    /** `_get_new_size(scene)`: the processed buffer's shape (len(channels), T, M, Y2, X2), where
        (Y2, X2) is the metadata image shape divided by the tile resize factor when tiles are
        resized, and the scene's plane shape otherwise. */
    function NewSize(scene: Tensor5): (r: Result<(nat, nat, nat, nat, nat)>)
      ensures r.Err? <==> params.resizeTiles && params.settings.tileResizeFactor == 0
      ensures r.Err? ==> r.error == ZeroDivisionError
      ensures r.Ok? ==> r.value.0 == |channels| && r.value.1 == scene.n0 && r.value.2 == scene.n2
      ensures r.Ok? && !params.resizeTiles ==> (r.value.3, r.value.4) == (scene.h, scene.w)
      ensures r.Ok? && params.resizeTiles ==>
        r.value.3 * params.settings.tileResizeFactor <= metadata.imageShape.0 < (r.value.3 + 1) * params.settings.tileResizeFactor &&
        r.value.4 * params.settings.tileResizeFactor <= metadata.imageShape.1 < (r.value.4 + 1) * params.settings.tileResizeFactor
    {
      var rf := params.settings.tileResizeFactor;
      if !params.resizeTiles then Ok((|channels|, scene.n0, scene.n2, scene.h, scene.w))
      else if rf == 0 then Err(ZeroDivisionError)
      else Ok((|channels|, scene.n0, scene.n2, metadata.imageShape.0 / rf, metadata.imageShape.1 / rf))
    }

    /** With `resize_tiles` set and a factor for which `_resize` succeeds, when the metadata
        image shape is the tiles' shape, the buffer's plane shape is the shape `_resize` gives
        each tile. */
    lemma NewSizeMatchesResize(scene: Tensor5, p: Plane)
      requires params.resizeTiles && metadata.imageShape == (scene.h, scene.w)
      requires HasShape(p, scene.h, scene.w)
      requires Filters.Resize(lib, params.settings.tileResizeFactor, p).Ok?
      ensures NewSize(scene).Ok?
      ensures HasShape(Filters.Resize(lib, params.settings.tileResizeFactor, p).value,
                       NewSize(scene).value.3, NewSize(scene).value.4)
    {
    }

    /** The chain for a channel index: that of the channel's name (the last name carrying the
        index). The pool is created first, and a pool of fewer than one worker raises
        ValueError. */
    function ChainFor(c: nat): (r: Result<seq<string>>)
      ensures r.Ok? ==> params.parallelProcs >= 1
      ensures r.Ok? ==> exists i | 0 <= i < |params.processChannels| ::
        params.processChannels[i].1 == r.value && ChannelPlan.Get(metadata.channelMap, params.processChannels[i].0) == Some(c)
    {
      var name :- ChannelPlan.ChannelName(metadata.channelMap, c);
      if params.parallelProcs < 1 then Err(ValueError)
      else match ChannelPlan.Get(params.processChannels, name)
        case None => Err(KeyError(NameKey(name)))
        case Some(names) => Ok(names)
    }

    /** With an injective channel map and a usable pool, the chain found for the index of the
        i-th configured channel is that channel's own chain. */
    lemma ChainForListed(i: nat)
      requires Valid()
      requires ChannelPlan.Injective(metadata.channelMap) && params.parallelProcs >= 1
      requires i < |params.processChannels|
      ensures i < |channels| && ChainFor(channels[i]) == Ok(params.processChannels[i].1)
    {
      var name := params.processChannels[i].0;
      assert ChannelPlan.Get(metadata.channelMap, name) == Some(channels[i]);
      ChannelPlan.ChannelNameInverts(metadata.channelMap, name);
      ChannelPlan.GetEntry(params.processChannels, i);
    }

    /** One pass of the `process_tiles` loop for channel c: its (T, M) planes flattened, mapped
        through the channel's chain, and reshaped to (T, M, h2, w2). */
    function ChannelOutput(scene: Tensor5, c: nat, h2: nat, w2: nat): (r: Result<Tensor4>)
      ensures r.Ok? ==> r.value.n0 == scene.n0 && r.value.n1 == scene.n2 && r.value.h == h2 && r.value.w == w2
    {
      if c >= scene.n1 then Err(IndexError)
      else
        var names :- ChainFor(c);
        var flat := Flatten(scene, c);
        var results :- MapChain(TileOps, lib, params.settings, names, flat);
        var shape := ShapeAfter(TileOps, params.settings.tileResizeFactor, names, scene.h, scene.w);
        MapChainShapes(TileOps, lib, params.settings, names, flat, scene.h, scene.w);
        Unflatten(results, scene.n0, scene.n2, shape.0, shape.1, h2, w2)
    }

    /** A successful pass of channel c is the reshape of the chain's ordered map over the
        channel's flattened planes. */
    lemma ChannelOutputUnfolds(scene: Tensor5, c: nat, h2: nat, w2: nat)
      requires ChannelOutput(scene, c, h2, w2).Ok?
      ensures c < scene.n1 && ChainFor(c).Ok?
      ensures MapChain(TileOps, lib, params.settings, ChainFor(c).value, Flatten(scene, c)).Ok?
      ensures forall k | 0 <= k < scene.n0 * scene.n2 ::
        HasShape(MapChain(TileOps, lib, params.settings, ChainFor(c).value, Flatten(scene, c)).value[k],
                 ShapeAfter(TileOps, params.settings.tileResizeFactor, ChainFor(c).value, scene.h, scene.w).0,
                 ShapeAfter(TileOps, params.settings.tileResizeFactor, ChainFor(c).value, scene.h, scene.w).1)
      ensures ChannelOutput(scene, c, h2, w2) ==
        Unflatten(MapChain(TileOps, lib, params.settings, ChainFor(c).value, Flatten(scene, c)).value,
                  scene.n0, scene.n2,
                  ShapeAfter(TileOps, params.settings.tileResizeFactor, ChainFor(c).value, scene.h, scene.w).0,
                  ShapeAfter(TileOps, params.settings.tileResizeFactor, ChainFor(c).value, scene.h, scene.w).1,
                  h2, w2)
    {
      MapChainShapes(TileOps, lib, params.settings, ChainFor(c).value, Flatten(scene, c), scene.h, scene.w);
    }

    /** Plane (t, m) of channel c's pass is the channel's chain applied to input plane
        (t, c, m), reshaped to the buffer's plane shape: the flatten, the ordered map and the
        reshape keep every plane in its place. */
    lemma ChannelOutputAt(scene: Tensor5, c: nat, h2: nat, w2: nat, t: nat, m: nat)
      requires ChannelOutput(scene, c, h2, w2).Ok?
      requires t < scene.n0 && m < scene.n2
      ensures c < scene.n1 && ChainFor(c).Ok?
      ensures Chain(TileOps, lib, params.settings, ChainFor(c).value, scene.at[t][c][m]).Ok?
      ensures var p := Chain(TileOps, lib, params.settings, ChainFor(c).value, scene.at[t][c][m]).value;
        p.h * p.w == h2 * w2 && ChannelOutput(scene, c, h2, w2).value.at[t][m] == Reshape(p, h2, w2)
    {
      ChannelOutputUnfolds(scene, c, h2, w2);
      var names := ChainFor(c).value;
      var flat := Flatten(scene, c);
      var k := t * scene.n2 + m;
      FlattenAt(scene, c, t, m, k);
      var results := MapChain(TileOps, lib, params.settings, names, flat).value;
      var shape := ShapeAfter(TileOps, params.settings.tileResizeFactor, names, scene.h, scene.w);
      assert Chain(TileOps, lib, params.settings, names, flat[k]) == Ok(results[k]);
      UnflattenReshapes(results, scene.n0, scene.n2, shape.0, shape.1, h2, w2, t, m, k);
    }

    /** The result of `process_tiles`: IndexError without a scene, the error of `_get_new_size`,
        the error of the first failing channel, or a 6-D result whose channel slot i holds the
        output of channel `channels[i]`. */
    function ProcessTilesSpec(czi: seq<Tensor5>): (r: Result<seq<Tensor5>>)
      ensures r.Ok? ==> |czi| > 0 && NewSize(czi[0]).Ok? && |r.value| == 1
      ensures r.Ok? ==>
        && r.value[0].n0 == czi[0].n0 && r.value[0].n1 == |channels| && r.value[0].n2 == czi[0].n2
        && r.value[0].h == NewSize(czi[0]).value.3 && r.value[0].w == NewSize(czi[0]).value.4
      ensures r.Ok? ==> forall i | 0 <= i < |channels| ::
        ChannelOutput(czi[0], channels[i], r.value[0].h, r.value[0].w).Ok?
      ensures r.Ok? ==> forall t, i, m | 0 <= t < czi[0].n0 && 0 <= i < |channels| && 0 <= m < czi[0].n2 ::
        r.value[0].at[t][i][m] == ChannelOutput(czi[0], channels[i], r.value[0].h, r.value[0].w).value.at[t][m]
      ensures |czi| > 0 && NewSize(czi[0]).Ok? &&
        (forall i | 0 <= i < |channels| :: ChannelOutput(czi[0], channels[i], NewSize(czi[0]).value.3, NewSize(czi[0]).value.4).Ok?)
        ==> r.Ok?
    {
      if |czi| == 0 then Err(IndexError)
      else
        var scene := czi[0];
        var size :- NewSize(scene);
        var outs :- Collect(ChannelSteps(scene, size.3, size.4));
        var out := ChannelsToScene(scene.n0, scene.n2, size.3, size.4, outs);
        assert out.h == size.3 && out.w == size.4;
        Ok([out])
    }
  
    /** `process_tiles`: the channel slots are processed in order and the (len(channels), T, M)
        buffer is assembled from their planes. */
    method ProcessTiles(czi: seq<Tensor5>) returns (r: Result<seq<Tensor5>>)
      ensures r == ProcessTilesSpec(czi)
    {
      if |czi| == 0 {
        return Err(IndexError);
      }
      var scene := czi[0];
      var size := NewSize(scene);
      if size.Err? {
        return Err(size.error);
      }
      var outs := ProcessChannels(scene, size.value.3, size.value.4);
      if outs.Err? {
        return Err(outs.error);
      }
      ProcessTilesOk(czi, outs.value);
      r := Ok([ChannelsToScene(scene.n0, scene.n2, size.value.3, size.value.4, outs.value)]);
    }

    /** `process_tiles` keeps order: slot (t, i, m) of its result is the chain of channel
        `channels[i]` applied to input plane (t, channels[i], m), reshaped to the buffer's plane
        shape. */
    lemma ProcessTilesAt(czi: seq<Tensor5>, t: nat, i: nat, m: nat)
      requires ProcessTilesSpec(czi).Ok?
      requires t < czi[0].n0 && i < |channels| && m < czi[0].n2
      ensures channels[i] < czi[0].n1 && ChainFor(channels[i]).Ok?
      ensures Chain(TileOps, lib, params.settings, ChainFor(channels[i]).value, czi[0].at[t][channels[i]][m]).Ok?
      ensures var p := Chain(TileOps, lib, params.settings, ChainFor(channels[i]).value, czi[0].at[t][channels[i]][m]).value;
        var out := ProcessTilesSpec(czi).value[0];
        p.h * p.w == out.h * out.w && out.at[t][i][m] == Reshape(p, out.h, out.w)
    {
      var out := ProcessTilesSpec(czi).value[0];
      ChannelOutputAt(czi[0], channels[i], out.h, out.w, t, m);
    }

    /** When the chain's output shape is the buffer's plane shape (no resize, or a buffer sized
        for the resized tiles), slot (t, i, m) is exactly the chain's result on plane
        (t, channels[i], m). */
    lemma ProcessTilesKeepsChain(czi: seq<Tensor5>, t: nat, i: nat, m: nat)
      requires ProcessTilesSpec(czi).Ok?
      requires t < czi[0].n0 && i < |channels| && m < czi[0].n2
      requires ChainFor(channels[i]).Ok?
      requires ShapeAfter(TileOps, params.settings.tileResizeFactor, ChainFor(channels[i]).value, czi[0].h, czi[0].w)
        == (ProcessTilesSpec(czi).value[0].h, ProcessTilesSpec(czi).value[0].w)
      ensures channels[i] < czi[0].n1
      ensures Chain(TileOps, lib, params.settings, ChainFor(channels[i]).value, czi[0].at[t][channels[i]][m]).Ok?
      ensures ProcessTilesSpec(czi).value[0].at[t][i][m] ==
        Chain(TileOps, lib, params.settings, ChainFor(channels[i]).value, czi[0].at[t][channels[i]][m]).value
    {
      ProcessTilesAt(czi, t, i, m);
      var p := Chain(TileOps, lib, params.settings, ChainFor(channels[i]).value, czi[0].at[t][channels[i]][m]).value;
      ChainShape(TileOps, lib, params.settings, ChainFor(channels[i]).value, czi[0].at[t][channels[i]][m]);
      ReshapeToOwnShape(p);
    }

    /** Once every channel slot has succeeded, `process_tiles` returns their stacked planes. */
    lemma ProcessTilesOk(czi: seq<Tensor5>, outs: seq<Tensor4>)
      requires |czi| > 0 && NewSize(czi[0]).Ok?
      requires Collect(ChannelSteps(czi[0], NewSize(czi[0]).value.3, NewSize(czi[0]).value.4)) == Ok(outs)
      ensures forall i | 0 <= i < |outs| ::
        outs[i].n0 == czi[0].n0 && outs[i].n1 == czi[0].n2 && outs[i].h == NewSize(czi[0]).value.3 && outs[i].w == NewSize(czi[0]).value.4
      ensures ProcessTilesSpec(czi) == Ok([ChannelsToScene(czi[0].n0, czi[0].n2, NewSize(czi[0]).value.3, NewSize(czi[0]).value.4, outs)])
    {
    }

    /** The outcome of each channel slot of `process_tiles`, in slot order. */
    function ChannelSteps(scene: Tensor5, h2: nat, w2: nat): (steps: seq<Result<Tensor4>>)
      ensures |steps| == |channels|
      ensures forall i | 0 <= i < |channels| :: steps[i] == ChannelOutput(scene, channels[i], h2, w2)
    {
      seq(|channels|, i requires 0 <= i < |channels| => ChannelOutput(scene, channels[i], h2, w2))
    }

    /** The `process_tiles` loop over the channel slots: `processed_data[i] = new_T` for each
        slot in turn, stopping at the first channel that raises. */
    method ProcessChannels(scene: Tensor5, h2: nat, w2: nat) returns (r: Result<seq<Tensor4>>)
      ensures r == Collect(ChannelSteps(scene, h2, w2))
    {
      ghost var steps := ChannelSteps(scene, h2, w2);
      var processed: seq<Tensor4> := [];
      for i := 0 to |channels|
        invariant Collect(steps[..i]) == Ok(processed)
      {
        var grid := ChannelWork(scene, channels[i], h2, w2);
        if grid.Err? {
          CollectStops(steps, i, processed);
          return Err(grid.error);
        }
        CollectExtend(steps, i, processed);
        processed := processed + [grid.value];
      }
      assert steps[..|channels|] == steps;
      r := Ok(processed);
    }

    /** The body of the `process_tiles` loop for channel c. */
    method ChannelWork(scene: Tensor5, c: nat, h2: nat, w2: nat) returns (r: Result<Tensor4>)
      ensures r == ChannelOutput(scene, c, h2, w2)
    {
      if c >= scene.n1 {
        return Err(IndexError);
      }
      var names := ChainFor(c);
      if names.Err? {
        return Err(names.error);
      }
      var flat := Flatten(scene, c);
      var results := OrderedMap(TileOps, lib, params.settings, names.value, flat);
      if results.Err? {
        return Err(results.error);
      }
      var shape := ShapeAfter(TileOps, params.settings.tileResizeFactor, names.value, scene.h, scene.w);
      MapChainShapes(TileOps, lib, params.settings, names.value, flat, scene.h, scene.w);
      r := Unflatten(results.value, scene.n0, scene.n2, shape.0, shape.1, h2, w2);
    }
  
    /** One quilt of `stitch`: the tiles of (t, c) laid out on the grid by `montage` (gaps filled
        with the tiles' mean) and resized to the quilt shape divided by the quilt resize
        factor. */
    function Quilt(scene: Tensor5, t: nat, c: nat): (r: Result<Plane>)
      requires params.quiltResizeFactor > 0 && t < scene.n0 && c < scene.n1
      ensures r.Err? <==> scene.n2 > 0 && (params.gridShape.1 == 0 || scene.n2 > params.gridShape.0 * params.gridShape.1)
      ensures r.Err? ==> r.error == if params.gridShape.1 == 0 then ZeroDivisionError else IndexError
      ensures r.Ok? ==> HasShape(r.value, QuiltShape(scene).0, QuiltShape(scene).1)
    {
      var stitched :- QuiltMontage(scene, t, c);
      // the montage has shape (rows * Y, cols * X), so `stitched.shape // rf` is the quilt shape
      Ok(Filters.ResizeTo(lib, stitched, QuiltShape(scene).0, QuiltShape(scene).1))
    }

    /** The montage a quilt is resized from: the tiles of (t, c) on the grid, gaps filled with
        the tiles' mean. */
    function QuiltMontage(scene: Tensor5, t: nat, c: nat): (r: Result<Plane>)
      requires t < scene.n0 && c < scene.n1
      ensures r.Err? <==>
        scene.n2 > 0 && (params.gridShape.1 == 0 || scene.n2 > params.gridShape.0 * params.gridShape.1)
      ensures r.Ok? ==> HasShape(r.value, params.gridShape.0 * scene.h, params.gridShape.1 * scene.w)
    {
      var tiles := Fibre(scene, t, c);
      Mosaic.Montage(tiles, scene.h, scene.w, params.gridShape.0, params.gridShape.1, lib.montageFill(tiles))
    }

    /** A quilt is its montage resized to the quilt shape, and it fails exactly when the
        montage does. */
    lemma QuiltIsResizedMontage(scene: Tensor5, t: nat, c: nat)
      requires params.quiltResizeFactor > 0 && t < scene.n0 && c < scene.n1
      ensures Quilt(scene, t, c).Ok? <==> QuiltMontage(scene, t, c).Ok?
      ensures Quilt(scene, t, c).Ok? ==>
        Quilt(scene, t, c) == Ok(Filters.ResizeTo(lib, QuiltMontage(scene, t, c).value, QuiltShape(scene).0, QuiltShape(scene).1))
    {
    }

    /** Before the resize, tile k of (t, c) sits unchanged in grid row k // cols and grid column
        k % cols of the montage. */
    lemma QuiltPlacesTiles(scene: Tensor5, t: nat, c: nat, k: nat)
      requires t < scene.n0 && c < scene.n1 && k < scene.n2
      requires QuiltMontage(scene, t, c).Ok?
      ensures params.gridShape.1 > 0
      ensures Mosaic.SitsAt(QuiltMontage(scene, t, c).value, (k / params.gridShape.1) * scene.h,
                            (k % params.gridShape.1) * scene.w, scene.at[t][c][k])
    {
      var rows, cols := params.gridShape.0, params.gridShape.1;
      var tiles := Fibre(scene, t, c);
      var m := QuiltMontage(scene, t, c).value;
      assert Mosaic.Montage(tiles, scene.h, scene.w, rows, cols, lib.montageFill(tiles)) == Ok(m);
      Arith.RowMajorInverse(k, rows, cols);
      Mosaic.MontageRoundTrip(tiles, scene.h, scene.w, rows, cols, lib.montageFill(tiles), m,
                              k / cols, k % cols, k);
    }

    /** The quilts of time point t, in channel order. */
    function QuiltSteps(scene: Tensor5, t: nat): (steps: seq<Result<Plane>>)
      requires params.quiltResizeFactor > 0 && t < scene.n0
      ensures |steps| == scene.n1
      ensures forall c | 0 <= c < scene.n1 :: steps[c] == Quilt(scene, t, c)
    {
      seq(scene.n1, c requires 0 <= c < scene.n1 => Quilt(scene, t, c))
    }

    /** The inner loop of `stitch` for each time point, in time order. */
    function QuiltRows(scene: Tensor5): (rows: seq<Result<seq<Plane>>>)
      requires params.quiltResizeFactor > 0
      ensures |rows| == scene.n0
      ensures forall t | 0 <= t < scene.n0 :: rows[t] == Collect(QuiltSteps(scene, t))
    {
      seq(scene.n0, t requires 0 <= t < scene.n0 => Collect(QuiltSteps(scene, t)))
    }

    /** The quilt shape `((Y * rows) // rf, (X * cols) // rf)`. */
    function QuiltShape(scene: Tensor5): (nat, nat)
      requires params.quiltResizeFactor > 0
    {
      ((params.gridShape.0 * scene.h) / params.quiltResizeFactor, (params.gridShape.1 * scene.w) / params.quiltResizeFactor)
    }

    /** The result of `stitch`: IndexError without a scene, ZeroDivisionError for a quilt resize
        factor of 0 (raised while computing the output shape, before any montage), the error of
        the first failing montage in (t, c) order, or a 6-D result (1, T, C, 1, Y', X') holding
        the resized quilts. `resize_quilt` is not consulted. */
    function StitchSpec(czi: seq<Tensor5>): (r: Result<seq<Tensor5>>)
    {
      if |czi| == 0 then Err(IndexError)
      else if params.quiltResizeFactor == 0 then Err(ZeroDivisionError)
      else
        var scene := czi[0];
        var quilts :- Collect(QuiltRows(scene));
        QuiltRowsOk(scene, quilts);
        var shape := QuiltShape(scene);
        Ok([QuiltsToScene(scene.n1, shape.0, shape.1, quilts)])
    }

    /** A successful `stitch` returns one (T, C, 1) scene of the quilt shape whose plane (t, c)
        is the quilt of the tiles of (t, c). */
    lemma StitchHoldsQuilts(czi: seq<Tensor5>)
      ensures StitchSpec(czi).Ok? ==> |czi| > 0 && params.quiltResizeFactor > 0 && |StitchSpec(czi).value| == 1
      ensures StitchSpec(czi).Ok? ==>
        var out := StitchSpec(czi).value[0];
        && out.n0 == czi[0].n0 && out.n1 == czi[0].n1 && out.n2 == 1 && (out.h, out.w) == QuiltShape(czi[0])
        && forall t, c | 0 <= t < czi[0].n0 && 0 <= c < czi[0].n1 :: Quilt(czi[0], t, c) == Ok(out.at[t][c][0])
    {
      if StitchSpec(czi).Ok? {
        var scene := czi[0];
        var quilts := Collect(QuiltRows(scene)).value;
        QuiltRowsOk(scene, quilts);
        forall t, c | 0 <= t < scene.n0 && 0 <= c < scene.n1
          ensures Quilt(scene, t, c) == Ok(quilts[t][c])
        {
          assert QuiltRows(scene)[t] == Ok(quilts[t]);
          assert QuiltSteps(scene, t)[c] == Quilt(scene, t, c);
        }
      }
    }

    /** `stitch` fails exactly when there is no scene, the quilt resize factor is 0, or there is
        a (t, c) pair whose tiles do not fit the grid; the montage error is ZeroDivisionError for
        a grid without columns and IndexError for too few cells. */
    lemma StitchFails(czi: seq<Tensor5>)
      ensures StitchSpec(czi).Err? <==>
        || |czi| == 0 || params.quiltResizeFactor == 0
        || (czi[0].n0 > 0 && czi[0].n1 > 0 && czi[0].n2 > 0 &&
            (params.gridShape.1 == 0 || czi[0].n2 > params.gridShape.0 * params.gridShape.1))
      ensures StitchSpec(czi).Err? ==>
        StitchSpec(czi).error == (if |czi| == 0 then IndexError
          else if params.quiltResizeFactor == 0 || params.gridShape.1 == 0 then ZeroDivisionError
          else IndexError)
    {
      if |czi| > 0 && params.quiltResizeFactor > 0 {
        var scene := czi[0];
        var rows := QuiltRows(scene);
        if scene.n0 > 0 && scene.n1 > 0 && scene.n2 > 0 &&
           (params.gridShape.1 == 0 || scene.n2 > params.gridShape.0 * params.gridShape.1) {
          CollectFirstError(QuiltSteps(scene, 0), 0);
          CollectFirstError(rows, 0);
        }
      }
    }

    /** The values of a successful `stitch` loop: T rows of C quilts, each of the quilt
        shape. */
    lemma QuiltRowsOk(scene: Tensor5, quilts: seq<seq<Plane>>)
      requires params.quiltResizeFactor > 0
      requires Collect(QuiltRows(scene)) == Ok(quilts)
      ensures |quilts| == scene.n0
      ensures forall t | 0 <= t < scene.n0 :: |quilts[t]| == scene.n1
      ensures forall t, c | 0 <= t < scene.n0 && 0 <= c < scene.n1 ::
        HasShape(quilts[t][c], QuiltShape(scene).0, QuiltShape(scene).1)
    {
      var rows := QuiltRows(scene);
      forall t, c | 0 <= t < scene.n0 && 0 <= c < scene.n1
        ensures HasShape(quilts[t][c], QuiltShape(scene).0, QuiltShape(scene).1)
      {
        assert rows[t] == Ok(quilts[t]);
        assert QuiltSteps(scene, t)[c] == Quilt(scene, t, c);
      }
    }

    /** `stitch`: the quilts computed time point by time point and assembled into the
        (T, C, 1) buffer. */
    method Stitch(czi: seq<Tensor5>) returns (r: Result<seq<Tensor5>>)
      ensures r == StitchSpec(czi)
    {
      if |czi| == 0 {
        return Err(IndexError);
      }
      if params.quiltResizeFactor == 0 {
        return Err(ZeroDivisionError);
      }
      var scene := czi[0];
      var quilts := StitchTimes(scene);
      if quilts.Err? {
        return Err(quilts.error);
      }
      QuiltRowsOk(scene, quilts.value);
      var shape := QuiltShape(scene);
      r := Ok([QuiltsToScene(scene.n1, shape.0, shape.1, quilts.value)]);
    }

    /** The outer loop of `stitch`, over the time points. */
    method StitchTimes(scene: Tensor5) returns (r: Result<seq<seq<Plane>>>)
      requires params.quiltResizeFactor > 0
      ensures r == Collect(QuiltRows(scene))
    {
      ghost var rows := QuiltRows(scene);
      var stitched: seq<seq<Plane>> := [];
      for t := 0 to scene.n0
        invariant Collect(rows[..t]) == Ok(stitched)
      {
        var row := StitchTime(scene, t);
        if row.Err? {
          CollectStops(rows, t, stitched);
          return Err(row.error);
        }
        CollectExtend(rows, t, stitched);
        stitched := stitched + [row.value];
      }
      assert rows[..scene.n0] == rows;
      r := Ok(stitched);
    }

    /** The inner loop of `stitch` for time point t, over the channels: the quilt of each
        channel in turn, stopping at the first montage that raises. */
    method StitchTime(scene: Tensor5, t: nat) returns (r: Result<seq<Plane>>)
      requires params.quiltResizeFactor > 0 && t < scene.n0
      ensures r == Collect(QuiltSteps(scene, t))
    {
      ghost var steps := QuiltSteps(scene, t);
      var row: seq<Plane> := [];
      for c := 0 to scene.n1
        invariant Collect(steps[..c]) == Ok(row)
      {
        var quilt := Quilt(scene, t, c);
        if quilt.Err? {
          CollectStops(steps, c, row);
          return Err(quilt.error);
        }
        CollectExtend(steps, c, row);
        row := row + [quilt.value];
      }
      assert steps[..scene.n1] == steps;
      r := Ok(row);
    }
    /** One pass of the `process_stitched` loop for channel c: a pool of `parallel_procs`
        workers (ValueError below one), the stitch chain over the channel's T planes, and the
        assignment of the results into the channel's (T, Y, X) slot of the zero buffer. With
        T = 0 the results are `np.asarray([])`, of shape (0,), which fits the slot only when X
        is 0. */
    function StitchedChannel(scene: Tensor5, c: nat): (r: Result<seq<Plane>>)
      requires scene.n2 == 1 && c < scene.n1
      ensures r.Ok? ==> |r.value| == scene.n0
      ensures r.Ok? ==> forall t | 0 <= t < scene.n0 :: HasShape(r.value[t], scene.h, scene.w)
    {
      if params.parallelProcs < 1 then Err(ValueError)
      else
        var results :- MapChain(TileOps, lib, params.settings, params.stitchProcessing, TimePlanes(scene, c));
        if scene.n0 == 0 then (if scene.w == 0 then Ok([]) else Err(ValueError))
        else BroadcastAll(results, scene.h, scene.w)
    }

    /** The outcome of each channel of `process_stitched`, in channel order. */
    function StitchedSteps(scene: Tensor5): (steps: seq<Result<seq<Plane>>>)
      requires scene.n2 == 1
      ensures |steps| == scene.n1
      ensures forall c | 0 <= c < scene.n1 :: steps[c] == StitchedChannel(scene, c)
    {
      seq(scene.n1, c requires 0 <= c < scene.n1 => StitchedChannel(scene, c))
    }

    /** The values of a successful `process_stitched` loop: C channels of T planes, each of
        the scene's plane shape. */
    lemma StitchedStepsOk(scene: Tensor5, outs: seq<seq<Plane>>)
      requires scene.n2 == 1
      requires Collect(StitchedSteps(scene)) == Ok(outs)
      ensures |outs| == scene.n1
      ensures forall c | 0 <= c < scene.n1 :: |outs[c]| == scene.n0
      ensures forall c, t | 0 <= c < scene.n1 && 0 <= t < scene.n0 :: HasShape(outs[c][t], scene.h, scene.w)
    {
      forall c | 0 <= c < scene.n1
        ensures |outs[c]| == scene.n0
        ensures forall t | 0 <= t < scene.n0 :: HasShape(outs[c][t], scene.h, scene.w)
      {
        assert StitchedSteps(scene)[c] == Ok(outs[c]);
      }
    }

    /** The result of `process_stitched`: IndexError without a scene, ValueError when the tile
        axis is not of length 1 (`np.squeeze`), the error of the first failing channel, or a
        6-D result (1, T, C, 1, Y, X) holding the processed planes. */
    function ProcessStitchedSpec(czi: seq<Tensor5>): (r: Result<seq<Tensor5>>)
    {
      if |czi| == 0 then Err(IndexError)
      else if czi[0].n2 != 1 then Err(ValueError)
      else
        var scene := czi[0];
        var outs :- Collect(StitchedSteps(scene));
        StitchedStepsOk(scene, outs);
        Ok([ChannelMajorToScene(scene.n0, scene.h, scene.w, outs)])
    }

    /** The chain result for plane (t, c, 0) of a stitched scene. */
    function StitchedPlane(scene: Tensor5, t: nat, c: nat): Result<Plane>
      requires t < scene.n0 && c < scene.n1 && scene.n2 == 1
    {
      Chain(TileOps, lib, params.settings, params.stitchProcessing, scene.at[t][c][0])
    }

    /** A channel succeeds exactly when the pool can be created and either there are no time
        points and no columns, or every chain succeeds and the chain's output shape fits the
        slot. */
    lemma StitchedChannelOk(scene: Tensor5, c: nat)
      requires scene.n2 == 1 && c < scene.n1
      ensures StitchedChannel(scene, c).Ok? <==>
        && params.parallelProcs >= 1
        && if scene.n0 == 0 then scene.w == 0
           else
             && (forall t | 0 <= t < scene.n0 :: StitchedPlane(scene, t, c).Ok?)
             && Fits(ShapeAfter(TileOps, params.settings.tileResizeFactor, params.stitchProcessing, scene.h, scene.w), scene.h, scene.w)
      ensures StitchedChannel(scene, c).Ok? ==> forall t | 0 <= t < scene.n0 ::
        StitchedPlane(scene, t, c).Ok? && Broadcast(StitchedPlane(scene, t, c).value, scene.h, scene.w) == Ok(StitchedChannel(scene, c).value[t])
    {
      var planes := TimePlanes(scene, c);
      var names := params.stitchProcessing;
      if params.parallelProcs >= 1 && scene.n0 > 0 {
        var m := MapChain(TileOps, lib, params.settings, names, planes);
        forall t | 0 <= t < scene.n0
          ensures Chain(TileOps, lib, params.settings, names, planes[t]) == StitchedPlane(scene, t, c)
        {
        }
        if m.Ok? {
          StitchedBroadcast(scene, c, m.value);
        }
      }
    }

    /** The assignment step of a channel whose chains all succeeded. */
    lemma StitchedBroadcast(scene: Tensor5, c: nat, results: seq<Plane>)
      requires scene.n2 == 1 && c < scene.n1 && scene.n0 > 0
      requires MapChain(TileOps, lib, params.settings, params.stitchProcessing, TimePlanes(scene, c)) == Ok(results)
      ensures BroadcastAll(results, scene.h, scene.w).Ok? <==>
        Fits(ShapeAfter(TileOps, params.settings.tileResizeFactor, params.stitchProcessing, scene.h, scene.w), scene.h, scene.w)
    {
      var shape := ShapeAfter(TileOps, params.settings.tileResizeFactor, params.stitchProcessing, scene.h, scene.w);
      MapChainShapes(TileOps, lib, params.settings, params.stitchProcessing, TimePlanes(scene, c), scene.h, scene.w);
      assert forall t | 0 <= t < |results| :: HasShape(results[t], shape.0, shape.1);
      assert HasShape(results[0], shape.0, shape.1);
    }

    /** `process_stitched` succeeds exactly when there is a scene with a tile axis of length 1
        whose channels all succeed; it raises IndexError without a scene and ValueError for a
        tile axis of another length or, when there is a channel, a pool of fewer than one
        worker. */
    lemma ProcessStitchedOk(czi: seq<Tensor5>)
      ensures ProcessStitchedSpec(czi).Ok? <==>
        |czi| > 0 && czi[0].n2 == 1 && forall c | 0 <= c < czi[0].n1 :: StitchedChannel(czi[0], c).Ok?
      ensures |czi| == 0 ==> ProcessStitchedSpec(czi) == Err(IndexError)
      ensures |czi| > 0 && czi[0].n2 != 1 ==> ProcessStitchedSpec(czi) == Err(ValueError)
      ensures |czi| > 0 && czi[0].n2 == 1 && czi[0].n1 > 0 && params.parallelProcs < 1 ==>
        ProcessStitchedSpec(czi) == Err(ValueError)
    {
      if |czi| > 0 && czi[0].n2 == 1 {
        var steps := StitchedSteps(czi[0]);
        if czi[0].n1 > 0 && params.parallelProcs < 1 {
          CollectFirstError(steps, 0);
        }
      }
    }

    /** A successful `process_stitched` keeps the scene's extents (T, C, 1, Y, X), and plane
        (t, c) of its result is the stitch chain's result for plane (t, c) assigned into a
        (Y, X) slot. */
    lemma ProcessStitchedValues(czi: seq<Tensor5>)
      requires ProcessStitchedSpec(czi).Ok?
      ensures |czi| > 0 && czi[0].n2 == 1 && |ProcessStitchedSpec(czi).value| == 1
      ensures
        var out := ProcessStitchedSpec(czi).value[0];
        && out.n0 == czi[0].n0 && out.n1 == czi[0].n1 && out.n2 == 1 && out.h == czi[0].h && out.w == czi[0].w
        && forall t, c | 0 <= t < czi[0].n0 && 0 <= c < czi[0].n1 ::
             StitchedPlane(czi[0], t, c).Ok? && Broadcast(StitchedPlane(czi[0], t, c).value, czi[0].h, czi[0].w) == Ok(out.at[t][c][0])
    {
      var scene := czi[0];
      var outs := Collect(StitchedSteps(scene)).value;
      StitchedStepsOk(scene, outs);
      forall t, c | 0 <= t < scene.n0 && 0 <= c < scene.n1
        ensures StitchedPlane(scene, t, c).Ok? && Broadcast(StitchedPlane(scene, t, c).value, scene.h, scene.w) == Ok(outs[c][t])
      {
        assert StitchedSteps(scene)[c] == Ok(outs[c]);
        StitchedChannelOk(scene, c);
      }
    }

    /** With a stitch chain that never resizes, plane (t, c) of the result of
        `process_stitched` is the chain's result for plane (t, c) itself. */
    lemma ProcessStitchedNoResize(czi: seq<Tensor5>, t: nat, c: nat)
      requires NoResize(TileOps, params.stitchProcessing)
      requires ProcessStitchedSpec(czi).Ok?
      requires |czi| > 0 && t < czi[0].n0 && c < czi[0].n1
      ensures czi[0].n2 == 1 && StitchedPlane(czi[0], t, c).Ok?
      ensures ProcessStitchedSpec(czi).value[0].at[t][c][0] == StitchedPlane(czi[0], t, c).value
    {
      ProcessStitchedValues(czi);
      var p := czi[0].at[t][c][0];
      ChainShape(TileOps, lib, params.settings, params.stitchProcessing, p);
      ShapeAfterNoResize(TileOps, params.settings.tileResizeFactor, params.stitchProcessing, p.h, p.w);
      BroadcastSameShape(StitchedPlane(czi[0], t, c).value);
    }

    /** With an empty stitch chain and a pool that can be created, `process_stitched` returns
        its scene unchanged (when it has time points, or no columns). */
    lemma ProcessStitchedEmptyChain(czi: seq<Tensor5>)
      requires params.stitchProcessing == [] && params.parallelProcs >= 1
      requires |czi| > 0 && czi[0].n2 == 1 && (czi[0].n0 > 0 || czi[0].w == 0)
      ensures ProcessStitchedSpec(czi) == Ok([czi[0]])
    {
      var scene := czi[0];
      forall c | 0 <= c < scene.n1
        ensures StitchedChannel(scene, c).Ok?
      {
        EmptyChainChannel(scene, c);
      }
      ProcessStitchedOk(czi);
      var out := ProcessStitchedSpec(czi).value[0];
      ProcessStitchedValues(czi);
      forall t, i, k | 0 <= t < scene.n0 && 0 <= i < scene.n1 && 0 <= k < scene.n2
        ensures out.at[t][i][k] == scene.at[t][i][k]
      {
        assert k == 0;
        BroadcastSameShape(scene.at[t][i][0]);
      }
      Extensionality5(out, scene);
    }

    /** With an empty stitch chain and a pool that can be created, each channel succeeds. */
    lemma EmptyChainChannel(scene: Tensor5, c: nat)
      requires params.stitchProcessing == [] && params.parallelProcs >= 1
      requires scene.n2 == 1 && c < scene.n1 && (scene.n0 > 0 || scene.w == 0)
      ensures StitchedChannel(scene, c).Ok?
    {
      StitchedChannelOk(scene, c);
      assert ShapeAfter(TileOps, params.settings.tileResizeFactor, [], scene.h, scene.w) == (scene.h, scene.w);
    }

    /** `process_stitched`: the channels are processed in order and their planes assigned into
        the (C, T, Y, X) buffer. */
    method ProcessStitched(czi: seq<Tensor5>) returns (r: Result<seq<Tensor5>>)
      ensures r == ProcessStitchedSpec(czi)
    {
      if |czi| == 0 {
        return Err(IndexError);
      }
      var scene := czi[0];
      if scene.n2 != 1 {
        return Err(ValueError);
      }
      ghost var steps := StitchedSteps(scene);
      var processed: seq<seq<Plane>> := [];
      for c := 0 to scene.n1
        invariant Collect(steps[..c]) == Ok(processed)
      {
        var planes := StitchedChannelWork(scene, c);
        if planes.Err? {
          CollectStops(steps, c, processed);
          return Err(planes.error);
        }
        CollectExtend(steps, c, processed);
        processed := processed + [planes.value];
      }
      assert steps[..scene.n1] == steps;
      StitchedStepsOk(scene, processed);
      r := Ok([ChannelMajorToScene(scene.n0, scene.h, scene.w, processed)]);
    }

    /** The body of the `process_stitched` loop for channel c. */
    method StitchedChannelWork(scene: Tensor5, c: nat) returns (r: Result<seq<Plane>>)
      requires scene.n2 == 1 && c < scene.n1
      ensures r == StitchedChannel(scene, c)
    {
      if params.parallelProcs < 1 {
        return Err(ValueError);
      }
      var planes := TimePlanes(scene, c);
      var results := OrderedMap(TileOps, lib, params.settings, params.stitchProcessing, planes);
      if results.Err? {
        return Err(results.error);
      }
      if scene.n0 == 0 {
        return if scene.w == 0 then Ok([]) else Err(ValueError);
      }
      r := BroadcastAll(results.value, scene.h, scene.w);
    }
  }
}
