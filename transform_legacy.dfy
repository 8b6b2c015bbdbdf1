/** The older ParallelTransformer: one chain shared by every listed channel, unlisted channels
    copied through unchanged, and a stitch without resizing or leading stub axis.

    Layouts as in TileTransform: a scene is a `Tensor5` with leading axes (T, C, M) over (Y, X)
    planes, and a 6-D result `(1, T, C, M, Y, X)` is a one-element sequence of scenes. */
module LegacyTransform {
  import opened Outcomes
  import opened Images
  import opened Tensors
  import opened Operations
  import ChannelPlan
  import Filters
  import Mosaic
  import Arith

  /** The `ops` table: 10 names. `log` is declared without `self`. */
  const LegacyOps: map<string, Op> := map[
    "ball" := Ball, "dilate" := Dilate, "dilate_s" := DilateStatic, "rescale" := RescaleRange,
    "eq_hist" := EqHist, "eq_ada_hist" := AdaptHist, "log" := UnboundLog, "blur" := Blur,
    "gamma" := Gamma, "otsu" := Otsu]

  /** The configuration the older transformer reads. */
  datatype LegacyParams = LegacyParams(
    processChannels: seq<string>,   // the channels to process, by name
    processChain: seq<string>,      // the one chain for all of them
    settings: Settings,             // the operations' parameters
    gridShape: (nat, nat)           // (rows, cols)
  )

  /** No operation of the table resizes, so every chain keeps the shape of its plane. */
  lemma LegacyChainsKeepShape(names: seq<string>, rf: nat, h: nat, w: nat)
    ensures ShapeAfter(LegacyOps, rf, names, h, w) == (h, w)
  {
    assert NoResize(LegacyOps, names);
    ShapeAfterNoResize(LegacyOps, rf, names, h, w);
  }

  /** `log` always raises: a chain that reaches it fails with TypeError, unless a step before it
      has already raised. */
  lemma LogRaises(lib: Filters.Numerics, s: Settings, before: seq<string>, after: seq<string>, p: Plane)
    ensures Chain(LegacyOps, lib, s, before + ["log"] + after, p) ==
      match Chain(LegacyOps, lib, s, before, p)
      case Ok(_) => Err(TypeError)
      case Err(e) => Err(e)
  {
    assert before + ["log"] + after == before + (["log"] + after);
    ChainAppend(LegacyOps, lib, s, before, ["log"] + after, p);
    var q := Chain(LegacyOps, lib, s, before, p);
    if q.Ok? {
      LogFirst(lib, s, after, q.value);
    }
  }

  /** A chain that starts with `log` raises TypeError. */
  lemma LogFirst(lib: Filters.Numerics, s: Settings, after: seq<string>, p: Plane)
    ensures Chain(LegacyOps, lib, s, ["log"] + after, p) == Err(TypeError)
  {
    var names := ["log"] + after;
    assert names[0] == "log" && LegacyOps[names[0]] == UnboundLog;
  }

  class LegacyTransformer {
    const params: LegacyParams
    const channelMap: ChannelPlan.ChannelMap
    const lib: Filters.Numerics
    /** The channel index of each listed channel name, in list order. */
    const channels: seq<nat>

    /** The channel indices are those of the listed channel names. */
    ghost predicate Valid() {
      ChannelPlan.Resolved(channelMap, params.processChannels, channels)
    }

    constructor (params: LegacyParams, channelMap: ChannelPlan.ChannelMap, lib: Filters.Numerics, channels: seq<nat>)
      requires ChannelPlan.Resolved(channelMap, params.processChannels, channels)
      ensures this.params == params && this.channelMap == channelMap && this.lib == lib
      ensures this.channels == channels
      ensures Valid()
    {
      this.params := params;
      this.channelMap := channelMap;
      this.lib := lib;
      this.channels := channels;
    }

    /** `__init__`: resolve the listed channel names to indices (KeyError for the first unknown
        name) and keep the configuration. */
    static method Create(params: LegacyParams, channelMap: ChannelPlan.ChannelMap, lib: Filters.Numerics)
      returns (r: Result<LegacyTransformer>)
      ensures r.Ok? <==> forall i | 0 <= i < |params.processChannels| ::
        ChannelPlan.Get(channelMap, params.processChannels[i]).Some?
      ensures r.Ok? ==> fresh(r.value) && r.value.Valid()
      ensures r.Ok? ==> r.value.params == params && r.value.channelMap == channelMap && r.value.lib == lib
      ensures r.Err? ==> exists i | 0 <= i < |params.processChannels| ::
        && ChannelPlan.Get(channelMap, params.processChannels[i]).None?
        && (forall j | 0 <= j < i :: ChannelPlan.Get(channelMap, params.processChannels[j]).Some?)
        && r.error == KeyError(NameKey(params.processChannels[i]))
    {
      var indices := ChannelPlan.GetChannelIndices(channelMap, params.processChannels);
      if indices.Err? {
        return Err(indices.error);
      }
      var t := new LegacyTransformer(params, channelMap, lib, indices.value);
      r := Ok(t);
    }

    /** `_process_image`: the shared chain. */
    function ProcessImage(p: Plane): (r: Result<Plane>)
      ensures r.Ok? ==> HasShape(r.value, p.h, p.w)
    {
      var out := Chain(LegacyOps, lib, params.settings, params.processChain, p);
      if out.Ok? then
        ChainShape(LegacyOps, lib, params.settings, params.processChain, p);
        LegacyChainsKeepShape(params.processChain, params.settings.tileResizeFactor, p.h, p.w);
        out
      else out
    }

    /** One pass of the `single_channel_process` loop: the chain on tile i, assigned into the
        tile's slot of the zero buffer. */
    function TileResult(p: Plane): Result<Plane> {
      var q :- ProcessImage(p);
      Broadcast(q, p.h, p.w)
    }

    /** The assignment never fails and never changes the plane: the chain keeps the shape. */
    lemma TileResultIsChain(p: Plane)
      ensures TileResult(p) == ProcessImage(p)
    {
      var q := ProcessImage(p);
      if q.Ok? {
        ChainShape(LegacyOps, lib, params.settings, params.processChain, p);
        LegacyChainsKeepShape(params.processChain, params.settings.tileResizeFactor, p.h, p.w);
        BroadcastSameShape(q.value);
      }
    }

    /** The outcome of each pass of the `single_channel_process` loop, in tile order. */
    function TileSteps(tiles: seq<Plane>): (steps: seq<Result<Plane>>)
      ensures |steps| == |tiles|
      ensures forall i | 0 <= i < |tiles| :: steps[i] == TileResult(tiles[i])
    {
      seq(|tiles|, i requires 0 <= i < |tiles| => TileResult(tiles[i]))
    }

    /** The `single_channel_process` loop computes the chain's map over the tiles. */
    lemma TileStepsAreMap(tiles: seq<Plane>)
      ensures Collect(TileSteps(tiles)) == MapChain(LegacyOps, lib, params.settings, params.processChain, tiles)
    {
      var steps := TileSteps(tiles);
      var chains := ChainSteps(LegacyOps, lib, params.settings, params.processChain, tiles);
      forall i | 0 <= i < |tiles|
        ensures steps[i] == chains[i]
      {
        TileResultIsChain(tiles[i]);
      }
      assert steps == chains;
    }

    /** `single_channel_process(M)`: tile i of the result is `_process_image(M[i])`, so the
        result has the shape of M; the first failing tile decides the error. */
    method SingleChannelProcess(tiles: seq<Plane>) returns (r: Result<seq<Plane>>)
      ensures r == MapChain(LegacyOps, lib, params.settings, params.processChain, tiles)
    {
      ghost var steps := TileSteps(tiles);
      var done: seq<Plane> := [];
      for i := 0 to |tiles|
        invariant Collect(steps[..i]) == Ok(done)
      {
        var slot := TileWork(tiles[i]);
        if slot.Err? {
          CollectStops(steps, i, done);
          TileStepsAreMap(tiles);
          return Err(slot.error);
        }
        CollectExtend(steps, i, done);
        done := done + [slot.value];
      }
      assert steps[..|tiles|] == steps;
      TileStepsAreMap(tiles);
      r := Ok(done);
    }

    /** The body of the `single_channel_process` loop: `M_new[i] = self._process_image(M[i])`. */
    method TileWork(p: Plane) returns (r: Result<Plane>)
      ensures r == TileResult(p)
    {
      var q := RunChain(LegacyOps, lib, params.settings, params.processChain, p);
      if q.Err? {
        return Err(q.error);
      }
      r := Broadcast(q.value, p.h, p.w);
    }

    /** The `pool.map(single_channel_process, T)` of channel c: one map per time point. */
    function StackSteps(scene: Tensor5, c: nat): (steps: seq<Result<seq<Plane>>>)
      requires c < scene.n1
      ensures |steps| == scene.n0
      ensures forall t | 0 <= t < scene.n0 ::
        steps[t] == MapChain(LegacyOps, lib, params.settings, params.processChain, Fibre(scene, t, c))
    {
      seq(scene.n0, t requires 0 <= t < scene.n0 =>
        MapChain(LegacyOps, lib, params.settings, params.processChain, Fibre(scene, t, c)))
    }

    /** The values of a successful map over channel c: plane (t, m) is the chain's result for
        plane (t, c, m), of the same shape. */
    lemma StackStepsOk(scene: Tensor5, c: nat, grids: seq<seq<Plane>>)
      requires c < scene.n1
      requires Collect(StackSteps(scene, c)) == Ok(grids)
      ensures |grids| == scene.n0
      ensures forall t | 0 <= t < scene.n0 :: |grids[t]| == scene.n2
      ensures forall t, m | 0 <= t < scene.n0 && 0 <= m < scene.n2 ::
        ProcessImage(scene.at[t][c][m]) == Ok(grids[t][m]) && HasShape(grids[t][m], scene.h, scene.w)
    {
      forall t, m | 0 <= t < scene.n0 && 0 <= m < scene.n2
        ensures |grids[t]| == scene.n2
        ensures ProcessImage(scene.at[t][c][m]) == Ok(grids[t][m]) && HasShape(grids[t][m], scene.h, scene.w)
      {
        assert StackSteps(scene, c)[t] == Ok(grids[t]);
        var p := scene.at[t][c][m];
        assert Fibre(scene, t, c)[m] == p;
        ChainShape(LegacyOps, lib, params.settings, params.processChain, p);
        LegacyChainsKeepShape(params.processChain, params.settings.tileResizeFactor, p.h, p.w);
      }
      forall t | 0 <= t < scene.n0
        ensures |grids[t]| == scene.n2
      {
        assert StackSteps(scene, c)[t] == Ok(grids[t]);
      }
    }

    /** Slot c of `processed_data`: a listed channel is mapped through `single_channel_process`
        stack by stack (with no time points the empty list becomes an array of shape (0,),
        which fits the (0, M, Y, X) slot only when X is 0); any other channel is copied. */
    function ChannelSlot(scene: Tensor5, c: nat): (r: Result<Tensor4>)
      requires c < scene.n1
      ensures r.Ok? ==> r.value.n0 == scene.n0 && r.value.n1 == scene.n2 && r.value.h == scene.h && r.value.w == scene.w
    {
      if c !in channels then Ok(ChannelGrid(scene, c))
      else
        var grids :- Collect(StackSteps(scene, c));
        if scene.n0 == 0 && scene.w != 0 then Err(ValueError)
        else
          StackStepsOk(scene, c, grids);
          Ok(Stack4(scene.n0, scene.n2, scene.h, scene.w, grids))
    }

    /** The outcome of each channel slot of `process`, in channel order. */
    function ChannelSlots(scene: Tensor5): (steps: seq<Result<Tensor4>>)
      ensures |steps| == scene.n1
      ensures forall c | 0 <= c < scene.n1 :: steps[c] == ChannelSlot(scene, c)
    {
      seq(scene.n1, c requires 0 <= c < scene.n1 => ChannelSlot(scene, c))
    }

    /** The result of `process`: IndexError without a scene, the error of the first failing
        channel, or a 6-D result with the scene's own extents (1, T, C, M, Y, X). */
    function ProcessSpec(czi: seq<Tensor5>): (r: Result<seq<Tensor5>>)
    {
      if |czi| == 0 then Err(IndexError)
      else
        var scene := czi[0];
        var outs :- Collect(ChannelSlots(scene));
        assert forall c | 0 <= c < |outs| :: ChannelSlots(scene)[c] == Ok(outs[c]);
        Ok([ChannelsToScene(scene.n0, scene.n2, scene.h, scene.w, outs)])
    }

    /** A channel slot succeeds exactly when the channel is copied, or every chain on it
        succeeds and, without time points, the plane has no columns. */
    lemma ChannelSlotOk(scene: Tensor5, c: nat)
      requires c < scene.n1
      ensures ChannelSlot(scene, c).Ok? <==>
        c !in channels ||
        ((scene.n0 == 0 ==> scene.w == 0) &&
         forall t, m | 0 <= t < scene.n0 && 0 <= m < scene.n2 :: ProcessImage(scene.at[t][c][m]).Ok?)
    {
      if c in channels {
        var steps := StackSteps(scene, c);
        if forall t, m | 0 <= t < scene.n0 && 0 <= m < scene.n2 :: ProcessImage(scene.at[t][c][m]).Ok? {
          forall t | 0 <= t < scene.n0
            ensures steps[t].Ok?
          {
            assert forall m | 0 <= m < scene.n2 :: Fibre(scene, t, c)[m] == scene.at[t][c][m];
          }
        } else {
          var t, m :| 0 <= t < scene.n0 && 0 <= m < scene.n2 && ProcessImage(scene.at[t][c][m]).Err?;
          assert Fibre(scene, t, c)[m] == scene.at[t][c][m];
          assert steps[t].Err?;
        }
      }
    }

    /** `process` succeeds exactly when there is a scene whose channel slots all succeed. */
    lemma ProcessOk(czi: seq<Tensor5>)
      ensures ProcessSpec(czi).Ok? <==>
        |czi| > 0 && forall c | 0 <= c < czi[0].n1 :: ChannelSlot(czi[0], c).Ok?
      ensures |czi| == 0 ==> ProcessSpec(czi) == Err(IndexError)
    {
    }

    /** A successful `process` returns one scene with the input scene's extents, whose unlisted
        channels are copies of the input's and whose listed channels hold the chain's results,
        plane by plane. */
    lemma ProcessValues(czi: seq<Tensor5>)
      requires ProcessSpec(czi).Ok?
      ensures |czi| > 0 && |ProcessSpec(czi).value| == 1
      ensures
        var out := ProcessSpec(czi).value[0];
        && out.n0 == czi[0].n0 && out.n1 == czi[0].n1 && out.n2 == czi[0].n2
        && out.h == czi[0].h && out.w == czi[0].w
        && (forall t, c, m | 0 <= t < out.n0 && 0 <= c < out.n1 && 0 <= m < out.n2 && c !in channels ::
              out.at[t][c][m] == czi[0].at[t][c][m])
        && (forall t, c, m | 0 <= t < out.n0 && 0 <= c < out.n1 && 0 <= m < out.n2 && c in channels ::
              ProcessImage(czi[0].at[t][c][m]) == Ok(out.at[t][c][m]))
    {
      var scene := czi[0];
      var outs := Collect(ChannelSlots(scene)).value;
      forall c | 0 <= c < scene.n1 && c in channels
        ensures forall t, m | 0 <= t < scene.n0 && 0 <= m < scene.n2 ::
          ProcessImage(scene.at[t][c][m]) == Ok(outs[c].at[t][m])
      {
        assert ChannelSlots(scene)[c] == Ok(outs[c]);
        StackStepsOk(scene, c, Collect(StackSteps(scene, c)).value);
      }
      forall c | 0 <= c < scene.n1 && c !in channels
        ensures forall t, m | 0 <= t < scene.n0 && 0 <= m < scene.n2 :: outs[c].at[t][m] == scene.at[t][c][m]
      {
        assert ChannelSlots(scene)[c] == Ok(outs[c]);
      }
    }

    /** Only the set of listed channels matters: listing a channel twice, or in another order,
        changes nothing. */
    lemma ProcessSeesChannelSet(other: LegacyTransformer, czi: seq<Tensor5>)
      requires other.params == params && other.lib == lib
      requires forall c :: c in channels <==> c in other.channels
      ensures ProcessSpec(czi) == other.ProcessSpec(czi)
    {
      if |czi| > 0 {
        var scene := czi[0];
        assert ChannelSlots(scene) == other.ChannelSlots(scene) by {
          forall c | 0 <= c < scene.n1
            ensures ChannelSlot(scene, c) == other.ChannelSlot(scene, c)
          {
            assert StackSteps(scene, c) == other.StackSteps(scene, c);
          }
        }
      }
    }

    /** A chain with `log` makes `process` raise as soon as a listed channel has a plane. */
    lemma ProcessWithLogRaises(czi: seq<Tensor5>, i: nat, t: nat, c: nat, m: nat)
      requires i < |params.processChain| && params.processChain[i] == "log"
      requires |czi| > 0 && t < czi[0].n0 && c < czi[0].n1 && m < czi[0].n2 && c in channels
      ensures ProcessSpec(czi).Err?
    {
      DoomedChainFails(LegacyOps, lib, params.settings, params.processChain, i, czi[0].at[t][c][m]);
      ChannelSlotOk(czi[0], c);
    }

    /** `process`: the channels are visited in index order, each slot processed or copied. */
    method Process(czi: seq<Tensor5>) returns (r: Result<seq<Tensor5>>)
      ensures r == ProcessSpec(czi)
    {
      if |czi| == 0 {
        return Err(IndexError);
      }
      var scene := czi[0];
      ghost var steps := ChannelSlots(scene);
      var processed: seq<Tensor4> := [];
      for c := 0 to scene.n1
        invariant Collect(steps[..c]) == Ok(processed)
      {
        var slot := ChannelSlotWork(scene, c);
        if slot.Err? {
          CollectStops(steps, c, processed);
          return Err(slot.error);
        }
        CollectExtend(steps, c, processed);
        processed := processed + [slot.value];
      }
      assert steps[..scene.n1] == steps;
      assert forall c | 0 <= c < |processed| :: steps[c] == Ok(processed[c]);
      r := Ok([ChannelsToScene(scene.n0, scene.n2, scene.h, scene.w, processed)]);
    }

    /** The body of the `process` loop for channel c. */
    method ChannelSlotWork(scene: Tensor5, c: nat) returns (r: Result<Tensor4>)
      requires c < scene.n1
      ensures r == ChannelSlot(scene, c)
    {
      if c !in channels {
        return Ok(ChannelGrid(scene, c));
      }
      ghost var steps := StackSteps(scene, c);
      var grids: seq<seq<Plane>> := [];
      for t := 0 to scene.n0
        invariant Collect(steps[..t]) == Ok(grids)
      {
        var stack := SingleChannelProcess(Fibre(scene, t, c));
        if stack.Err? {
          CollectStops(steps, t, grids);
          return Err(stack.error);
        }
        CollectExtend(steps, t, grids);
        grids := grids + [stack.value];
      }
      assert steps[..scene.n0] == steps;
      if scene.n0 == 0 && scene.w != 0 {
        return Err(ValueError);
      }
      StackStepsOk(scene, c, grids);
      r := Ok(Stack4(scene.n0, scene.n2, scene.h, scene.w, grids));
    }

    /** One montage of `stitch`: the tiles of (t, c) on the grid, gaps filled with the tiles'
        mean, kept at full size. */
    function Montage(scene: Tensor5, t: nat, c: nat): (r: Result<Plane>)
      requires t < scene.n0 && c < scene.n1
      ensures r.Err? <==>
        scene.n2 > 0 && (params.gridShape.1 == 0 || scene.n2 > params.gridShape.0 * params.gridShape.1)
      ensures r.Ok? ==> HasShape(r.value, params.gridShape.0 * scene.h, params.gridShape.1 * scene.w)
    {
      var tiles := Fibre(scene, t, c);
      Mosaic.Montage(tiles, scene.h, scene.w, params.gridShape.0, params.gridShape.1, lib.montageFill(tiles))
    }

    /** The montages of time point t, in channel order. */
    function MontageSteps(scene: Tensor5, t: nat): (steps: seq<Result<Plane>>)
      requires t < scene.n0
      ensures |steps| == scene.n1
      ensures forall c | 0 <= c < scene.n1 :: steps[c] == Montage(scene, t, c)
    {
      seq(scene.n1, c requires 0 <= c < scene.n1 => Montage(scene, t, c))
    }

    /** The inner loop of `stitch` for each time point, in time order. */
    function MontageRows(scene: Tensor5): (rows: seq<Result<seq<Plane>>>)
      ensures |rows| == scene.n0
      ensures forall t | 0 <= t < scene.n0 :: rows[t] == Collect(MontageSteps(scene, t))
    {
      seq(scene.n0, t requires 0 <= t < scene.n0 => Collect(MontageSteps(scene, t)))
    }

    /** The values of a successful `stitch` loop: T rows of C montages of shape
        (Y * rows, X * cols). */
    lemma MontageRowsOk(scene: Tensor5, quilts: seq<seq<Plane>>)
      requires Collect(MontageRows(scene)) == Ok(quilts)
      ensures |quilts| == scene.n0
      ensures forall t | 0 <= t < scene.n0 :: |quilts[t]| == scene.n1
      ensures forall t, c | 0 <= t < scene.n0 && 0 <= c < scene.n1 ::
        Montage(scene, t, c) == Ok(quilts[t][c]) &&
        HasShape(quilts[t][c], params.gridShape.0 * scene.h, params.gridShape.1 * scene.w)
    {
      var rows := MontageRows(scene);
      forall t, c | 0 <= t < scene.n0 && 0 <= c < scene.n1
        ensures Montage(scene, t, c) == Ok(quilts[t][c])
        ensures HasShape(quilts[t][c], params.gridShape.0 * scene.h, params.gridShape.1 * scene.w)
      {
        assert rows[t] == Ok(quilts[t]);
        assert MontageSteps(scene, t)[c] == Montage(scene, t, c);
      }
      forall t | 0 <= t < scene.n0
        ensures |quilts[t]| == scene.n1
      {
        assert rows[t] == Ok(quilts[t]);
      }
    }

    /** The result of `stitch`: IndexError without a scene, the error of the first failing
        montage in (t, c) order, or a 5-D array (T, C, 1, Y * rows, X * cols) of montages. */
    function StitchSpec(czi: seq<Tensor5>): (r: Result<Tensor5>)
    {
      if |czi| == 0 then Err(IndexError)
      else
        var scene := czi[0];
        var quilts :- Collect(MontageRows(scene));
        MontageRowsOk(scene, quilts);
        Ok(QuiltsToScene(scene.n1, params.gridShape.0 * scene.h, params.gridShape.1 * scene.w, quilts))
    }

    /** `stitch` fails exactly when there is no scene or the tiles do not fit the grid: a grid
        without columns raises ZeroDivisionError and a grid with too few cells IndexError. */
    lemma StitchFails(czi: seq<Tensor5>)
      ensures StitchSpec(czi).Err? <==>
        || |czi| == 0
        || (czi[0].n0 > 0 && czi[0].n1 > 0 && czi[0].n2 > 0 &&
            (params.gridShape.1 == 0 || czi[0].n2 > params.gridShape.0 * params.gridShape.1))
      ensures StitchSpec(czi).Err? ==>
        StitchSpec(czi).error == (if |czi| > 0 && params.gridShape.1 == 0 then ZeroDivisionError else IndexError)
    {
      if |czi| > 0 {
        var scene := czi[0];
        var rows := MontageRows(scene);
        if scene.n0 > 0 && scene.n1 > 0 && scene.n2 > 0 &&
           (params.gridShape.1 == 0 || scene.n2 > params.gridShape.0 * params.gridShape.1) {
          CollectFirstError(MontageSteps(scene, 0), 0);
          CollectFirstError(rows, 0);
        } else {
          forall t | 0 <= t < scene.n0
            ensures rows[t].Ok?
          {
            assert forall c | 0 <= c < scene.n1 :: MontageSteps(scene, t)[c].Ok?;
          }
        }
      }
    }

    /** A successful `stitch` returns a (T, C, 1, Y * rows, X * cols) array whose plane (t, c)
        is the montage of the tiles of (t, c). */
    lemma StitchValues(czi: seq<Tensor5>)
      requires StitchSpec(czi).Ok?
      ensures |czi| > 0
      ensures
        var out := StitchSpec(czi).value;
        && out.n0 == czi[0].n0 && out.n1 == czi[0].n1 && out.n2 == 1
        && out.h == params.gridShape.0 * czi[0].h && out.w == params.gridShape.1 * czi[0].w
        && forall t, c | 0 <= t < czi[0].n0 && 0 <= c < czi[0].n1 :: Montage(czi[0], t, c) == Ok(out.at[t][c][0])
    {
      MontageRowsOk(czi[0], Collect(MontageRows(czi[0])).value);
    }

    /** Tile k of (t, c) sits unchanged in grid row k // cols and grid column k % cols of plane
        (t, c) of a successful `stitch`. */
    lemma StitchPlacesTiles(czi: seq<Tensor5>, t: nat, c: nat, k: nat)
      requires StitchSpec(czi).Ok?
      requires |czi| > 0 && t < czi[0].n0 && c < czi[0].n1 && k < czi[0].n2
      ensures params.gridShape.1 > 0
      ensures Mosaic.SitsAt(StitchSpec(czi).value.at[t][c][0], (k / params.gridShape.1) * czi[0].h,
                            (k % params.gridShape.1) * czi[0].w, czi[0].at[t][c][k])
    {
      StitchValues(czi);
      var scene := czi[0];
      var rows, cols := params.gridShape.0, params.gridShape.1;
      var tiles := Fibre(scene, t, c);
      var m := StitchSpec(czi).value.at[t][c][0];
      assert Mosaic.Montage(tiles, scene.h, scene.w, rows, cols, lib.montageFill(tiles)) == Ok(m);
      Arith.RowMajorInverse(k, rows, cols);
      Mosaic.MontageRoundTrip(tiles, scene.h, scene.w, rows, cols, lib.montageFill(tiles), m,
                              k / cols, k % cols, k);
    }

    /** `stitch`: the montages computed time point by time point and stored in the
        (T, C, 1) buffer. */
    method Stitch(czi: seq<Tensor5>) returns (r: Result<Tensor5>)
      ensures r == StitchSpec(czi)
    {
      if |czi| == 0 {
        return Err(IndexError);
      }
      var scene := czi[0];
      ghost var rows := MontageRows(scene);
      var stitched: seq<seq<Plane>> := [];
      for t := 0 to scene.n0
        invariant Collect(rows[..t]) == Ok(stitched)
      {
        var row := StitchTime(scene, t);
        if row.Err? {
          CollectStops(rows, t, stitched);
          return Err(row.error);
        }
        CollectExtend(rows, t, stitched);
        stitched := stitched + [row.value];
      }
      assert rows[..scene.n0] == rows;
      MontageRowsOk(scene, stitched);
      r := Ok(QuiltsToScene(scene.n1, params.gridShape.0 * scene.h, params.gridShape.1 * scene.w, stitched));
    }

    /** The inner loop of `stitch` for time point t, over the channels. */
    method StitchTime(scene: Tensor5, t: nat) returns (r: Result<seq<Plane>>)
      requires t < scene.n0
      ensures r == Collect(MontageSteps(scene, t))
    {
      ghost var steps := MontageSteps(scene, t);
      var row: seq<Plane> := [];
      for c := 0 to scene.n1
        invariant Collect(steps[..c]) == Ok(row)
      {
        var quilt := Montage(scene, t, c);
        if quilt.Err? {
          CollectStops(steps, c, row);
          return Err(quilt.error);
        }
        CollectExtend(steps, c, row);
        row := row + [quilt.value];
      }
      assert steps[..scene.n1] == steps;
      r := Ok(row);
    }
  }
}
