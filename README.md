# Tile preprocessing core of cell_tracking

This project models the bookkeeping of the tiled-microscopy preprocessing stage of the
cell_tracking pipeline and proves properties about it. A CZI acquisition arrives as a numpy
array of shape (scene, T, C, M, Y, X):

- T time points;
- C channels;
- M tiles of Y x X pixels each.

The pipeline works as follows:

- It resolves the configured channel names to channel indices and runs a string-keyed chain
  of image operations on every (time, tile) plane of each processed channel. `pool.map` is
  modelled as an ordered, sequential map.
- It stitches the tiles of each (time, channel) pair into one quilt with `util.montage` and
  runs a post-stitch chain on the quilts.
- It writes each tile to an OME-TIFF file named after its grid position.

Two versions of `ParallelTransformer` are modelled, because they behave differently:

- **`TileTransform`** is the newer one. Each channel has its own chain, unlisted channels are
  dropped, and tiles and quilts can be resized.
- **`LegacyTransform`** is the older one. It copies unlisted channels through unchanged, uses
  one shared chain, has a `log` operation that always raises, and stitches without resizing.

**`SceneBlocking`** models the hard-coded 3 x 3 `SceneBlocker`. It stitches tiles column by
column into a (1416, 1920) buffer that is filled in place.

**`TileWriting`** models the tile writer:

- each tile's 1-based (row, column);
- its file name;
- the array saved for it;
- the output directory with its trailing slash.

The other modules support these four:

- `Outcomes` holds the Python exceptions as a `Result` type. `Collect` is a loop that stops at
  the first exception.
- `Images` models planes as `seq<seq<real>>` with explicit extents. It also supplies the numpy
  operations `reshape`, broadcasting assignment and `concatenate`.
- `Tensors` models the 4-D and 5-D arrays as stacks of planes.
- `Mosaic` models `util.montage`.
- `Operations` holds the operation enum, the chain fold and the ordered map.
- `Filters` models the image operations. The floating-point library numerics are parameters,
  and the discrete parts are modelled exactly:
  - the dilation seed;
  - the seed-below-mask check of reconstruction and its refusal of an empty seed;
  - the two-distinct-values requirement of the two-class Otsu threshold;
  - `np.digitize`;
  - the resize target shape.
- `ChannelPlan` models dicts as ordered association lists, with channel lookup and inversion.
- `Arith` holds the row-major index arithmetic.

**Layouts.** A scene `czi_data[0]` is a `Tensors.Tensor5` whose three leading axes are
(T, C, M). `np.moveaxis` only relabels axes, so the model writes it as indexing. A 6-D result is
a one-element sequence of scenes. The blocker's (T, M, Y, X, C) scene uses the same (T, C, M)
indexing.

Every operation that the source performs with a loop writing into a buffer is a `method`. Each
such method is proved equal to a specification function. The lemmas state the properties of
that function: the error cases, the shapes, and which input plane ends up in which output slot.

In the Model table:

- `new/transform.py` stands for `tooling/imagePipeline/preprocess_funcs/transform.py`;
- `old/transform.py` stands for `imagePipeline/preprocess/transform.py`;
- the source cell always gives the full path.

## Model

| member | source | states |
|---|---|---|
| Operations.Apply | tooling/imagePipeline/preprocess_funcs/transform.py:85-304 | every operation that succeeds keeps the plane's shape, except resize, which gives (H // rf, W // rf); the unbound `log` of the older table raises TypeError; the older table (imagePipeline/preprocess/transform.py lines 53-224) maps to the same operations, with `rescale` using the configured range |
| Operations.Chain | tooling/imagePipeline/preprocess_funcs/transform.py:380-382 | defines `_process_image`: the names looked up in `ops` and applied left to right, KeyError at the first unknown name, the first raising operation's error otherwise; its properties are the lemmas below |
| Operations.RunChain | tooling/imagePipeline/preprocess_funcs/transform.py:369-382 | the `for func in func_list` loop computes the left-to-right fold `Chain`, stopping at the first step that raises; an empty chain returns the image unchanged |
| Operations.ChainAppend | tooling/imagePipeline/preprocess_funcs/transform.py:380-382 | running `first + second` is running `first` and then `second` on its result; an error in `first` is the result |
| Operations.UnknownNameRaises | tooling/imagePipeline/preprocess_funcs/transform.py:380-381 | a name missing from `ops` raises KeyError for that name once the loop reaches it, unless an earlier step already raised |
| Operations.DoomedChainFails | tooling/imagePipeline/preprocess_funcs/transform.py:380-382 | a chain containing an unknown name (or an unbound method) raises, whatever the plane |
| Operations.ChainKeyError | tooling/imagePipeline/preprocess_funcs/transform.py:380-381 | conversely, a KeyError from a chain names one of its steps, and that step is missing from the table |
| Operations.ChainShape | tooling/imagePipeline/preprocess_funcs/transform.py:380-382 | a successful chain returns a plane of the shape that `ShapeAfter` predicts from the names alone |
| Operations.ShapeAfterAppend | tooling/imagePipeline/preprocess_funcs/transform.py:380-382 | predicted shapes compose along concatenated chains |
| Operations.ShapeAfterNoResize | tooling/imagePipeline/preprocess_funcs/transform.py:274-289 | a chain without `resize` keeps the plane's shape |
| Operations.MapChain | tooling/imagePipeline/preprocess_funcs/transform.py:423 | the ordered map succeeds iff the chain succeeds on every plane; result i is the chain's result on plane i; otherwise the error is that of the first failing plane |
| Operations.MapChainShapes | tooling/imagePipeline/preprocess_funcs/transform.py:423-428 | planes of one shape come back from the map with one shape, the shape predicted for the chain |
| Operations.OrderedMap | tooling/imagePipeline/preprocess_funcs/transform.py:421-423 | the loop over the planes computes `MapChain`, with results in the order of the planes |
| ChannelPlan.Get | tooling/imagePipeline/preprocess_funcs/transform.py:321 | a dict lookup finds a value iff some entry has the key, and the value found belongs to such an entry |
| ChannelPlan.GetEntry | tooling/imagePipeline/preprocess_funcs/transform.py:321 | in a dict (distinct keys), looking up an entry's key finds that entry's value |
| ChannelPlan.GetChannelIndices | tooling/imagePipeline/preprocess_funcs/transform.py:310-323 | Ok iff every configured name is in `channel_map`; then one index per name, in key order, each the map's value for it; otherwise KeyError for the first unknown name; the older transformer runs the same loop (imagePipeline/preprocess/transform.py lines 229-242) |
| ChannelPlan.Invert | tooling/imagePipeline/preprocess_funcs/transform.py:337-338 | `dict(zip(values, keys))[v]` finds a key iff some entry has value v, and the key found is the last entry with that value |
| ChannelPlan.ChannelName | tooling/imagePipeline/preprocess_funcs/transform.py:326-338 | KeyError(idx) iff no channel has index idx; otherwise a channel whose lookup gives back idx |
| ChannelPlan.ChannelNameInverts | tooling/imagePipeline/preprocess_funcs/transform.py:337-338 | for an injective channel map, `_get_channel_name(channel_map[n]) == n` |
| ChannelPlan.InvertUndoesGet | tooling/imagePipeline/preprocess_funcs/transform.py:337-338 | for an injective dict, inverting the value of a key gives the key back |
| ChannelPlan.GetUndoesInvert | tooling/imagePipeline/preprocess_funcs/transform.py:337-338 | looking up whatever inversion finds gives back the index, injective or not |
| TileTransform.ParallelTransformer.Create | tooling/imagePipeline/preprocess_funcs/transform.py:51-80 | construction succeeds iff every `process_channels` key is in `channel_map`; then `channels` are the resolved indices in key order; otherwise KeyError for the first missing name |
| TileTransform.ParallelTransformer.NewSize | tooling/imagePipeline/preprocess_funcs/transform.py:341-362 | the leading extent is `len(channels)` and T and M are kept; with `resize_tiles` the plane extents are the metadata image shape floor-divided by the tile factor (ZeroDivisionError for 0); otherwise they are the scene's plane shape |
| TileTransform.ParallelTransformer.NewSizeMatchesResize | tooling/imagePipeline/preprocess_funcs/transform.py:285-288 | with `resize_tiles` set and a factor for which `_resize` succeeds, when the metadata image shape is the tile shape, the buffer's plane shape is the shape `_resize` gives each tile |
| Filters.Resize | tooling/imagePipeline/preprocess_funcs/transform.py:274-289 | `_resize` gives shape (H // rf, W // rf), with each pixel from the library resampler; rf = 0 raises ZeroDivisionError, and the model raises nothing else |
| Filters.ResizeTo | tooling/imagePipeline/preprocess_funcs/transform.py:288 | `transform.resize` returns a plane of the requested output shape |
| Images.Reshape | tooling/imagePipeline/preprocess_funcs/transform.py:425-428 | numpy `reshape` of a plane with h * w pixels to shape (h, w), read in row-major order; reshaping to the plane's own shape gives it back (ReshapeToOwnShape) |
| Images.Broadcast | tooling/imagePipeline/preprocess_funcs/transform.py:505 | numpy assignment of a plane into an (h, w) slot succeeds iff each axis matches or is 1, and the stored plane then has shape (h, w); otherwise ValueError |
| Images.BroadcastAll | tooling/imagePipeline/preprocess_funcs/transform.py:505 | assigning a stack of planes into a stack of (h, w) slots succeeds iff every plane broadcasts, holding each plane's broadcast in order; otherwise ValueError |
| Images.Concat0 | imagePipeline/utils/tensor_ops.py:23-25 | `np.concatenate(ps, axis=0)` raises only ValueError (empty list or unequal widths); for planes of one shape it stacks them (Concat0Uniform, Concat0Three) |
| Images.Concat1 | imagePipeline/utils/tensor_ops.py:27 | `np.concatenate(ps, axis=1)` raises only ValueError (empty list or unequal heights); three planes of one height sit side by side (Concat1Three) |
| TileTransform.Flatten | tooling/imagePipeline/preprocess_funcs/transform.py:412-416 | the reshape of channel c's (T, M) planes gives T * M planes, all of the tile shape |
| TileTransform.FlattenAt | tooling/imagePipeline/preprocess_funcs/transform.py:413-416 | plane (t, m) of the channel is item `t * M + m` of the work list |
| TileTransform.Unflatten | tooling/imagePipeline/preprocess_funcs/transform.py:425-428 | the reshape back to (T, M, Y', X') raises ValueError iff there are results and their element count differs from Y' * X'; otherwise it has extents (T, M, Y', X') |
| TileTransform.UnflattenReshapes | tooling/imagePipeline/preprocess_funcs/transform.py:425-429 | the reshape back puts result `t * M + m` at (t, m), read in row-major order as a plane of the buffer's plane shape |
| TileTransform.UnflattenAt | tooling/imagePipeline/preprocess_funcs/transform.py:425-429 | when the results already have the target shape, result `t * M + m` goes back to (t, m) unchanged |
| TileTransform.ParallelTransformer.ChannelOutput | tooling/imagePipeline/preprocess_funcs/transform.py:411-429 | one pass of the channel loop, when it succeeds, yields a (T, M) grid of planes of the buffer's plane shape |
| TileTransform.ParallelTransformer.ChannelOutputUnfolds | tooling/imagePipeline/preprocess_funcs/transform.py:411-429 | a successful pass is the reshape of the channel chain's ordered map over the channel's flattened planes, all of the chain's output shape |
| TileTransform.ParallelTransformer.ChannelOutputAt | tooling/imagePipeline/preprocess_funcs/transform.py:411-429 | plane (t, m) of a successful pass of channel c is the channel's chain applied to input plane (t, c, m), reshaped to the buffer's plane shape |
| TileTransform.ParallelTransformer.ProcessTilesAt | tooling/imagePipeline/preprocess_funcs/transform.py:385-434 | order is kept: slot (t, i, m) of the result is `chain(in[t, channels[i], m])` reshaped to the buffer's plane shape, and that chain succeeded |
| TileTransform.ParallelTransformer.ProcessTilesKeepsChain | tooling/imagePipeline/preprocess_funcs/transform.py:385-434 | when the chain's output shape is the buffer's plane shape, slot (t, i, m) is exactly `chain(in[t, channels[i], m])` |
| TileTransform.ParallelTransformer.ProcessTilesSpec | tooling/imagePipeline/preprocess_funcs/transform.py:385-434 | on success the result is 6-D (1, T, len(channels), M, Y', X') and slot (t, i, m) holds channel `channels[i]`'s output at (t, m), so unlisted channels are dropped; it succeeds whenever the scene exists, the size is computable and every channel pass succeeds |
| TileTransform.ParallelTransformer.ProcessTiles | tooling/imagePipeline/preprocess_funcs/transform.py:385-434 | the method computes `ProcessTilesSpec` |
| TileTransform.ParallelTransformer.ProcessTilesOk | tooling/imagePipeline/preprocess_funcs/transform.py:429-434 | once every channel pass succeeded, the result is the passes' grids stacked channel by channel |
| TileTransform.ParallelTransformer.ProcessChannels | tooling/imagePipeline/preprocess_funcs/transform.py:411-429 | the channel loop collects the channel passes in slot order and stops at the first that raises |
| TileTransform.ParallelTransformer.ChainFor | tooling/imagePipeline/preprocess_funcs/transform.py:418-422 | the chain for channel index c: `_get_channel_name(c)` (KeyError for an unknown index), then `mp.Pool` (ValueError for fewer than one worker), then `process_channels[channel_name]` (KeyError); a found chain is the chain of a configured channel whose index is c |
| TileTransform.ParallelTransformer.ChainForListed | tooling/imagePipeline/preprocess_funcs/transform.py:418-422 | with an injective channel map and a pool of at least one worker, the chain found for the index of the i-th configured channel is that channel's own chain |
| TileTransform.ParallelTransformer.ChannelWork | tooling/imagePipeline/preprocess_funcs/transform.py:412-429 | the loop body (reshape, name lookup, pool map, reshape back) computes `ChannelOutput` |
| TileTransform.ParallelTransformer.Quilt | tooling/imagePipeline/preprocess_funcs/transform.py:469-475 | in the model, whose resampler never fails (exact for non-empty montages and rf at most rows * Y and cols * X), a quilt fails iff there are tiles and the grid has no columns (ZeroDivisionError) or fewer cells than tiles (IndexError); otherwise it has shape ((Y * rows) // rf, (X * cols) // rf) |
| TileTransform.ParallelTransformer.QuiltMontage | tooling/imagePipeline/preprocess_funcs/transform.py:469-470 | `util.montage(scene[t, c], grid_shape)` before the resize: it fails iff there are tiles and the grid has no columns or fewer cells than tiles, and otherwise has shape (rows * Y, cols * X) |
| TileTransform.ParallelTransformer.QuiltPlacesTiles | tooling/imagePipeline/preprocess_funcs/transform.py:469-470 | before the resize, tile k of (t, c) sits unchanged at grid row k // cols and grid column k % cols of the montage |
| TileTransform.ParallelTransformer.QuiltIsResizedMontage | tooling/imagePipeline/preprocess_funcs/transform.py:470-473 | with a resampler that never fails (exact for non-empty montages and rf at most rows * Y and cols * X), a quilt fails exactly when its montage does, and otherwise is that montage resized to the quilt shape |
| TileTransform.ParallelTransformer.StitchHoldsQuilts | tooling/imagePipeline/preprocess_funcs/transform.py:459-478 | a successful `stitch` returns one (T, C, 1) scene of the quilt shape, and plane (t, c) is the quilt of the tiles of (t, c) |
| TileTransform.ParallelTransformer.StitchFails | tooling/imagePipeline/preprocess_funcs/transform.py:454-470 | with a resampler that never fails (exact for non-empty montages and rf at most rows * Y and cols * X), `stitch` fails iff there is no scene, the quilt factor is 0, or some (t, c) has tiles that do not fit the grid; the error is ZeroDivisionError for a zero factor or a grid without columns, otherwise IndexError |
| TileTransform.ParallelTransformer.QuiltRowsOk | tooling/imagePipeline/preprocess_funcs/transform.py:467-475 | a successful loop yields T rows of C quilts, each of the quilt shape |
| TileTransform.ParallelTransformer.StitchSpec | tooling/imagePipeline/preprocess_funcs/transform.py:440-478 | defines the result of `stitch`: IndexError without a scene, ZeroDivisionError for a zero quilt factor, then the first failing quilt in time-then-channel order, else the (T, C, 1) scene of quilts; its properties are StitchHoldsQuilts and StitchFails |
| TileTransform.ParallelTransformer.Stitch | tooling/imagePipeline/preprocess_funcs/transform.py:440-478 | the method computes `StitchSpec`, which never reads `resize_quilt` |
| TileTransform.ParallelTransformer.StitchTimes | tooling/imagePipeline/preprocess_funcs/transform.py:467-475 | the loop over time points collects each time point's quilts in order |
| TileTransform.ParallelTransformer.StitchTime | tooling/imagePipeline/preprocess_funcs/transform.py:468-475 | the loop over channels collects the quilts of one time point in channel order |
| TileTransform.ParallelTransformer.StitchedChannel | tooling/imagePipeline/preprocess_funcs/transform.py:498-505 | a successful channel pass of `process_stitched` yields T planes of the scene's plane shape |
| TileTransform.ParallelTransformer.StitchedChannelOk | tooling/imagePipeline/preprocess_funcs/transform.py:498-505 | a channel pass succeeds iff the pool can be created and either there are no time points and no columns, or every plane's chain succeeds and the chain's output shape broadcasts into the slot; each stored plane is that broadcast |
| TileTransform.ParallelTransformer.StitchedBroadcast | tooling/imagePipeline/preprocess_funcs/transform.py:504-505 | for a channel with at least one time point whose chains all succeeded (and a tile axis of length 1), the assignment `processed_data[c] = new_T` succeeds iff the chain's output shape fits the slot |
| TileTransform.ParallelTransformer.StitchedStepsOk | tooling/imagePipeline/preprocess_funcs/transform.py:498-505 | a successful loop yields C channels of T planes of the scene's plane shape |
| TileTransform.ParallelTransformer.ProcessStitchedOk | tooling/imagePipeline/preprocess_funcs/transform.py:481-510 | `process_stitched` succeeds iff the scene exists, its tile axis has length 1 and every channel pass succeeds; IndexError without a scene; ValueError for another tile extent, or for a pool of fewer than one worker when there is a channel |
| TileTransform.ParallelTransformer.ProcessStitchedValues | tooling/imagePipeline/preprocess_funcs/transform.py:493-510 | a successful result keeps the extents (1, T, C, 1, Y, X), and plane (t, c) is the stitch chain's output for plane (t, c), assigned into a (Y, X) slot |
| TileTransform.ParallelTransformer.ProcessStitchedNoResize | tooling/imagePipeline/preprocess_funcs/transform.py:493-510 | with a stitch chain that never resizes, plane (t, c) of the result is exactly the chain's output for plane (t, c) |
| TileTransform.ParallelTransformer.ProcessStitchedEmptyChain | tooling/imagePipeline/preprocess_funcs/transform.py:481-510 | with an empty stitch chain and a pool of at least one worker, for a scene whose tile axis has length 1 and that has time points or no columns, `process_stitched` returns its input unchanged |
| TileTransform.ParallelTransformer.EmptyChainChannel | tooling/imagePipeline/preprocess_funcs/transform.py:498-505 | with an empty stitch chain, a pool of at least one worker, a tile axis of length 1, and time points or no columns, every channel pass succeeds |
| TileTransform.ParallelTransformer.ProcessStitchedSpec | tooling/imagePipeline/preprocess_funcs/transform.py:481-510 | defines the result of `process_stitched`: IndexError without a scene, ValueError when the tile axis is not of length 1, then the first failing channel pass, else the (T, C, 1) scene of the passes' planes; its properties are ProcessStitchedOk and ProcessStitchedValues |
| TileTransform.ParallelTransformer.ProcessStitched | tooling/imagePipeline/preprocess_funcs/transform.py:481-510 | the method computes `ProcessStitchedSpec` |
| TileTransform.ParallelTransformer.StitchedChannelWork | tooling/imagePipeline/preprocess_funcs/transform.py:500-505 | the loop body (pool, map, assignment) computes `StitchedChannel` |
| Filters.SliceBound | tooling/imagePipeline/preprocess_funcs/transform.py:251 | Python's normalisation of a slice bound: clamped to the axis, negative bounds counted from the end |
| Filters.MinPixel | tooling/imagePipeline/preprocess_funcs/transform.py:251 | `image.min()` of a non-empty plane is no larger than any pixel and is one of them |
| Filters.DilationSeed | tooling/imagePipeline/preprocess_funcs/transform.py:249-251 | the seed has the image's shape; pixels in rows and columns `[b, -b)` hold v, and all others copy the image |
| Filters.FillDilationSeed | tooling/imagePipeline/preprocess_funcs/transform.py:250-251 | the in-place copy followed by the slice assignment produces exactly `DilationSeed` |
| Filters.DilationSeedZeroBox | tooling/imagePipeline/preprocess_funcs/transform.py:251 | with box size 0 the slice `[0:-0]` is empty and the seed is the image |
| Filters.DilationSeedBelowImage | tooling/imagePipeline/preprocess_funcs/transform.py:250-251 | seeding with the image minimum keeps the seed at or below the image everywhere |
| Filters.Reconstruct | tooling/imagePipeline/preprocess_funcs/transform.py:252 | reconstruction by dilation raises ValueError iff some seed pixel is above the mask or the seed is empty (its minimum, the padding value, has no pixels to range over); otherwise the result has the mask's shape |
| Filters.Dilate | tooling/imagePipeline/preprocess_funcs/transform.py:237-254 | a successful `dilate` keeps the plane's shape |
| Filters.DilateFailsOnlyWhenEmpty | tooling/imagePipeline/preprocess_funcs/transform.py:249-252 | `dilate` raises exactly on an empty plane (from `image.min()`), with ValueError |
| Filters.DilateNonNegative | tooling/imagePipeline/preprocess_funcs/transform.py:252-253 | if the reconstruction stays below its mask, `image - dilated` has no negative pixel |
| Filters.Lowered | tooling/imagePipeline/preprocess_funcs/transform.py:231 | `image - h` lowers every pixel by h |
| Filters.DilateStatic | tooling/imagePipeline/preprocess_funcs/transform.py:216-234 | a successful `dilate_s` keeps the plane's shape |
| Filters.DilateStaticFails | tooling/imagePipeline/preprocess_funcs/transform.py:227-232 | `dilate_s` raises ValueError iff the plane is empty or the level (fixed, or the median for 'm') is negative |
| Filters.Digitize | tooling/imagePipeline/preprocess_funcs/transform.py:147 | `np.digitize` returns a bin index between 0 and the number of bins |
| Filters.DigitizeBrackets | tooling/imagePipeline/preprocess_funcs/transform.py:147 | for increasing bins, the returned index r brackets the value: `bins[r-1] <= v < bins[r]` |
| Filters.Otsu | tooling/imagePipeline/preprocess_funcs/transform.py:135-148 | `otsu` raises ValueError iff the plane has fewer than two distinct values (two classes cannot be formed); otherwise it returns a region map of the image's shape |
| Filters.OtsuRejectsConstant | tooling/imagePipeline/preprocess_funcs/transform.py:146 | a constant plane, empty ones included, makes `otsu` raise ValueError |
| Filters.OtsuIsThresholdMask | tooling/imagePipeline/preprocess_funcs/transform.py:146-147 | with two classes, a successful region map is 1 where a pixel is at or above the threshold and 0 elsewhere |
| Filters.Stretch | tooling/imagePipeline/preprocess_funcs/transform.py:184-197 | `stretch` keeps the image's shape |
| Filters.Ball | tooling/imagePipeline/preprocess_funcs/transform.py:257-271 | `ball` is the image minus the library's background, pixel by pixel |
| Mosaic.Montage | tooling/imagePipeline/preprocess_funcs/transform.py:470 | `util.montage` fails iff there are tiles and either the grid has no columns (ZeroDivisionError) or there are more tiles than cells (IndexError); otherwise the shape is (rows * Y, cols * X) |
| Mosaic.MontageCell | tooling/imagePipeline/preprocess_funcs/transform.py:470 | each pixel of grid cell (i, j) is the matching pixel of tile `i * cols + j`, or the fill value when there is no such tile |
| Mosaic.MontageRoundTrip | tooling/imagePipeline/preprocess_funcs/transform.py:470 | cutting grid cell (i, j) out of the montage gives back tile `i * cols + j` (row-major layout) |
| LegacyTransform.LegacyChainsKeepShape | imagePipeline/preprocess/transform.py:37-48 | no operation of the older table resizes, so every chain keeps the plane's shape |
| LegacyTransform.LogRaises | imagePipeline/preprocess/transform.py:152-165 | `log` is declared without `self`: a chain raises TypeError when it reaches `log`, unless an earlier step already raised |
| LegacyTransform.LogFirst | imagePipeline/preprocess/transform.py:44 | a chain that starts with `log` raises TypeError |
| LegacyTransform.LegacyTransformer.Create | imagePipeline/preprocess/transform.py:25-35 | construction succeeds iff every listed channel is in `channel_map`; then the channel indices are resolved in list order; otherwise KeyError for the first missing name |
| LegacyTransform.LegacyTransformer.ProcessImage | imagePipeline/preprocess/transform.py:259-261 | `_process_image`: the shared chain `self.chain` folded over the plane; a successful result keeps the plane's shape, since no operation of the older table resizes |
| LegacyTransform.LegacyTransformer.TileResultIsChain | imagePipeline/preprocess/transform.py:278-279 | `M_new[i] = _process_image(M[i])` never fails at the assignment and stores the chain's result |
| LegacyTransform.LegacyTransformer.TileStepsAreMap | imagePipeline/preprocess/transform.py:276-280 | the tile loop computes the chain's ordered map over the tiles |
| LegacyTransform.LegacyTransformer.SingleChannelProcess | imagePipeline/preprocess/transform.py:264-280 | tile i of the result is `_process_image(M[i])`, with the same number of tiles; the first failing tile decides the error |
| LegacyTransform.LegacyTransformer.TileWork | imagePipeline/preprocess/transform.py:279 | one loop step: the chain on the tile, assigned into its slot |
| LegacyTransform.LegacyTransformer.StackSteps | imagePipeline/preprocess/transform.py:313-316 | `pool.map(single_channel_process, T)` maps the chain over the tiles of each time point, in time order |
| LegacyTransform.LegacyTransformer.StackStepsOk | imagePipeline/preprocess/transform.py:313-317 | on success, plane (t, m) is the chain's result for plane (t, c, m) and has the same shape |
| LegacyTransform.LegacyTransformer.ChannelSlot | imagePipeline/preprocess/transform.py:310-319 | a successful slot has the extents (T, M, Y, X) of the input channel |
| LegacyTransform.LegacyTransformer.ChannelSlotOk | imagePipeline/preprocess/transform.py:311-319 | a slot succeeds iff the channel is unlisted, or every chain on it succeeds and (with no time points) the plane has no columns |
| LegacyTransform.LegacyTransformer.ProcessOk | imagePipeline/preprocess/transform.py:301-324 | `process` succeeds iff there is a scene and every channel slot succeeds; IndexError without a scene |
| LegacyTransform.LegacyTransformer.ProcessValues | imagePipeline/preprocess/transform.py:301-324 | the result has the input's extents (1, T, C, M, Y, X); unlisted channels are copied unchanged, and listed channels hold the shared chain's result plane by plane, in channel index order |
| LegacyTransform.LegacyTransformer.ProcessSeesChannelSet | imagePipeline/preprocess/transform.py:310-311 | only the set of listed channels matters, so duplicates and order in `channels` have no effect |
| LegacyTransform.LegacyTransformer.ProcessWithLogRaises | imagePipeline/preprocess/transform.py:311-317 | with `log` in the chain, `process` raises as soon as a listed channel has a plane |
| LegacyTransform.LegacyTransformer.ProcessSpec | imagePipeline/preprocess/transform.py:283-324 | defines the result of `process`: IndexError without a scene, then the first failing channel slot, else the scene of the slots; its properties are ProcessOk, ProcessValues and ProcessSeesChannelSet |
| LegacyTransform.LegacyTransformer.Process | imagePipeline/preprocess/transform.py:283-324 | the method computes `ProcessSpec` |
| LegacyTransform.LegacyTransformer.ChannelSlotWork | imagePipeline/preprocess/transform.py:311-319 | the loop body (processed or copied) computes `ChannelSlot` |
| LegacyTransform.LegacyTransformer.MontageRowsOk | imagePipeline/preprocess/transform.py:356-360 | a successful loop yields T rows of C montages of shape (Y * rows, X * cols) |
| LegacyTransform.LegacyTransformer.StitchFails | imagePipeline/preprocess/transform.py:344-360 | `stitch` fails iff there is no scene or some (t, c) has tiles that do not fit the grid: ZeroDivisionError without columns, otherwise IndexError |
| LegacyTransform.LegacyTransformer.StitchValues | imagePipeline/preprocess/transform.py:348-362 | a successful `stitch` is 5-D (T, C, 1, Y * rows, X * cols), with no stub axis and no resize, and plane (t, c) is the montage of (t, c) |
| LegacyTransform.LegacyTransformer.Montage | imagePipeline/preprocess/transform.py:358-359 | `util.montage(scene[t, c], grid_shape)`: it fails iff there are tiles and the grid has no columns or fewer cells than tiles, and otherwise has shape (rows * Y, cols * X) |
| LegacyTransform.LegacyTransformer.StitchPlacesTiles | imagePipeline/preprocess/transform.py:358-360 | tile k of (t, c) sits unchanged at grid row k // cols and grid column k % cols of plane (t, c) |
| LegacyTransform.LegacyTransformer.StitchSpec | imagePipeline/preprocess/transform.py:330-362 | defines the result of `stitch`: IndexError without a scene, then the first failing montage in time-then-channel order, else the (T, C, 1) scene of montages; its properties are StitchFails, StitchValues and StitchPlacesTiles |
| LegacyTransform.LegacyTransformer.Stitch | imagePipeline/preprocess/transform.py:330-362 | the method computes `StitchSpec` |
| LegacyTransform.LegacyTransformer.StitchTime | imagePipeline/preprocess/transform.py:357-360 | the inner loop collects the montages of one time point in channel order |
| SceneBlocking.Slice | imagePipeline/utils/tensor_ops.py:23-25 | `arr[a:b]` clamps both bounds to the length and keeps the items in order |
| SceneBlocking.Stich | imagePipeline/utils/tensor_ops.py:10-27 | `_stich` only ever raises ValueError |
| SceneBlocking.StichOk | imagePipeline/utils/tensor_ops.py:23-27 | tiles of one shape (Y, X) stitch iff there are at least 9 (or at least 7 of height 0), and then the result has shape (3Y, 3X); the copy in Python/data_loader/file_io.py (lines 72-76) is the same code |
| SceneBlocking.StichIgnoresRest | imagePipeline/utils/tensor_ops.py:23-25 | only tiles 0..8 are read, here and in the copy in Python/data_loader/file_io.py (lines 72-74) |
| SceneBlocking.StichStacks | imagePipeline/utils/tensor_ops.py:23-27 | the stitched image is the three stacks (tiles 0-2, 3-5, 6-8, each top to bottom) side by side |
| SceneBlocking.StackInStich | imagePipeline/utils/tensor_ops.py:27 | stack j sits at column j * X of the stitched image |
| SceneBlocking.TileInStack | imagePipeline/utils/tensor_ops.py:23-25 | tile 3j + i sits at row i * Y of stack j |
| SceneBlocking.StichBlock | imagePipeline/utils/tensor_ops.py:23-27 | block (i, j) of the stitched image is tile 3j + i |
| SceneBlocking.StichColumnMajor | imagePipeline/utils/tensor_ops.py:23-27 | tile k lands at block row k % 3 and block column k // 3, column-major, the transpose of the montage layout; the same holds for the copy in Python/data_loader/file_io.py (lines 72-76) |
| SceneBlocking.AboveSits | imagePipeline/utils/tensor_ops.py:23 | `concatenate(axis=0)` of two planes keeps both, the second below the first |
| SceneBlocking.BesideSits | imagePipeline/utils/tensor_ops.py:27 | `concatenate(axis=1)` of two planes keeps both, the second right of the first |
| SceneBlocking.ColumnSits | imagePipeline/utils/tensor_ops.py:23-25 | three planes concatenated along axis 0 sit at rows 0, a.h and a.h + b.h |
| SceneBlocking.RowSits | imagePipeline/utils/tensor_ops.py:27 | three planes concatenated along axis 1 sit at columns 0, a.w and a.w + b.w |
| SceneBlocking.Stack | imagePipeline/utils/tensor_ops.py:23-25 | a stack of three tiles of shape (Y, X) has shape (3Y, X) |
| SceneBlocking.FillSlot | imagePipeline/utils/tensor_ops.py:44-47 | assigning `_stich(mosaic)` into a (1416, 1920) slot succeeds iff there are at least 9 tiles of shape (472, 640); then the slot holds the stitched image; otherwise it raises ValueError |
| SceneBlocking.FillRow | imagePipeline/utils/tensor_ops.py:43-47 | the channel loop of time point t raises ValueError iff there is a channel and the tiles do not fill the slot; otherwise every slot (t, c) holds `_stich` of its tiles, and the other rows of the buffer are unchanged |
| SceneBlocking.SceneBlocker.constructor | imagePipeline/utils/tensor_ops.py:7-8 | the blocker keeps the scene it is given |
| SceneBlocking.SceneBlocker.Block | imagePipeline/utils/tensor_ops.py:30-48 | the result is a fresh (T, C) buffer of planes in which slot (t, c) is `_stich(scene[t, :, :, :, c])` of shape (1416, 1920); it raises ValueError iff there is a slot and the tiles are not at least 9 of shape (472, 640); the copy in Python/data_loader/file_io.py (lines 79-96) is the same code |
| TileWriting.OutputPath | tooling/imagePipeline/data_io/writers.py:44-46 | the output path ends in "/" and is the absolute directory with that slash appended |
| TileWriting.OutputWriter.constructor | tooling/imagePipeline/data_io/writers.py:30 | the writer's output directory is the resolved `_get_output_path` |
| TileWriting.Decimal | tooling/imagePipeline/data_io/writers.py:117 | `str(n)` is a non-empty string of digits with no leading zero |
| TileWriting.DecimalRoundTrip | tooling/imagePipeline/data_io/writers.py:117 | reading `str(n)` back as a number gives n |
| TileWriting.DecimalInjective | tooling/imagePipeline/data_io/writers.py:117 | distinct numbers have distinct decimal forms |
| TileWriting.SplitAtDash | tooling/imagePipeline/data_io/writers.py:117 | `{row}-{column}` splits uniquely at its dash |
| TileWriting.TileRow | tooling/imagePipeline/data_io/writers.py:114 | the 1-based row `int(tile / cols) + 1`, at least 1 |
| TileWriting.TileColumn | tooling/imagePipeline/data_io/writers.py:115 | the 1-based column `tile % cols + 1`, in 1..cols |
| TileWriting.TileFileName | tooling/imagePipeline/data_io/writers.py:117 | the name `OME_tile_{row}-{column}.tiff`: it starts with `OME_tile_` and ends with `.tiff` |
| TileWriting.TilePosition | tooling/imagePipeline/data_io/writers.py:114-115 | the column lies in 1..cols and the row is at least 1; `(row-1) * cols + (column-1)` recovers the tile index; on a rows x cols grid the row is at most rows |
| TileWriting.TilePositionInjective | tooling/imagePipeline/data_io/writers.py:113-115 | distinct tile indices get distinct (row, column) pairs |
| TileWriting.TileFileNameInjective | tooling/imagePipeline/data_io/writers.py:117 | the name `OME_tile_{row}-{column}.tiff` determines (row, column) |
| TileWriting.TileNamesDistinct | tooling/imagePipeline/data_io/writers.py:113-117 | distinct tiles are written to distinct file names, so no tile overwrites another |
| TileWriting.TileData | tooling/imagePipeline/data_io/writers.py:109-125 | the array saved for tile k is `scene[tile]` after the tile axis is moved first, with a unit axis at position 1: (T, 1, C, Y, X), holding plane (t, c, k) at (t, 0, c) |
| TileWriting.OutputWriter.WriteTiles | tooling/imagePipeline/data_io/writers.py:101-129 | IndexError without a scene; ZeroDivisionError when there is a tile and the grid has no columns; otherwise exactly one file per tile, in tile order, each named by its grid position and holding that tile's array, with pairwise distinct names |
| TileWriting.OutputWriter.WriteTile | tooling/imagePipeline/data_io/writers.py:113-128 | one loop step computes the tile's row, column, file name and saved array |

## Left out

- Image numerics: the skimage and numpy numerics are parameters of the `Filters.Numerics` record, not definitions. These are Gaussian blur, the histogram equalisations, rank equalisation, gamma and log correction, intensity rescaling, percentiles, the median, the multi-Otsu threshold, reconstruction, the rolling ball, resize interpolation and montage's fill value (the mean of the tiles). Only their output shapes and the errors listed above are modelled; the other input checks of these routines are listed below. Pixels are `real`, so floating-point rounding and dtype conversion are not modelled.
- The `multiprocessing.Pool` is modelled as an ordered, sequential map. Worker scheduling, unclosed pools and the process count are not modelled. The only part of the pool that is modelled is the ValueError it raises for fewer than one worker in the newer transformer.
- `print`, OME-TIFF writing and the file system are not modelled: `_get_new_dir` (its rmtree and makedirs), `os.path.abspath` and the `OmeTiffWriter` calls. The absolute output directory is a parameter, and a written tile is the pair of its file name and its array. The full path `{new_dir}/{file_name}` is not modelled.
- `write_ome`, `_get_basename` and `save_params` of the writer are not modelled. The older writer, the loaders, the metadata reader and the CLI scripts are not part of this model.
- The `setattr` loop and the `__slots__` of the newer `__init__` are not modelled. The configuration is a typed record, so a missing or misspelt key in `params` is outside the model. Grid shape, resize factors and dilation box size are non-negative integers here; negative configured values are not modelled.
- numpy buffers other than the blocker's are immutable sequences in the model, assembled from the per-slot results. The zero-filling loops become `Collect` loops over the slots, and the prefilled zeros are never observable because every slot is overwritten. `SceneBlocker.block` keeps an `array2` of planes that is filled in place.
- The dimensionality checks numpy would make on inputs of the wrong rank, such as a 4-D scene passed to the blocker, are not modelled. Scenes are typed as 5-D stacks.
- TileTransform.ParallelTransformer.Stitch: `resize_quilt` is ignored, as in the source. The quilt is resized even when the factor is 1.
- TileWriting.TilePosition: the source computes the row as `int(tile / cols)`, a float division, which equals `k // cols` only while k is below 2^53. The model uses integer division.
- Operations.Apply: the library's own input checks other than those of reconstruction and the two-class Otsu threshold are not modelled, so those operations never raise in the model. Among them: `np.percentile` in `stretch` on an empty plane, `adjust_gamma` and `adjust_log` on negative pixels, and the library routines behind `ball`, `eq_hist`, `ada_hist`, `local_eq`, `blur` and `rescale` on inputs they refuse.
- Filters.Resize, Filters.ResizeTo, TileTransform.ParallelTransformer.Quilt, QuiltIsResizedMontage, StitchFails: `transform.resize` on an empty plane or with a zero output extent is not modelled as a failure. This covers the tile `_resize` with rf larger than a tile extent, and the quilt resize of an empty montage (Y == 0 or rows == 0) or with rf larger than rows * Y or cols * X. The model returns a plane of the (possibly empty) target shape there.
- Filters.Stretch: the error `np.percentile` raises on an empty plane is not modelled.
- Filters.DilateStatic: the `print('')` of the older `dilate_s` is not modelled.
- LegacyTransform.LegacyTransformer.Process: the `img_shape` it reads from the metadata is unused in the source and is not modelled.

Behaviour of the code that the model keeps:

- Unknown names of operations and channels raise `KeyError`. There is no dedicated exception, and an unknown operation is found only when a chain reaches it.
- `stitch` has no grid/tile-count check. Fewer tiles than grid cells are padded with the fill value, and more tiles than cells raise `IndexError` inside `montage`.
- The newer `stitch` never rescales the quilt's intensities and resizes for every factor, including 1.
- A failing plane propagates the raw exception of its operation. There is no wrapping error with the plane's index.
