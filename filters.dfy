/** The per-plane image filters. The floating-point numerics of the imaging library (gaussian
    blur, histogram equalisation, morphological reconstruction, resampling, ...) are not
    modelled: they are values of the `Numerics` record, supplied by the caller. What the
    pipeline itself computes around them is modelled exactly: the dilation seeds, the
    reconstruction's seed-below-mask and empty-seed checks, Otsu binarisation by `digitize` and
    its two-distinct-values requirement, and the resize target shape. */
module Filters {
  import opened Outcomes
  import opened Images

  /** A library filter with one, or two, scalar parameters, seen pixel by pixel. */
  type Kernel1 = real -> Kernel
  type Kernel2 = (real, real) -> Kernel

  datatype Numerics = Numerics(
    rollingBall: Kernel,                          // restoration.rolling_ball (default radius)
    equalizeHist: Kernel,                         // exposure.equalize_hist
    equalizeAdapthist: Kernel2,                   // exposure.equalize_adapthist(clip, kernel_size)
    rankEqualize: Kernel1,                        // filters.rank.equalize with a disk(radius)
    gaussian: Kernel1,                            // filters.gaussian(sigma, mode='reflect')
    adjustGamma: Kernel1,                         // exposure.adjust_gamma(gamma)
    adjustLog: Kernel1,                           // exposure.adjust_log(gain)
    rescaleOut: Kernel2,                          // exposure.rescale_intensity(out_range=(lo, hi))
    rescaleIn: Kernel2,                           // exposure.rescale_intensity(in_range=(lo, hi))
    percentile: (Plane, real) -> real,            // np.percentile
    median: Plane -> real,                        // np.median
    multiOtsu: Plane -> real,                     // the one threshold of threshold_multiotsu(classes=2)
    reconstruct: Plane -> Kernel,                 // reconstruction(seed, mask, method='dilation')
    resample: (Plane, int, int) -> (int, int) -> real, // transform.resize(image, (h, w)), by pixel
    montageFill: seq<Plane> -> real               // the mean of all tiles, montage's fill value
  )

  /** The smallest pixel of a non-empty list of values. */
  function MinOf(s: seq<real>): (r: real)
    requires |s| > 0
    ensures forall i | 0 <= i < |s| :: r <= s[i]
    ensures exists i | 0 <= i < |s| :: s[i] == r
  {
    if |s| == 1 then s[0]
    else
      var m := MinOf(s[1..]);
      assert forall i | 1 <= i < |s| :: s[i] == s[1..][i - 1];
      if s[0] <= m then s[0] else m
  }

  /** `image.min()` of a non-empty plane: a pixel no larger than any other. */
  function MinPixel(p: Plane): (r: real)
    requires NonEmpty(p)
    ensures forall y, x :: 0 <= y < p.h && 0 <= x < p.w ==> r <= p.px[y][x]
    ensures exists y, x :: 0 <= y < p.h && 0 <= x < p.w && p.px[y][x] == r
  {
    var rowMins := seq(p.h, y requires 0 <= y < p.h => MinOf(p.px[y]));
    var m := MinOf(rowMins);
    assert forall y | 0 <= y < p.h :: rowMins[y] == MinOf(p.px[y]);
    m
  }

  /** Python's normalisation of a slice bound `i` on an axis of length n. */
  function SliceBound(i: int, n: nat): (r: nat)
    ensures r <= n
    ensures 0 <= i ==> r == if i <= n then i else n
    ensures i < 0 ==> r == if -i <= n then n + i else 0
  {
    if i < 0 then (if -i <= n then n + i else 0)
    else if i <= n then i else n
  }

  /** Row or column y lies inside the slice `[b:-b]` of an axis of length n. */
  predicate InInterior(y: int, b: int, n: nat) {
    SliceBound(b, n) <= y < SliceBound(-b, n)
  }

  /** `seed = np.copy(image); seed[b:-b, b:-b] = v`: the interior window set to v, every other
      pixel a copy of the image. */
  function DilationSeed(p: Plane, b: int, v: real): (seed: Plane)
    ensures HasShape(seed, p.h, p.w)
    ensures forall y, x :: 0 <= y < p.h && 0 <= x < p.w ==>
      seed.px[y][x] == if InInterior(y, b, p.h) && InInterior(x, b, p.w) then v else p.px[y][x]
  {
    Build(p.h, p.w, (y, x) => if 0 <= y < p.h && 0 <= x < p.w then
      (if InInterior(y, b, p.h) && InInterior(x, b, p.w) then v else p.px[y][x]) else 0.0)
  }

  /** The in-place form of `DilationSeed`: copy the image into a fresh buffer, then overwrite
      the interior window. */
  method FillDilationSeed(p: Plane, b: int, v: real) returns (seed: array2<real>)
    ensures fresh(seed) && seed.Length0 == p.h && seed.Length1 == p.w
    ensures forall y, x :: 0 <= y < p.h && 0 <= x < p.w ==> seed[y, x] == DilationSeed(p, b, v).px[y][x]
  {
    seed := new real[p.h, p.w]((y, x) requires 0 <= y < p.h && 0 <= x < p.w reads {} => p.px[y][x]);
    assert forall y, x :: 0 <= y < p.h && 0 <= x < p.w ==> seed[y, x] == p.px[y][x];
    label Copied:
    var y0, y1 := SliceBound(b, p.h), SliceBound(-b, p.h);
    var x0, x1 := SliceBound(b, p.w), SliceBound(-b, p.w);
    forall y, x | y0 <= y < y1 && x0 <= x < x1 {
      seed[y, x] := v;
    }
    var want := DilationSeed(p, b, v);
    forall y, x | 0 <= y < p.h && 0 <= x < p.w
      ensures seed[y, x] == want.px[y][x]
    {
      if !(InInterior(y, b, p.h) && InInterior(x, b, p.w)) {
        assert seed[y, x] == old@Copied(seed[y, x]);
      }
    }
  }

  /** With a box size of 0 the slice `[0:-0]` is `[0:0]`, so the seed is a plain copy. */
  lemma DilationSeedZeroBox(p: Plane, v: real)
    ensures DilationSeed(p, 0, v) == p
  {
    Extensionality(DilationSeed(p, 0, v), p);
  }

  /** Seeding with the image minimum never raises a pixel above the image. */
  lemma DilationSeedBelowImage(p: Plane, b: int)
    requires NonEmpty(p)
    ensures forall y, x :: 0 <= y < p.h && 0 <= x < p.w ==>
      DilationSeed(p, b, MinPixel(p)).px[y][x] <= p.px[y][x]
  {
  }

  /** Some seed pixel lies above the mask. */
  predicate SeedAboveMask(seed: Plane, mask: Plane)
    requires HasShape(seed, mask.h, mask.w)
  {
    exists y, x :: 0 <= y < mask.h && 0 <= x < mask.w && seed.px[y][x] > mask.px[y][x]
  }

  /** Morphological reconstruction by dilation: ValueError when a seed pixel exceeds the mask,
      then ValueError when the seed is empty (its minimum, the padding value, is taken over no
      pixels), otherwise the library's reconstruction, of the mask's shape. */
  function Reconstruct(lib: Numerics, seed: Plane, mask: Plane): (r: Result<Plane>)
    requires HasShape(seed, mask.h, mask.w)
    ensures r.Err? <==> SeedAboveMask(seed, mask) || !NonEmpty(mask)
    ensures r.Err? ==> r.error == ValueError
    ensures r.Ok? ==> HasShape(r.value, mask.h, mask.w)
  {
    if SeedAboveMask(seed, mask) then Err(ValueError)
    else if !NonEmpty(seed) then Err(ValueError)
    else Ok(Pointwise(lib.reconstruct(seed), mask))
  }

  /** `dilate`: background subtraction by reconstruction from a seed whose interior window is
      lowered to the image minimum. `image.min()` raises ValueError on an empty plane. */
  function Dilate(lib: Numerics, boxSize: int, p: Plane): (r: Result<Plane>)
    ensures r.Ok? ==> HasShape(r.value, p.h, p.w)
  {
    if !NonEmpty(p) then Err(ValueError)
    else
      var seed := DilationSeed(p, boxSize, MinPixel(p));
      var dilated :- Reconstruct(lib, seed, p);
      Ok(Subtract(p, dilated))
  }

  /** The seed of `dilate` is never above the image, so `dilate` fails exactly on an empty plane,
      and then with ValueError. */
  lemma DilateFailsOnlyWhenEmpty(lib: Numerics, boxSize: int, p: Plane)
    ensures Dilate(lib, boxSize, p).Err? <==> !NonEmpty(p)
    ensures Dilate(lib, boxSize, p).Err? ==> Dilate(lib, boxSize, p).error == ValueError
  {
    if NonEmpty(p) {
      DilationSeedBelowImage(p, boxSize);
      var seed := DilationSeed(p, boxSize, MinPixel(p));
      assert !SeedAboveMask(seed, p);
    }
  }

  /** The library's reconstruction never rises above its mask (as reconstruction by dilation
      promises mathematically). */
  ghost predicate ReconstructionBelowMask(lib: Numerics) {
    forall seed: Plane, mask: Plane, y: int, x: int
      | 0 <= y < mask.h && 0 <= x < mask.w :: lib.reconstruct(seed)(mask)(y, x) <= mask.px[y][x]
  }

  /** Under that promise the result of `dilate` has no negative pixel. */
  lemma DilateNonNegative(lib: Numerics, boxSize: int, p: Plane)
    requires ReconstructionBelowMask(lib)
    requires Dilate(lib, boxSize, p).Ok?
    ensures forall y, x :: 0 <= y < p.h && 0 <= x < p.w ==> Dilate(lib, boxSize, p).value.px[y][x] >= 0.0
  {
    var seed := DilationSeed(p, boxSize, MinPixel(p));
    var dilated := Reconstruct(lib, seed, p).value;
    forall y, x | 0 <= y < p.h && 0 <= x < p.w
      ensures p.px[y][x] - dilated.px[y][x] >= 0.0
    {
      assert dilated.px[y][x] == lib.reconstruct(seed)(p)(y, x);
    }
  }

  /** The static dilation level `h`: a number, or 'm' for the image median. */
  datatype SeedLevel = Fixed(level: real) | MedianOfImage

  function Level(lib: Numerics, h: SeedLevel, p: Plane): real {
    match h
    case Fixed(v) => v
    case MedianOfImage => lib.median(p)
  }

  /** `image - h`: every pixel lowered by the level. */
  function Lowered(p: Plane, level: real): (r: Plane)
    ensures HasShape(r, p.h, p.w)
    ensures forall y, x :: 0 <= y < p.h && 0 <= x < p.w ==> r.px[y][x] == p.px[y][x] - level
  {
    Build(p.h, p.w, (y, x) => if 0 <= y < p.h && 0 <= x < p.w then p.px[y][x] - level else 0.0)
  }

  /** `dilate_s`: reconstruction from the image lowered by a fixed level or by its median. */
  function DilateStatic(lib: Numerics, h: SeedLevel, p: Plane): (r: Result<Plane>)
    ensures r.Ok? ==> HasShape(r.value, p.h, p.w)
  {
    var seed := Lowered(p, Level(lib, h, p));
    var dilated :- Reconstruct(lib, seed, p);
    Ok(Subtract(p, dilated))
  }

  /** `dilate_s` raises (ValueError) exactly when the plane is empty, where reconstruction has no
      seed minimum, or the level is negative, since only then does the lowered seed rise above
      the image. */
  lemma DilateStaticFails(lib: Numerics, h: SeedLevel, p: Plane)
    ensures DilateStatic(lib, h, p).Err? <==> !NonEmpty(p) || Level(lib, h, p) < 0.0
    ensures DilateStatic(lib, h, p).Err? ==> DilateStatic(lib, h, p).error == ValueError
  {
    var level := Level(lib, h, p);
    var seed := Lowered(p, level);
    if NonEmpty(p) && level < 0.0 {
      assert seed.px[0][0] > p.px[0][0];
    }
  }

  /** `np.digitize(v, bins)` for increasing bins: the number of bins at or below v. */
  function Digitize(v: real, bins: seq<real>): (r: nat)
    ensures r <= |bins|
  {
    if |bins| == 0 then 0
    else (if bins[|bins| - 1] <= v then 1 else 0) + Digitize(v, bins[..|bins| - 1])
  }

  predicate Increasing(bins: seq<real>) {
    forall i, j | 0 <= i < j < |bins| :: bins[i] < bins[j]
  }

  /** For increasing bins, the index digitize returns is the bin interval holding v:
      `bins[r - 1] <= v < bins[r]`. */
  lemma {:induction false} DigitizeBrackets(v: real, bins: seq<real>)
    requires Increasing(bins)
    ensures 0 < Digitize(v, bins) ==> bins[Digitize(v, bins) - 1] <= v
    ensures Digitize(v, bins) < |bins| ==> v < bins[Digitize(v, bins)]
  {
    if |bins| > 0 {
      var init := bins[..|bins| - 1];
      assert forall i | 0 <= i < |init| :: init[i] == bins[i];
      DigitizeBrackets(v, init);
      if bins[|bins| - 1] <= v {
        DigitizeAll(v, init);
      }
    }
  }

  /** If the last and largest bin is at or below v, so are all of them. */
  lemma {:induction false} DigitizeAll(v: real, bins: seq<real>)
    requires forall i | 0 <= i < |bins| :: bins[i] <= v
    ensures Digitize(v, bins) == |bins|
  {
    if |bins| > 0 {
      DigitizeAll(v, bins[..|bins| - 1]);
    }
  }

  /** The plane holds two pixels of different values. */
  predicate Varied(p: Plane) {
    exists y1, x1, y2, x2 :: 0 <= y1 < p.h && 0 <= x1 < p.w && 0 <= y2 < p.h && 0 <= x2 < p.w &&
      p.px[y1][x1] != p.px[y2][x2]
  }

  /** `otsu`: threshold_multiotsu with two classes rejects (ValueError) a plane with fewer than
      two distinct values, since it cannot split it into two classes; otherwise it gives one
      threshold t, and digitize labels each pixel 1 if it is at least t and 0 otherwise. */
  function Otsu(lib: Numerics, p: Plane): (r: Result<Plane>)
    ensures r.Err? <==> !Varied(p)
    ensures r.Err? ==> r.error == ValueError
    ensures r.Ok? ==> HasShape(r.value, p.h, p.w)
  {
    if !Varied(p) then Err(ValueError)
    else
      var t := lib.multiOtsu(p);
      Ok(Build(p.h, p.w, (y, x) => if 0 <= y < p.h && 0 <= x < p.w then Digitize(p.px[y][x], [t]) as real else 0.0))
  }

  /** A constant plane, and so also an empty one, cannot be binarised. */
  lemma OtsuRejectsConstant(lib: Numerics, p: Plane, v: real)
    requires forall y, x | 0 <= y < p.h && 0 <= x < p.w :: p.px[y][x] == v
    ensures Otsu(lib, p) == Err(ValueError)
  {
  }

  /** The Otsu output is a binary mask of the pixels at or above the threshold. */
  lemma OtsuIsThresholdMask(lib: Numerics, p: Plane)
    ensures Otsu(lib, p).Ok? ==> forall y, x :: 0 <= y < p.h && 0 <= x < p.w ==>
      Otsu(lib, p).value.px[y][x] == if p.px[y][x] >= lib.multiOtsu(p) then 1.0 else 0.0
  {
    if Otsu(lib, p).Ok? {
      forall y, x | 0 <= y < p.h && 0 <= x < p.w
        ensures Otsu(lib, p).value.px[y][x] == if p.px[y][x] >= lib.multiOtsu(p) then 1.0 else 0.0
      {
        var t := lib.multiOtsu(p);
        assert [t][..0] == [];
      }
    }
  }

  /** `transform.resize(image, (h, w))`. */
  function ResizeTo(lib: Numerics, p: Plane, h: nat, w: nat): (r: Plane)
    ensures HasShape(r, h, w)
    ensures forall y, x :: 0 <= y < h && 0 <= x < w ==> r.px[y][x] == lib.resample(p, h, w)(y, x)
  {
    Build(h, w, lib.resample(p, h, w))
  }

  /** `_resize`: shrink by the tile resize factor rf to `(H // rf, W // rf)`; rf = 0 raises
      ZeroDivisionError. */
  function Resize(lib: Numerics, rf: nat, p: Plane): (r: Result<Plane>)
    ensures r.Err? <==> rf == 0
    ensures r.Err? ==> r.error == ZeroDivisionError
    ensures r.Ok? ==> HasShape(r.value, p.h / rf, p.w / rf) && r.value.h * rf <= p.h
  {
    if rf == 0 then Err(ZeroDivisionError) else Ok(ResizeTo(lib, p, p.h / rf, p.w / rf))
  }

  /** `stretch`: rescale the intensities between the 0.2 and 99.8 percentiles. */
  function Stretch(lib: Numerics, p: Plane): (r: Plane)
    ensures HasShape(r, p.h, p.w)
  {
    var lo, hi := lib.percentile(p, 0.2), lib.percentile(p, 99.8);
    Pointwise(lib.rescaleIn(lo, hi), p)
  }

  /** `ball`: the image minus its rolling-ball background. */
  function Ball(lib: Numerics, p: Plane): (r: Plane)
    ensures HasShape(r, p.h, p.w)
    ensures forall y, x :: 0 <= y < p.h && 0 <= x < p.w ==>
      r.px[y][x] == p.px[y][x] - lib.rollingBall(p)(y, x)
  {
    Subtract(p, Pointwise(lib.rollingBall, p))
  }
}
