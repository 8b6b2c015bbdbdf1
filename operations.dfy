/** The named per-plane operations, their configuration, and operation chains: the loop
    `for func in func_list: image = ops[func](image)` and the order-preserving `pool.map` of
    that loop over a list of planes. */
module Operations {
  import opened Outcomes
  import opened Images
  import Filters

  /** What an entry of an `ops` table runs. `UnboundLog` is a method declared without `self`:
      calling it through the instance passes two arguments to a one-argument function, which
      raises TypeError. */
  datatype Op =
    | Ball | Dilate | DilateStatic | EqHist | AdaptHist | LocalEq | Otsu | Blur | Gamma
    | Log | UnboundLog | Resize | RescaleUnit | RescaleRange | Stretch

  /** The configuration values the operations read. `rollingBallRadius` is read by `ball` but
      never passed to the library. */
  datatype Settings = Settings(
    adaptiveHistClip: real,
    adaptiveHistKernelSize: real,
    localEqRadius: real,
    gaussianBlurSigma: real,
    gammaCorrection: real,
    logCorrectionGain: real,
    staticDilationH: Filters.SeedLevel,
    dilationBoxSize: int,
    rollingBallRadius: real,
    tileResizeFactor: nat,
    intensityRescaleRange: (real, real)
  )

  /** The shape an operation gives a plane of shape (h, w) when it succeeds: only resize
      changes it. */
  function ShapeOf(op: Op, rf: nat, h: nat, w: nat): (nat, nat) {
    if op == Resize && rf > 0 then (h / rf, w / rf) else (h, w)
  }

  /** One operation applied to one plane. */
  function Apply(lib: Filters.Numerics, s: Settings, op: Op, p: Plane): (r: Result<Plane>)
    ensures r.Ok? ==> HasShape(r.value, ShapeOf(op, s.tileResizeFactor, p.h, p.w).0,
                                        ShapeOf(op, s.tileResizeFactor, p.h, p.w).1)
    ensures op == UnboundLog ==> r == Err(TypeError)
  {
    match op
    case Ball => Ok(Filters.Ball(lib, p))
    case Dilate => Filters.Dilate(lib, s.dilationBoxSize, p)
    case DilateStatic => Filters.DilateStatic(lib, s.staticDilationH, p)
    case EqHist => Ok(Pointwise(lib.equalizeHist, p))
    case AdaptHist =>
      Ok(Pointwise(lib.equalizeAdapthist(s.adaptiveHistClip, s.adaptiveHistKernelSize), p))
    case LocalEq => Ok(Pointwise(lib.rankEqualize(s.localEqRadius), p))
    case Otsu => Filters.Otsu(lib, p)
    case Blur => Ok(Pointwise(lib.gaussian(s.gaussianBlurSigma), p))
    case Gamma => Ok(Pointwise(lib.adjustGamma(s.gammaCorrection), p))
    case Log => Ok(Pointwise(lib.adjustLog(s.logCorrectionGain), p))
    case UnboundLog => Err(TypeError)
    case Resize => Filters.Resize(lib, s.tileResizeFactor, p)
    case RescaleUnit => Ok(Pointwise(lib.rescaleOut(0.0, 1.0), p))
    case RescaleRange =>
      Ok(Pointwise(lib.rescaleOut(s.intensityRescaleRange.0, s.intensityRescaleRange.1), p))
    case Stretch => Ok(Filters.Stretch(lib, p))
  }

  /** The operations of a chain, looked up by name one at a time and applied in order; the
      first unknown name raises KeyError when the loop reaches it. */
  function Chain(table: map<string, Op>, lib: Filters.Numerics, s: Settings, names: seq<string>, p: Plane)
    : (r: Result<Plane>)
    decreases |names|
  {
    if |names| == 0 then Ok(p)
    else if names[0] !in table then Err(KeyError(NameKey(names[0])))
    else
      var q :- Apply(lib, s, table[names[0]], p);
      Chain(table, lib, s, names[1..], q)
  }

  /** Running two chains one after the other is running their concatenation. */
  lemma {:induction false} ChainAppend(table: map<string, Op>, lib: Filters.Numerics, s: Settings,
                                       first: seq<string>, second: seq<string>, p: Plane)
    ensures Chain(table, lib, s, first + second, p) ==
      match Chain(table, lib, s, first, p)
      case Ok(q) => Chain(table, lib, s, second, q)
      case Err(e) => Err(e)
    decreases |first|
  {
    if |first| > 0 {
      assert (first + second)[0] == first[0];
      assert (first + second)[1..] == first[1..] + second;
      if first[0] in table {
        var q := Apply(lib, s, table[first[0]], p);
        if q.Ok? {
          ChainAppend(table, lib, s, first[1..], second, q.value);
        }
      }
    } else {
      assert first + second == second;
    }
  }

  /** A name missing from the table raises KeyError for that name when the loop reaches it,
      unless an earlier step has already raised. */
  lemma UnknownNameRaises(table: map<string, Op>, lib: Filters.Numerics, s: Settings,
                          before: seq<string>, name: string, after: seq<string>, p: Plane)
    requires name !in table
    ensures Chain(table, lib, s, before + [name] + after, p) ==
      match Chain(table, lib, s, before, p)
      case Ok(_) => Err(KeyError(NameKey(name)))
      case Err(e) => Err(e)
  {
    assert before + [name] + after == before + ([name] + after);
    ChainAppend(table, lib, s, before, [name] + after, p);
    assert ([name] + after)[0] == name;
  }

  /** A step that cannot succeed: a name missing from the table, or an unbound method. */
  predicate Doomed(table: map<string, Op>, name: string) {
    name !in table || table[name] == UnboundLog
  }

  /** A chain with a doomed step raises, whatever the plane. */
  lemma {:induction false} DoomedChainFails(table: map<string, Op>, lib: Filters.Numerics, s: Settings,
                                            names: seq<string>, i: nat, p: Plane)
    requires i < |names| && Doomed(table, names[i])
    ensures Chain(table, lib, s, names, p).Err?
    decreases |names|
  {
    if i > 0 && names[0] in table {
      var q := Apply(lib, s, table[names[0]], p);
      if q.Ok? {
        DoomedChainFails(table, lib, s, names[1..], i - 1, q.value);
      }
    }
  }

  /** A KeyError from a chain names one of its steps, and that step is missing from the table. */
  lemma {:induction false} ChainKeyError(table: map<string, Op>, lib: Filters.Numerics, s: Settings,
                                         names: seq<string>, p: Plane, name: string)
    requires Chain(table, lib, s, names, p) == Err(KeyError(NameKey(name)))
    ensures name in names && name !in table
    decreases |names|
  {
    if names[0] in table {
      var q := Apply(lib, s, table[names[0]], p);
      ChainKeyError(table, lib, s, names[1..], q.value, name);
    }
  }

  /** The shape a chain gives a plane of shape (h, w) when it succeeds. */
  function ShapeAfter(table: map<string, Op>, rf: nat, names: seq<string>, h: nat, w: nat): (nat, nat)
    decreases |names|
  {
    if |names| == 0 then (h, w)
    else
      var next := if names[0] in table then ShapeOf(table[names[0]], rf, h, w) else (h, w);
      ShapeAfter(table, rf, names[1..], next.0, next.1)
  }

  /** A successful chain produces a plane of the shape ShapeAfter predicts. */
  lemma {:induction false} ChainShape(table: map<string, Op>, lib: Filters.Numerics, s: Settings,
                                      names: seq<string>, p: Plane)
    requires Chain(table, lib, s, names, p).Ok?
    ensures HasShape(Chain(table, lib, s, names, p).value,
                     ShapeAfter(table, s.tileResizeFactor, names, p.h, p.w).0,
                     ShapeAfter(table, s.tileResizeFactor, names, p.h, p.w).1)
    decreases |names|
  {
    if |names| > 0 {
      var q := Apply(lib, s, table[names[0]], p);
      ChainShape(table, lib, s, names[1..], q.value);
    }
  }

  /** Shapes compose along concatenated chains. */
  lemma {:induction false} ShapeAfterAppend(table: map<string, Op>, rf: nat, first: seq<string>,
                                            second: seq<string>, h: nat, w: nat)
    ensures ShapeAfter(table, rf, first + second, h, w) ==
      ShapeAfter(table, rf, second, ShapeAfter(table, rf, first, h, w).0, ShapeAfter(table, rf, first, h, w).1)
    decreases |first|
  {
    if |first| == 0 {
      assert first + second == second;
    } else {
      assert (first + second)[0] == first[0];
      assert (first + second)[1..] == first[1..] + second;
      var next := if first[0] in table then ShapeOf(table[first[0]], rf, h, w) else (h, w);
      ShapeAfterAppend(table, rf, first[1..], second, next.0, next.1);
    }
  }

  /** The chain never resizes. */
  predicate NoResize(table: map<string, Op>, names: seq<string>) {
    forall i | 0 <= i < |names| :: names[i] in table ==> table[names[i]] != Resize
  }

  /** A chain without resize keeps the shape of its plane. */
  lemma {:induction false} ShapeAfterNoResize(table: map<string, Op>, rf: nat, names: seq<string>, h: nat, w: nat)
    requires NoResize(table, names)
    ensures ShapeAfter(table, rf, names, h, w) == (h, w)
    decreases |names|
  {
    if |names| > 0 {
      assert forall i | 0 <= i < |names| - 1 :: names[1..][i] == names[i + 1];
      ShapeAfterNoResize(table, rf, names[1..], h, w);
    }
  }

  /** `_process_image`: the loop over the chain, stopping at the first step that raises. */
  method RunChain(table: map<string, Op>, lib: Filters.Numerics, s: Settings, names: seq<string>, p: Plane)
    returns (r: Result<Plane>)
    ensures r == Chain(table, lib, s, names, p)
    ensures |names| == 0 ==> r == Ok(p)
  {
    var image := p;
    for i := 0 to |names|
      invariant Chain(table, lib, s, names, p) == Chain(table, lib, s, names[i..], image)
    {
      assert names[i..][0] == names[i] && names[i..][1..] == names[i + 1..];
      if names[i] !in table {
        return Err(KeyError(NameKey(names[i])));
      }
      var next := Apply(lib, s, table[names[i]], image);
      if next.Err? {
        return Err(next.error);
      }
      image := next.value;
    }
    assert names[|names|..] == [];
    r := Ok(image);
  }

  /** The chain applied to each plane of a list, in order; the list fails with the error of the
      first plane whose chain fails. */
  function MapChain(table: map<string, Op>, lib: Filters.Numerics, s: Settings, names: seq<string>,
                    planes: seq<Plane>): (r: Result<seq<Plane>>)
    ensures r.Ok? <==> forall i | 0 <= i < |planes| :: Chain(table, lib, s, names, planes[i]).Ok?
    ensures r.Ok? ==> |r.value| == |planes|
    ensures r.Ok? ==> forall i | 0 <= i < |planes| :: Chain(table, lib, s, names, planes[i]) == Ok(r.value[i])
    ensures r.Err? ==> exists i | 0 <= i < |planes| ::
      Chain(table, lib, s, names, planes[i]) == Err(r.error) &&
      forall j | 0 <= j < i :: Chain(table, lib, s, names, planes[j]).Ok?
  {
    Collect(ChainSteps(table, lib, s, names, planes))
  }

  /** The chain's outcome on each plane of a list, in order. */
  function ChainSteps(table: map<string, Op>, lib: Filters.Numerics, s: Settings, names: seq<string>,
                      planes: seq<Plane>): (steps: seq<Result<Plane>>)
    ensures |steps| == |planes|
    ensures forall i | 0 <= i < |planes| :: steps[i] == Chain(table, lib, s, names, planes[i])
  {
    seq(|planes|, i requires 0 <= i < |planes| => Chain(table, lib, s, names, planes[i]))
  }

  /** Planes of one shape come back from the chain with one shape, so the results of a map are
      never ragged. */
  lemma MapChainShapes(table: map<string, Op>, lib: Filters.Numerics, s: Settings, names: seq<string>,
                       planes: seq<Plane>, h: nat, w: nat)
    requires forall i | 0 <= i < |planes| :: HasShape(planes[i], h, w)
    requires MapChain(table, lib, s, names, planes).Ok?
    ensures forall i | 0 <= i < |planes| :: HasShape(MapChain(table, lib, s, names, planes).value[i],
      ShapeAfter(table, s.tileResizeFactor, names, h, w).0, ShapeAfter(table, s.tileResizeFactor, names, h, w).1)
  {
    forall i | 0 <= i < |planes|
      ensures HasShape(MapChain(table, lib, s, names, planes).value[i],
        ShapeAfter(table, s.tileResizeFactor, names, h, w).0, ShapeAfter(table, s.tileResizeFactor, names, h, w).1)
    {
      ChainShape(table, lib, s, names, planes[i]);
    }
  }

  /** `pool.map(partial(_process_image, func_list=names), planes)`: the results come back in the
      order of the planes, and the first plane that fails decides the error. */
  method OrderedMap(table: map<string, Op>, lib: Filters.Numerics, s: Settings, names: seq<string>,
                    planes: seq<Plane>) returns (r: Result<seq<Plane>>)
    ensures r == MapChain(table, lib, s, names, planes)
  {
    ghost var steps := ChainSteps(table, lib, s, names, planes);
    var results: seq<Plane> := [];
    for i := 0 to |planes|
      invariant Collect(steps[..i]) == Ok(results)
    {
      var out := RunChain(table, lib, s, names, planes[i]);
      if out.Err? {
        CollectStops(steps, i, results);
        return Err(out.error);
      }
      CollectExtend(steps, i, results);
      results := results + [out.value];
    }
    assert steps[..|planes|] == steps;
    r := Ok(results);
  }
}
