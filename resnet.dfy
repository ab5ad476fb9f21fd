/**
 * The configuration rules of simplecv's `ResNetEncoder`: which output strides it accepts,
 * which stages it freezes, how it trades the stride of the last stages for dilation, and
 * how many feature maps its forward pass returns.
 */
module ResNet {
  import opened Wrappers

  /** The five stages of a torchvision ResNet backbone, in forward order. */
  datatype Stage = Stem | Layer1 | Layer2 | Layer3 | Layer4

  /** Position of a stage: 0 for `conv1`/`bn1`, 1 to 4 for `layer1` to `layer4`. */
  function StageIndex(s: Stage): (i: nat)
    ensures i < 5
  {
    match s
    case Stem => 0
    case Layer1 => 1
    case Layer2 => 2
    case Layer3 => 3
    case Layer4 => 4
  }

  function StageAt(i: nat): (s: Stage)
    requires i < 5
    ensures StageIndex(s) == i
  {
    if i == 0 then Stem
    else if i == 1 then Layer1
    else if i == 2 then Layer2
    else if i == 3 then Layer3
    else Layer4
  }

  /**
   * A submodule of the backbone as `_nostride_dilate` sees it: the stage it belongs to, the
   * name of its class, and the pair-valued hyper-parameters a convolution carries.
   */
  datatype Module = Module(
    stage: Stage,
    className: string,
    stride: (int, int),
    kernelSize: (int, int),
    dilation: (int, int),
    padding: (int, int))

  predicate OccursAt(s: string, sub: string, i: int)
  {
    0 <= i && i + |sub| <= |s| && s[i..i + |sub|] == sub
  }

  /** `s.find(sub, from)`: the lowest index at or after `from` where `sub` occurs in `s`, or -1. */
  function FindFrom(s: string, sub: string, from: nat): (r: int)
    requires from <= |s|
    ensures r == -1 || (from <= r && OccursAt(s, sub, r))
    ensures forall j | from <= j && (r == -1 || j < r) :: !OccursAt(s, sub, j)
    decreases |s| - from
  {
    if from + |sub| > |s| then
      -1
    else if s[from..from + |sub|] == sub then
      from
    else if from == |s| then
      -1
    else
      FindFrom(s, sub, from + 1)
  }

  /** `s.find(sub)`. */
  function Find(s: string, sub: string): (r: int)
    ensures r == -1 <==> forall j :: !OccursAt(s, sub, j)
    ensures r != -1 ==> OccursAt(s, sub, r) && forall j | j < r :: !OccursAt(s, sub, j)
  {
    FindFrom(s, sub, 0)
  }

  /** The class-name test of `_nostride_dilate`: the class name contains `Conv`. */
  predicate IsConv(m: Module)
  {
    Find(m.className, "Conv") != -1
  }

  /**
   * `_nostride_dilate(m, dilate)`: a convolution of stride (2, 2) loses its stride and, when
   * it is 3x3, takes dilation and padding `dilate // 2`; any other 3x3 convolution takes
   * dilation and padding `dilate`. Every other module, and every other field, is kept.
   */
  function NoStrideDilate(m: Module, dilate: nat): (r: Module)
    ensures r.stage == m.stage && r.className == m.className && r.kernelSize == m.kernelSize
    ensures !IsConv(m) ==> r == m
    ensures IsConv(m) ==> r.stride != (2, 2)
    ensures r.stride == (if IsConv(m) && m.stride == (2, 2) then (1, 1) else m.stride)
    ensures r.kernelSize != (3, 3) ==> r.dilation == m.dilation && r.padding == m.padding
    ensures IsConv(m) && m.kernelSize == (3, 3) ==>
      r.dilation == r.padding == (if m.stride == (2, 2) then (dilate / 2, dilate / 2) else (dilate, dilate))
  {
    if Find(m.className, "Conv") != -1 then
      if m.stride == (2, 2) then
        var m' := m.(stride := (1, 1));
        if m.kernelSize == (3, 3) then
          m'.(dilation := (dilate / 2, dilate / 2), padding := (dilate / 2, dilate / 2))
        else
          m'
      else if m.kernelSize == (3, 3) then
        m.(dilation := (dilate, dilate), padding := (dilate, dilate))
      else
        m
    else
      m
  }

  /**
   * Spatial output size of a convolution along one axis, as PyTorch computes it:
   * `(n + 2 * padding - dilation * (kernel - 1) - 1) // stride + 1`.
   */
  function ConvOutSize(n: int, kernel: int, stride: int, dilation: int, padding: int): int
    requires stride > 0
  {
    Floor(n + 2 * padding - dilation * (kernel - 1) - 1, stride) + 1
  }

  /** Python's floor division `a // b` for a positive divisor. */
  function Floor(a: int, b: int): (q: int)
    requires b > 0
    ensures q * b <= a < q * b + b
  {
    a / b
  }

  /** A stride-2 3x3 convolution padded by its dilation roughly halves the resolution. */
  lemma StridedConvHalves(n: nat, d: nat)
    requires n > 0 && d > 0
    ensures ConvOutSize(n, 3, 2, d, d) == (n + 1) / 2
  {
  }

  /**
   * The rewrite is what removes the downsampling: a 3x3 convolution of stride 1 or 2 comes out
   * of stride 1 with padding equal to its dilation, so its output keeps the input's resolution,
   * and so does a 1x1 convolution without padding.
   */
  lemma RewrittenConvKeepsResolution(m: Module, dilate: nat, n: int)
    requires IsConv(m)
    requires m.stride == (1, 1) || m.stride == (2, 2)
    requires m.kernelSize == (3, 3) || (m.kernelSize == (1, 1) && m.padding == (0, 0))
    ensures var r := NoStrideDilate(m, dilate);
      && r.stride == (1, 1)
      && ConvOutSize(n, r.kernelSize.0, r.stride.0, r.dilation.0, r.padding.0) == n
      && ConvOutSize(n, r.kernelSize.1, r.stride.1, r.dilation.1, r.padding.1) == n
  {
  }

  /** The example class names of torchvision's backbone, as `_nostride_dilate` classifies them. */
  lemma ClassNames()
    ensures Find("Conv2d", "Conv") == 0
    ensures Find("BatchNorm2d", "Conv") == -1
    ensures Find("Bottleneck", "Conv") == -1
  {
    assert OccursAt("Conv2d", "Conv", 0) by {
      assert "Conv2d"[0..4] == "Conv";
    }
    NoCapitalC("BatchNorm2d");
    NoCapitalC("Bottleneck");
  }

  /** A name without a capital C cannot contain `Conv`. */
  lemma NoCapitalC(name: string)
    requires forall i | 0 <= i < |name| :: name[i] != 'C'
    ensures Find(name, "Conv") == -1
  {
    forall j
      ensures !OccursAt(name, "Conv", j)
    {
      if 0 <= j && j + 4 <= |name| {
        assert name[j..j + 4][0] == name[j] != 'C';
      }
    }
  }

  /** The stages the encoder dilates, with the dilation each receives. */
  datatype Plan = Plan(layer3: Option<nat>, layer4: Option<nat>)

  /**
   * The output stride a plan yields: the stem downsamples by 4 (`conv1` and `maxpool`),
   * `layer1` keeps the resolution, and `layer2`, `layer3` and `layer4` each halve it unless
   * they are dilated.
   */
  function PlannedOutputStride(p: Plan): nat
  {
    4 * 1 * 2 * (if p.layer3.None? then 2 else 1) * (if p.layer4.None? then 2 else 1)
  }

  /**
   * The encoder's dilation plan for `outputStride`: 32 dilates nothing, 16 dilates `layer4`
   * by 2, 8 dilates `layer3` by 2 and `layer4` by 4; any other value is refused.
   */
  function DilationPlan(outputStride: int): (r: Result<Plan, Error>)
    ensures r.Success? <==> outputStride in {8, 16, 32}
    ensures r.Failure? ==> r.error == ValueError("output_stride must be 8, 16 or 32.")
    ensures r.Success? ==> PlannedOutputStride(r.value) == outputStride
    ensures r.Success? && r.value.layer3.Some? ==> r.value.layer4.Some?
    ensures r.Success? && r.value.layer4.Some? ==>
      r.value.layer4.value == 2 * (if r.value.layer3.Some? then r.value.layer3.value else 1)
    ensures r.Success? && r.value.layer3.Some? ==> r.value.layer3.value == 2
  {
    if outputStride != 16 && outputStride != 32 && outputStride != 8 then
      Failure(ValueError("output_stride must be 8, 16 or 32."))
    else if outputStride == 16 then
      Success(Plan(None, Some(2)))
    else if outputStride == 8 then
      Success(Plan(Some(2), Some(4)))
    else
      Success(Plan(None, None))
  }

  /** The dilation `p` gives to stage `s`, if any; only `layer3` and `layer4` can have one. */
  function DilationOf(p: Plan, s: Stage): Option<nat>
  {
    match s
    case Layer3 => p.layer3
    case Layer4 => p.layer4
    case _ => None
  }

  /** A module after the plan: rewritten by `_nostride_dilate` if its stage is dilated. */
  function Planned(m: Module, p: Plan): (r: Module)
    ensures DilationOf(p, m.stage).None? ==> r == m
    ensures DilationOf(p, m.stage).Some? ==> r == NoStrideDilate(m, DilationOf(p, m.stage).value)
  {
    match DilationOf(p, m.stage)
    case None => m
    case Some(d) => NoStrideDilate(m, d)
  }

  /** The dilation rate a stage runs at under `p`: its dilation, or 1 when it is not dilated. */
  function Rate(p: Plan, s: Stage): nat
  {
    match DilationOf(p, s)
    case None => 1
    case Some(d) => d
  }

  /**
   * The rates of a valid plan chain from stage to stage: in a dilated stage the strided 3x3
   * convolution, which still sees the previous stage's resolution, runs at the previous stage's
   * rate, and every other 3x3 convolution runs at the stage's own rate, twice that.
   */
  lemma RatesContinue(outputStride: int, m: Module)
    requires DilationPlan(outputStride).Success?
    requires IsConv(m) && m.kernelSize == (3, 3) && m.stage in {Layer3, Layer4}
    requires DilationOf(DilationPlan(outputStride).value, m.stage).Some?
    ensures var p := DilationPlan(outputStride).value;
      var previous := if m.stage == Layer3 then Layer2 else Layer3;
      && Rate(p, m.stage) == 2 * Rate(p, previous)
      && Planned(m, p).dilation == (if m.stride == (2, 2) then (Rate(p, previous), Rate(p, previous))
                                    else (Rate(p, m.stage), Rate(p, m.stage)))
  {
  }

  /** The stem, `layer1` and `layer2` come through any valid plan unchanged. */
  lemma EarlyStagesUntouched(outputStride: int, m: Module)
    requires DilationPlan(outputStride).Success?
    requires m.stage in {Stem, Layer1, Layer2}
    ensures Planned(m, DilationPlan(outputStride).value) == m
  {
  }

  /** With output stride 32 no module changes. */
  lemma Stride32Untouched(m: Module)
    ensures DilationPlan(32) == Success(Plan(None, None))
    ensures Planned(m, DilationPlan(32).value) == m
  {
  }

  /** After a valid plan no convolution of a dilated stage keeps a stride of (2, 2). */
  lemma DilatedStagesLoseStride(outputStride: int, m: Module)
    requires DilationPlan(outputStride).Success?
    requires IsConv(m) && DilationOf(DilationPlan(outputStride).value, m.stage).Some?
    ensures Planned(m, DilationPlan(outputStride).value).stride != (2, 2)
  {
  }

  /** `_freeze_at(at)` freezes stage `s` exactly when `at` exceeds its position. */
  predicate Freezes(at: int, s: Stage)
  {
    at >= StageIndex(s) + 1
  }

  /** The frozen stages form a prefix of the backbone that grows with `at`. */
  lemma FreezesMonotone(at: int, at': int, s: Stage, t: Stage)
    requires at <= at'
    ensures Freezes(at, s) ==> Freezes(at', s)
    ensures StageIndex(t) <= StageIndex(s) && Freezes(at, s) ==> Freezes(at, t)
  {
  }

  /** `at <= 0` freezes nothing, `at >= 5` freezes everything. */
  lemma FreezesBounds(at: int, s: Stage)
    ensures at <= 0 ==> !Freezes(at, s)
    ensures at >= 5 ==> Freezes(at, s)
  {
  }

  /** The number of stages `_freeze_at(at)` freezes. */
  function FrozenCount(at: int): (n: nat)
    ensures n <= 5
    ensures forall i | 0 <= i < 5 :: Freezes(at, StageAt(i)) <==> i < n
  {
    if at <= 0 then 0 else if at >= 5 then 5 else at
  }

  /** The configuration keys the encoder reads. */
  datatype Config = Config(outputStride: int, includeConv5: bool, freezeAt: int)

  /** `set_defalut_config`, restricted to the keys above. */
  const DefaultConfig := Config(32, true, 0)

  /** The default configuration is accepted, freezes nothing and rewrites nothing. */
  lemma DefaultConfigIsPlain(s: Stage, m: Module)
    ensures DilationPlan(DefaultConfig.outputStride).Success?
    ensures !Freezes(DefaultConfig.freezeAt, s)
    ensures Planned(m, DilationPlan(DefaultConfig.outputStride).value) == m
  {
  }

  /**
   * The encoder's forward pass over abstract feature maps: the stem and then each stage in
   * turn, returning the outputs of `layer1` to `layer3` and, when `includeConv5`, of `layer4`.
   */
  function Forward<T>(x: T, stem: T -> T, layer1: T -> T, layer2: T -> T, layer3: T -> T,
                      layer4: T -> T, includeConv5: bool): (r: seq<T>)
    ensures |r| == if includeConv5 then 4 else 3
    ensures r[0] == layer1(stem(x)) && r[1] == layer2(r[0]) && r[2] == layer3(r[1])
    ensures includeConv5 ==> r[3] == layer4(r[2])
  {
    var c2 := layer1(stem(x));
    var c3 := layer2(c2);
    var c4 := layer3(c3);
    if includeConv5 then [c2, c3, c4, layer4(c4)] else [c2, c3, c4]
  }

  /** Leaving out `conv5` drops only the last map: the other three are the same. */
  lemma ForwardWithoutConv5<T>(x: T, stem: T -> T, layer1: T -> T, layer2: T -> T, layer3: T -> T,
                               layer4: T -> T)
    ensures Forward(x, stem, layer1, layer2, layer3, layer4, false)
         == Forward(x, stem, layer1, layer2, layer3, layer4, true)[..3]
  {
  }

  /**
   * A `ResNetEncoder`: the backbone's submodules, the frozen flag of each stage (indexed by
   * `StageIndex`) and whether the forward pass returns the `layer4` map.
   */
  class Encoder {
    const includeConv5: bool
    const modules: array<Module>
    const frozen: array<bool>

    constructor (includeConv5: bool, backbone: seq<Module>)
      ensures this.includeConv5 == includeConv5
      ensures modules[..] == backbone && frozen[..] == [false, false, false, false, false]
      ensures fresh(modules) && fresh(frozen)
    {
      this.includeConv5 := includeConv5;
      modules := new Module[|backbone|](i requires 0 <= i < |backbone| => backbone[i]);
      frozen := new bool[5](_ => false);
    }

    /**
     * `forward(inputs)` of this encoder: the forward pass with the encoder's own `includeConv5`,
     * so an encoder built from a configuration returns as many maps as its `include_conv5` asks.
     */
    function FeatureMaps<T>(x: T, stem: T -> T, layer1: T -> T, layer2: T -> T, layer3: T -> T,
                            layer4: T -> T): (r: seq<T>)
      ensures |r| == if includeConv5 then 4 else 3
      ensures r[..3] == Forward(x, stem, layer1, layer2, layer3, layer4, false)
      ensures includeConv5 ==> r[3] == layer4(r[2])
    {
      ForwardWithoutConv5(x, stem, layer1, layer2, layer3, layer4);
      Forward(x, stem, layer1, layer2, layer3, layer4, includeConv5)
    }

    /** `_freeze_at(at)`: one threshold test per stage, each freezing that stage's parameters. */
    method FreezeAt(at: int)
      requires frozen.Length == 5
      modifies frozen
      ensures forall i | 0 <= i < 5 :: frozen[i] == (old(frozen[i]) || Freezes(at, StageAt(i)))
    {
      if at >= 1 {
        frozen[StageIndex(Stem)] := true;
      }
      if at >= 2 {
        frozen[StageIndex(Layer1)] := true;
      }
      if at >= 3 {
        frozen[StageIndex(Layer2)] := true;
      }
      if at >= 4 {
        frozen[StageIndex(Layer3)] := true;
      }
      if at >= 5 {
        frozen[StageIndex(Layer4)] := true;
      }
    }

    /** `layer.apply(partial(_nostride_dilate, dilate=dilate))`: rewrites every module of `stage`. */
    method DilateStage(stage: Stage, dilate: nat)
      modifies modules
      ensures forall i | 0 <= i < modules.Length ::
        modules[i] == if old(modules[i]).stage == stage then NoStrideDilate(old(modules[i]), dilate) else old(modules[i])
    {
      var i := 0;
      while i < modules.Length
        invariant 0 <= i <= modules.Length
        invariant forall j | 0 <= j < i ::
          modules[j] == if old(modules[j]).stage == stage then NoStrideDilate(old(modules[j]), dilate) else old(modules[j])
        invariant forall j | i <= j < modules.Length :: modules[j] == old(modules[j])
      {
        if modules[i].stage == stage {
          modules[i] := NoStrideDilate(modules[i], dilate);
        }
        i := i + 1;
      }
    }

    /**
     * `ResNetEncoder(config)` over an already built `backbone`: refuses an output stride other
     * than 8, 16 or 32, then freezes the stages below `freeze_at` and dilates the stages the
     * plan names.
     */
    static method Create(config: Config, backbone: seq<Module>) returns (r: Result<Encoder, Error>)
      ensures r.Failure? <==> config.outputStride !in {8, 16, 32}
      ensures r.Failure? ==> r.error == ValueError("output_stride must be 8, 16 or 32.")
      ensures r.Success? ==>
        && fresh(r.value) && fresh(r.value.modules) && fresh(r.value.frozen)
        && r.value.includeConv5 == config.includeConv5
        && r.value.frozen.Length == 5
        && (forall i | 0 <= i < 5 :: r.value.frozen[i] == Freezes(config.freezeAt, StageAt(i)))
        && r.value.modules.Length == |backbone|
        && (forall i | 0 <= i < |backbone| ::
              r.value.modules[i] == Planned(backbone[i], DilationPlan(config.outputStride).value))
    {
      if config.outputStride != 16 && config.outputStride != 32 && config.outputStride != 8 {
        return Failure(ValueError("output_stride must be 8, 16 or 32."));
      }
      var encoder := new Encoder(config.includeConv5, backbone);
      encoder.FreezeAt(config.freezeAt);
      if config.outputStride == 16 {
        encoder.DilateStage(Layer4, 2);
      } else if config.outputStride == 8 {
        encoder.DilateStage(Layer3, 2);
        encoder.DilateStage(Layer4, 4);
      }
      r := Success(encoder);
    }
  }
}
