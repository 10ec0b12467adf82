/**
 * The sigma-delta process definitions: a sigma accumulator, a delta
 * encoder and the combined sigma-delta neuron. Their constructors read
 * keyword arguments, fill in defaults and scale the fixed-point threshold and
 * bias by `2^(wgt_exp + state_exp)`. Boolean values are stored as 0 and 1,
 * as Python's `bool` is an `int`.
 */
module SdnProcess {
  import opened Wrappers
  import opened Vectors

  /** `ACTIVATION_MODE`: the activation function of a sigma-delta neuron. */
  datatype ActivationMode = Unit | ReLU

  /** The integer value of each member of the enumeration. */
  function Code(m: ActivationMode): int
  {
    match m
    case Unit => 0
    case ReLU => 1
  }

  /** `ACTIVATION_MODE(c)`: the member with value `c`; any other value has none (`ValueError`). */
  function FromCode(c: int): (r: Option<ActivationMode>)
    ensures r.Some? <==> c == 0 || c == 1
    ensures r.Some? ==> Code(r.value) == c
  {
    if c == 0 then Some(Unit) else if c == 1 then Some(ReLU) else None
  }

  /** The enumeration is `@unique`: two members with the same value are the same member, and each value leads back to its member. */
  lemma CodesUnique(m: ActivationMode, n: ActivationMode)
    ensures Code(m) == Code(n) ==> m == n
    ensures FromCode(Code(m)) == Some(m)
  {
  }

  /** Keyword arguments of the constructors; an argument not given is `None`. */
  datatype Kwargs = Kwargs(
    shape: Option<Shape>,
    vth: Option<int>,
    bias: Option<int>,
    actMode: Option<ActivationMode>,
    cumError: Option<bool>,
    wgtExp: Option<int>,
    stateExp: Option<int>)

  /** Only the threshold given; everything else left to its default. */
  function ThresholdOnly(vth: int): Kwargs
  {
    Kwargs(None, Some(vth), None, None, None, None, None)
  }

  /** `kwargs.get(key, default)`. */
  function GetOr<T>(o: Option<T>, default: T): T
  {
    match o
    case Some(v) => v
    case None => default
  }

  function BoolToInt(b: bool): int
  {
    if b then 1 else 0
  }

  /** A port of a process, of the given shape. */
  datatype PortDecl = InPort(shape: Shape) | OutPort(shape: Shape)

  /** `Var(shape=..., init=...)`: a process variable with every element set to `init`. */
  datatype VarDecl = VarDecl(shape: Shape, init: int)

  datatype SigmaProc = SigmaProc(shape: Shape, aIn: PortDecl, sOut: PortDecl, sigma: VarDecl)

  datatype DeltaProc = DeltaProc(
    shape: Shape, aIn: PortDecl, sOut: PortDecl,
    vth: VarDecl, sigma: VarDecl, act: VarDecl, residue: VarDecl, error: VarDecl,
    wgtExp: VarDecl, stateExp: VarDecl, cumError: VarDecl)

  datatype SigmaDeltaProc = SigmaDeltaProc(
    shape: Shape, aIn: PortDecl, sOut: PortDecl,
    vth: VarDecl, sigma: VarDecl, act: VarDecl, residue: VarDecl, error: VarDecl, bias: VarDecl,
    wgtExp: VarDecl, stateExp: VarDecl, cumError: VarDecl,
    actFn: ActivationMode)  // proc_params['act_fn']

  /** Why a constructor raises. */
  datatype ConstructionError =
    | NegativeShiftCount  // `1 << n` with n < 0 (`ValueError`)
    | MissingThreshold    // no `vth`: `None * int` (`TypeError`)

  /** `1 << n`. */
  function Pow2(n: nat): (r: nat)
    ensures r >= 1
    ensures n > 0 ==> r % 2 == 0
  {
    if n == 0 then 1 else 2 * Pow2(n - 1)
  }

  /** Shifting by a sum is shifting by each part in turn. */
  lemma {:induction false} Pow2Add(a: nat, b: nat)
    ensures Pow2(a + b) == Pow2(a) * Pow2(b)
    decreases a
  {
    if a > 0 {
      Pow2Add(a - 1, b);
      assert Pow2(a + b) == 2 * Pow2(a - 1 + b);
    }
  }

  /** The fixed-point scaling exponent `wgt_exp + state_exp`, each defaulting to 0. */
  function ScaleExp(kw: Kwargs): int
  {
    GetOr(kw.wgtExp, 0) + GetOr(kw.stateExp, 0)
  }

  /**
   * `kwargs.get('vth') * (1 << (wgt_exp + state_exp))`. Python evaluates both
   * operands before multiplying, so a negative shift raises before a missing
   * threshold does.
   */
  function ScaledThreshold(kw: Kwargs): (r: Result<int, ConstructionError>)
    ensures r.Success? <==> ScaleExp(kw) >= 0 && kw.vth.Some?
    ensures ScaleExp(kw) < 0 ==> r == Failure(NegativeShiftCount)
    ensures ScaleExp(kw) >= 0 && kw.vth.None? ==> r == Failure(MissingThreshold)
    ensures r.Success? ==> r.value == kw.vth.value * Pow2(ScaleExp(kw))
  {
    if ScaleExp(kw) < 0 then Failure(NegativeShiftCount)
    else if kw.vth.None? then Failure(MissingThreshold)
    else Success(kw.vth.value * Pow2(ScaleExp(kw)))
  }

  /** `Sigma(**kwargs)`. */
  function NewSigma(kw: Kwargs): (p: SigmaProc)
    ensures p.shape == GetOr(kw.shape, [1])
    ensures p.aIn == InPort(p.shape) && p.sOut == OutPort(p.shape)
    ensures p.sigma == VarDecl(p.shape, 0)
  {
    var shape := GetOr(kw.shape, [1]);
    SigmaProc(shape, InPort(shape), OutPort(shape), VarDecl(shape, 0))
  }

  /** `Delta(**kwargs)`. */
  function NewDelta(kw: Kwargs): (r: Result<DeltaProc, ConstructionError>)
    ensures r.Success? <==> ScaleExp(kw) >= 0 && kw.vth.Some?
    ensures ScaleExp(kw) < 0 ==> r == Failure(NegativeShiftCount)
    ensures ScaleExp(kw) >= 0 && kw.vth.None? ==> r == Failure(MissingThreshold)
    ensures r.Success? ==>
      var p, shape := r.value, GetOr(kw.shape, [1]);
      && p.shape == shape && p.aIn == InPort(shape) && p.sOut == OutPort(shape)
      && p.vth == VarDecl([1], kw.vth.value * Pow2(ScaleExp(kw)))
      && p.sigma == p.act == p.residue == p.error == VarDecl(shape, 0)
      && p.wgtExp == VarDecl([1], GetOr(kw.wgtExp, 0))
      && p.stateExp == VarDecl([1], GetOr(kw.stateExp, 0))
      && p.cumError == VarDecl([1], BoolToInt(GetOr(kw.cumError, false)))
  {
    var shape := GetOr(kw.shape, [1]);
    var cumError := GetOr(kw.cumError, false);
    var wgtExp := GetOr(kw.wgtExp, 0);
    var stateExp := GetOr(kw.stateExp, 0);
    match ScaledThreshold(kw)
    case Failure(e) => Failure(e)
    case Success(vth) =>
      Success(DeltaProc(
        shape, InPort(shape), OutPort(shape),
        VarDecl([1], vth), VarDecl(shape, 0), VarDecl(shape, 0), VarDecl(shape, 0), VarDecl(shape, 0),
        VarDecl([1], wgtExp), VarDecl([1], stateExp), VarDecl([1], BoolToInt(cumError))))
  }

  /** `SigmaDelta(**kwargs)`. */
  function NewSigmaDelta(kw: Kwargs): (r: Result<SigmaDeltaProc, ConstructionError>)
    ensures r.Success? <==> ScaleExp(kw) >= 0 && kw.vth.Some?
    ensures ScaleExp(kw) < 0 ==> r == Failure(NegativeShiftCount)
    ensures ScaleExp(kw) >= 0 && kw.vth.None? ==> r == Failure(MissingThreshold)
    ensures r.Success? ==>
      var p, shape := r.value, GetOr(kw.shape, [1]);
      && p.shape == shape && p.aIn == InPort(shape) && p.sOut == OutPort(shape)
      && p.vth == VarDecl([1], kw.vth.value * Pow2(ScaleExp(kw)))
      && p.bias == VarDecl(shape, GetOr(kw.bias, 0) * Pow2(ScaleExp(kw)))
      && p.sigma == p.act == p.residue == p.error == VarDecl(shape, 0)
      && p.wgtExp == VarDecl([1], GetOr(kw.wgtExp, 0))
      && p.stateExp == VarDecl([1], GetOr(kw.stateExp, 0))
      && p.cumError == VarDecl([1], BoolToInt(GetOr(kw.cumError, false)))
      && p.actFn == GetOr(kw.actMode, ReLU)
  {
    var shape := GetOr(kw.shape, [1]);
    var actMode := GetOr(kw.actMode, ReLU);
    var cumError := GetOr(kw.cumError, false);
    var wgtExp := GetOr(kw.wgtExp, 0);
    var stateExp := GetOr(kw.stateExp, 0);
    match ScaledThreshold(kw)
    case Failure(e) => Failure(e)
    case Success(vth) =>
      var bias := GetOr(kw.bias, 0) * Pow2(ScaleExp(kw));
      Success(SigmaDeltaProc(
        shape, InPort(shape), OutPort(shape),
        VarDecl([1], vth), VarDecl(shape, 0), VarDecl(shape, 0), VarDecl(shape, 0), VarDecl(shape, 0),
        VarDecl(shape, bias), VarDecl([1], wgtExp), VarDecl([1], stateExp), VarDecl([1], BoolToInt(cumError)),
        actMode))
  }

  /** The stored threshold is an exact multiple of the scale, and dividing by the scale gives back the `vth` argument. */
  lemma ThresholdScalingIsExact(kw: Kwargs)
    requires NewDelta(kw).Success?
    ensures var vth := NewDelta(kw).value.vth.init;
            vth % Pow2(ScaleExp(kw)) == 0 && vth / Pow2(ScaleExp(kw)) == kw.vth.value
  {
    var f := Pow2(ScaleExp(kw));
    var v := kw.vth.value;
    assert v * f == f * v;
    MultipleDivides(v, f);
  }

  /** Multiplying by a positive factor and dividing by it again is exact. */
  lemma MultipleDivides(v: int, f: nat)
    requires f >= 1
    ensures (v * f) % f == 0 && (v * f) / f == v
  {
    var q, m := (v * f) / f, (v * f) % f;
    var x := v - q;
    assert x * f == v * f - q * f;
    assert x * f == m && 0 <= m < f;
    if x >= 1 {
      MulAtLeastFactor(x, f);
    } else if x <= -1 {
      MulAtLeastFactor(-x, f);
    }
  }

  /** A positive multiple of `f` is at least `f`. */
  lemma {:induction false} MulAtLeastFactor(x: int, f: nat)
    requires x >= 1
    ensures x * f >= f
    decreases x
  {
    if x > 1 {
      MulAtLeastFactor(x - 1, f);
      assert x * f == (x - 1) * f + f;
    }
  }

  /** Scaling by the weight exponent and then by the state exponent gives the stored threshold. */
  lemma ThresholdScalesInTwoSteps(kw: Kwargs)
    requires NewDelta(kw).Success? && GetOr(kw.wgtExp, 0) >= 0 && GetOr(kw.stateExp, 0) >= 0
    ensures NewDelta(kw).value.vth.init == kw.vth.value * Pow2(GetOr(kw.wgtExp, 0)) * Pow2(GetOr(kw.stateExp, 0))
  {
    var w, s := GetOr(kw.wgtExp, 0), GetOr(kw.stateExp, 0);
    Pow2Add(w, s);
    assert kw.vth.value * (Pow2(w) * Pow2(s)) == kw.vth.value * Pow2(w) * Pow2(s);
  }

  /** The sigma-delta neuron has exactly the delta encoder's state and raises exactly when it does; its sigma matches a sigma unit's. */
  lemma SigmaDeltaExtendsDelta(kw: Kwargs)
    ensures NewSigmaDelta(kw).Success? <==> NewDelta(kw).Success?
    ensures NewSigmaDelta(kw).Failure? ==> NewSigmaDelta(kw).error == NewDelta(kw).error
    ensures NewSigmaDelta(kw).Success? ==>
      var sd, d, s := NewSigmaDelta(kw).value, NewDelta(kw).value, NewSigma(kw);
      && sd.shape == d.shape == s.shape && sd.aIn == d.aIn == s.aIn && sd.sOut == d.sOut == s.sOut
      && sd.vth == d.vth && sd.sigma == d.sigma == s.sigma && sd.act == d.act
      && sd.residue == d.residue && sd.error == d.error
      && sd.wgtExp == d.wgtExp && sd.stateExp == d.stateExp && sd.cumError == d.cumError
  {
  }

  /** With only a threshold: shape `(1,)`, no scaling, zero bias, no cumulative error, ReLU activation. */
  lemma SigmaDeltaDefaults(vth: int)
    ensures NewSigmaDelta(ThresholdOnly(vth)).Success?
    ensures var p := NewSigmaDelta(ThresholdOnly(vth)).value;
      && p.shape == [1] && p.vth == VarDecl([1], vth) && p.bias == VarDecl([1], 0)
      && p.wgtExp == VarDecl([1], 0) && p.stateExp == VarDecl([1], 0) && p.cumError == VarDecl([1], 0)
      && p.actFn == ReLU
  {
  }
}
