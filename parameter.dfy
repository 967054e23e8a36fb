/** The parameter value model: dynamic parameters (a number, its cached
    static snapshot and an optional modifier), the parameter values events
    carry, their resolution into backend values and the stereo translation
    of pan values. */
module Parameter {
  import opened Wrappers

  // ---------------------------------------------------------------------
  // Backend vocabulary (the synthesis backend's own types)
  // ---------------------------------------------------------------------

  /** How a backend value combines with the one already set. */
  datatype ValOp = ValReplace | ValAdd | ValSubtract | ValMultiply | ValDivide

  /** Shape of one envelope segment. */
  datatype SegmentType = Lin | Cos | Log | Exp | Constant

  datatype FilterType =
    | BiquadHpf12dB | BiquadHpf24dB | BiquadLpf12dB | BiquadLpf24dB | Lpf18
    | ButterworthLpf(lpOrder: nat) | ButterworthHpf(hpOrder: nat)
    | PeakEQ | Dummy

  /** The four oscillators sharing the shape (init, freq, phase, amp, add, op):
      Lfo, LFSaw, LFRSaw and LFTri. */
  datatype OscKind = Sine | Saw | RevSaw | Tri

  /** The three ramps sharing the shape (from, to, time, op). */
  datatype RampKind = LinRamp | LogRamp | ExpRamp

  /** Synthesis parameter labels: the ones this model names, and any other
      label of the synthesis backend by its name. Which label a keyword
      names is the parameter-name table's choice, a function parameter
      wherever it is needed. */
  datatype Label =
    | PitchFrequency | Attack | Release | Sustain | ChannelPosition
    | EnvelopeLevel | OscillatorAmplitude | Duration | ReverbMix | DelayMix
    | LowpassCutoffFrequency | LowpassQFactor | LowpassFilterDistortion
    | LowpassFilterType | HighpassCutoffFrequency | HighpassQFactor
    | HighpassFilterType | PeakFrequency | PeakBandwidth | PeakGain
    | Peak1Frequency | Peak1Bandwidth | Peak1Gain
    | Peak2Frequency | Peak2Bandwidth | Peak2Gain
    | Pulsewidth | PlaybackStart | PlaybackRate | SampleBufferNumber
    | Wavematrix | Level
    | OtherLabel(name: string)

  datatype SegmentInfo = SegmentInfo(from: real, to: real, time: real, segmentType: SegmentType)

  /** A resolved, backend-ready parameter value. */
  datatype SynthValue =
    | ScalarF32(f: real)
    | ScalarUsize(u: nat)
    | VecF32(v: seq<real>)
    | MatrixF32(rows: nat, cols: nat, m: seq<seq<real>>)
    | LfoF32(kind: OscKind, init: real, freq: SynthValue, phase: real, amp: SynthValue, add: real, op: ValOp)
    | LFSquareF32(init: real, freq: SynthValue, pw: real, amp: SynthValue, add: real, op: ValOp)
    | RampF32(rampKind: RampKind, from: real, to: real, time: real, op: ValOp)
    | EnvelopeF32(segments: seq<SegmentInfo>, loopEnv: bool, op: ValOp)
    | FilterTypeF32(filter: FilterType)
    | SegmentTypeF32(segType: SegmentType)

  // ---------------------------------------------------------------------
  // Dynamic parameters
  // ---------------------------------------------------------------------

  /** A modifier, seen through what one evaluation yields for the
      parameter's current value. */
  datatype Modifier = Modifier(evaluate: real -> real)

  /** A dynamic parameter: its value, the cached static snapshot and an
      optional modifier. */
  datatype Parameter = Parameter(val: real, staticVal: real, modifier: Option<Modifier>)

  /** The number one evaluation of `p` yields: the modifier's output for
      `val` when there is a modifier, `val` itself otherwise. */
  ghost function Evaluated(p: Parameter): real
  {
    if p.modifier.Some? then p.modifier.value.evaluate(p.val) else p.val
  }

  /** `p` after one evaluation: the snapshot is refreshed only when a
      modifier produced the value. */
  ghost function AfterEvaluation(p: Parameter): Parameter
  {
    if p.modifier.Some? then p.(staticVal := Evaluated(p)) else p
  }

  ghost function EvaluatedAll(ps: seq<Parameter>): (r: seq<real>)
    ensures |r| == |ps|
  {
    seq(|ps|, i requires 0 <= i < |ps| => Evaluated(ps[i]))
  }

  ghost function AfterEvaluationAll(ps: seq<Parameter>): (r: seq<Parameter>)
    ensures |r| == |ps|
  {
    seq(|ps|, i requires 0 <= i < |ps| => AfterEvaluation(ps[i]))
  }

  function WithValue(x: real): (p: Parameter)
    ensures p.val == x && p.staticVal == x && p.modifier.None?
  {
    Parameter(x, x, None)
  }

  method EvaluateNumerical(p: Parameter) returns (x: real, p': Parameter)
    ensures p.modifier.None? ==> x == p.val && p' == p
    ensures p.modifier.Some? ==> x == p.modifier.value.evaluate(p.val)
    ensures p.modifier.Some? ==> p'.staticVal == x && p'.val == p.val && p'.modifier == p.modifier
    ensures x == Evaluated(p) && p' == AfterEvaluation(p)
  {
    match p.modifier
    case Some(m) =>
      p' := p.(staticVal := m.evaluate(p.val));
      x := p'.staticVal;
    case None =>
      x := p.val;
      p' := p;
  }

  method EvaluateValF32(p: Parameter) returns (r: SynthValue, p': Parameter)
    ensures r == ScalarF32(Evaluated(p)) && p' == AfterEvaluation(p)
  {
    var x;
    x, p' := EvaluateNumerical(p);
    r := ScalarF32(x);
  }

  method EvaluateValUsize(p: Parameter) returns (r: SynthValue, p': Parameter)
    ensures r == ScalarUsize(AsUsize(Evaluated(p))) && p' == AfterEvaluation(p)
    ensures r.u <= USIZE_MAX
  {
    var x;
    x, p' := EvaluateNumerical(p);
    r := ScalarUsize(AsUsize(x));
  }

  /** How far one shake moves `val`, for an RNG draw in [0, 2000). */
  function ShakeOffset(val: real, factor: real, draw: real): real
  {
    (Clamp(factor, 0.0, 1.0) * (1000.0 - draw)) * (val / 1000.0)
  }

  function Abs(x: real): real { if x < 0.0 then -x else x }

  lemma MulNonneg(a: real, b: real)
    requires a >= 0.0 && b >= 0.0
    ensures a * b >= 0.0
  {
  }

  lemma ShakeOffsetBound(val: real, factor: real, draw: real)
    requires 0.0 <= draw < 2000.0
    ensures Abs(ShakeOffset(val, factor, draw)) <= Clamp(factor, 0.0, 1.0) * Abs(val)
  {
    var f := Clamp(factor, 0.0, 1.0);
    var s := (1000.0 - draw) / 1000.0;
    assert -1.0 < s <= 1.0;
    var c := f * s;
    assert ShakeOffset(val, factor, draw) == c * val;
    MulNonneg(f, 1.0 - s);
    MulNonneg(f, 1.0 + s);
    assert -f <= c <= f;
    if val >= 0.0 {
      MulNonneg(f - c, val);
      MulNonneg(f + c, val);
    } else {
      MulNonneg(f - c, -val);
      MulNonneg(f + c, -val);
    }
  }

  /** Shaking moves `val` by at most the clamped factor times `|val|`,
      keeps the snapshot and shakes the modifier, if any, by the clamped
      factor. `draw` is the random draw from [0, 2000) and `shakeMod` the
      modifier's own shake; the modifiers are not part of this model. */
  method Shake(p: Parameter, factor: real, draw: real, shakeMod: (Modifier, real) -> Modifier) returns (p': Parameter)
    requires 0.0 <= draw < 2000.0
    ensures p'.val == p.val + ShakeOffset(p.val, factor, draw)
    ensures Abs(p'.val - p.val) <= Clamp(factor, 0.0, 1.0) * Abs(p.val)
    ensures p'.staticVal == p.staticVal
    ensures p'.modifier == if p.modifier.Some? then Some(shakeMod(p.modifier.value, Clamp(factor, 0.0, 1.0))) else None
  {
    var f := Clamp(factor, 0.0, 1.0);
    var offset := (f * (1000.0 - draw)) * (p.val / 1000.0);
    p' := p.(val := p.val + offset);
    if p.modifier.Some? {
      p' := p'.(modifier := Some(shakeMod(p.modifier.value, f)));
    }
    ShakeOffsetBound(p.val, factor, draw);
  }

  /** The unit test's claim: 1000 shaken by 0.5 lands in [500, 1500], and
      differs from 1000 for every draw except exactly 1000. */
  lemma ShakeThousandByHalf(draw: real)
    requires 0.0 <= draw < 2000.0
    ensures 500.0 <= WithValue(1000.0).val + ShakeOffset(1000.0, 0.5, draw) <= 1500.0
    ensures WithValue(1000.0).val + ShakeOffset(1000.0, 0.5, draw) == 1000.0 <==> draw == 1000.0
  {
    assert ShakeOffset(1000.0, 0.5, draw) == 0.5 * (1000.0 - draw);
  }

  // ---------------------------------------------------------------------
  // Parameter values and their resolution
  // ---------------------------------------------------------------------

  /** A parameter value as events carry it. */
  datatype ParameterValue =
    | Scalar(p: Parameter)
    | Vector(vals: seq<Parameter>)
    | Matrix(mat: seq<seq<Parameter>>)
    | Lfo(lfoKind: OscKind, lInit: Parameter, lFreq: Parameter, lPhase: Parameter, lAmp: Parameter, lAdd: Parameter, lOp: ValOp)
    | LFSquare(sInit: Parameter, sFreq: Parameter, sPw: Parameter, sAmp: Parameter, sAdd: Parameter, sOp: ValOp)
    | Ramp(rKind: RampKind, rFrom: Parameter, rTo: Parameter, rTime: Parameter, rOp: ValOp)
    | MultiPointEnvelope(levels: seq<Parameter>, times: seq<Parameter>, types: seq<SegmentType>, eLoop: bool, eOp: ValOp)
    | FilterTypeParam(filterType: FilterType)
    | SegmentTypeParam(segmentType: SegmentType)

  /** Length of the longest row. */
  function MaxLen<T>(rows: seq<seq<T>>): (n: nat)
    ensures forall i :: 0 <= i < |rows| ==> |rows[i]| <= n
    ensures n == 0 || exists i :: 0 <= i < |rows| && |rows[i]| == n
  {
    if rows == [] then 0
    else
      var rest := MaxLen(rows[..|rows| - 1]);
      assert forall i :: 0 <= i < |rows| - 1 ==> rows[..|rows| - 1][i] == rows[i];
      if |rows[|rows| - 1]| > rest then |rows[|rows| - 1]| else rest
  }

  /** Time of envelope segment i: the i-th time if given, else the last one
      given, else 0.2. */
  function TimeAt(times: seq<real>, i: nat): real
  {
    if times == [] then 0.2
    else if i < |times| then times[i]
    else times[|times| - 1]
  }

  /** Type of envelope segment i: the i-th type if given, else the last one
      given, else linear. */
  function TypeAt(types: seq<SegmentType>, i: nat): SegmentType
  {
    if types == [] then Lin
    else if i < |types| then types[i]
    else types[|types| - 1]
  }

  /** The segments of an envelope through the given levels: one per pair of
      neighbouring levels. */
  function EnvelopeSegments(levels: seq<real>, times: seq<real>, types: seq<SegmentType>): (segs: seq<SegmentInfo>)
    requires |levels| >= 1
    ensures |segs| == |levels| - 1
  {
    seq(|levels| - 1, i requires 0 <= i < |levels| - 1 =>
      SegmentInfo(levels[i], levels[i + 1], TimeAt(times, i), TypeAt(types, i)))
  }

  /** Builds the envelope segments the way the resolver does: a running time
      and type, replaced whenever the next one is given. */
  method BuildSegments(levels: seq<real>, times: seq<real>, types: seq<SegmentType>) returns (segs: seq<SegmentInfo>)
    requires |levels| >= 1
    ensures segs == EnvelopeSegments(levels, times, types)
  {
    var time := if |times| > 0 then times[0] else 0.2;
    var segmentType := if |types| > 0 then types[0] else Lin;
    segs := [];
    var i := 0;
    while i < |levels|
      invariant 0 <= i <= |levels|
      invariant |segs| == if i < |levels| then i else |levels| - 1
      invariant forall j :: 0 <= j < |segs| ==> segs[j] == EnvelopeSegments(levels, times, types)[j]
      invariant i < |levels| ==> time == TimeAt(times, i) && segmentType == TypeAt(types, i)
    {
      if i + 1 < |levels| {
        segs := segs + [SegmentInfo(levels[i], levels[i + 1], time, segmentType)];
        time := if i + 1 < |times| then times[i + 1] else time;
        segmentType := if i + 1 < |types| then types[i + 1] else segmentType;
      }
      i := i + 1;
    }
  }

  /** Evaluates every parameter of a list, in order. */
  method EvaluateAll(ps: seq<Parameter>) returns (xs: seq<real>, ps': seq<Parameter>)
    ensures xs == EvaluatedAll(ps) && ps' == AfterEvaluationAll(ps)
  {
    xs, ps' := [], [];
    for i := 0 to |ps|
      invariant |xs| == i && |ps'| == i
      invariant forall j :: 0 <= j < i ==> xs[j] == Evaluated(ps[j]) && ps'[j] == AfterEvaluation(ps[j])
    {
      var x, p' := EvaluateNumerical(ps[i]);
      xs, ps' := xs + [x], ps' + [p'];
    }
  }

  /** Pads each row with 0.0 up to `cols` entries. */
  method PadRows(rows: seq<seq<real>>, cols: nat) returns (out: seq<seq<real>>)
    requires forall i :: 0 <= i < |rows| ==> |rows[i]| <= cols
    ensures |out| == |rows|
    ensures forall i :: 0 <= i < |out| ==> |out[i]| == cols && out[i][..|rows[i]|] == rows[i]
    ensures forall i, j :: 0 <= i < |out| && |rows[i]| <= j < cols ==> out[i][j] == 0.0
  {
    out := rows;
    for i := 0 to |rows|
      invariant |out| == |rows|
      invariant forall k :: 0 <= k < i ==> |out[k]| == cols && out[k][..|rows[k]|] == rows[k]
      invariant forall k, j :: 0 <= k < i && |rows[k]| <= j < cols ==> out[k][j] == 0.0
      invariant forall k :: i <= k < |rows| ==> out[k] == rows[k]
    {
      if |out[i]| < cols {
        out := out[i := out[i] + seq(cols - |out[i]|, _ => 0.0)];
      }
    }
  }

  /** Evaluates a ragged matrix row by row, counting rows and the longest
      row, then pads every row to that length. */
  method EvaluateMatrix(mat: seq<seq<Parameter>>) returns (r: SynthValue, mat': seq<seq<Parameter>>)
    ensures r.MatrixF32? && r.rows == |mat| && r.cols == MaxLen(mat) && |r.m| == |mat|
    ensures forall i :: 0 <= i < |mat| ==> |r.m[i]| == r.cols
    ensures forall i :: 0 <= i < |mat| ==> r.m[i][..|mat[i]|] == EvaluatedAll(mat[i])
    ensures forall i, j :: 0 <= i < |mat| && |mat[i]| <= j < r.cols ==> r.m[i][j] == 0.0
    ensures |mat'| == |mat| && forall i :: 0 <= i < |mat| ==> mat'[i] == AfterEvaluationAll(mat[i])
  {
    var staticVals: seq<seq<real>> := [];
    var rows, cols := 0, 0;
    mat' := [];
    for i := 0 to |mat|
      invariant rows == i && |staticVals| == i && |mat'| == i
      invariant cols == MaxLen(mat[..i])
      invariant forall k :: 0 <= k < i ==> staticVals[k] == EvaluatedAll(mat[k]) && mat'[k] == AfterEvaluationAll(mat[k])
    {
      rows := rows + 1;
      assert mat[..i + 1][..i] == mat[..i];
      if |mat[i]| > cols {
        cols := |mat[i]|;
      }
      var row, row' := EvaluateAll(mat[i]);
      staticVals, mat' := staticVals + [row], mat' + [row'];
    }
    assert mat[..|mat|] == mat;
    var padded := PadRows(staticVals, cols);
    r := MatrixF32(rows, cols, padded);
  }

  /** Resolves a parameter value into a backend value, refreshing the
      snapshots of the parameters it evaluates. */
  method ResolveParameter(k: Label, v: ParameterValue) returns (r: SynthValue, v': ParameterValue)
    ensures v.Scalar? ==> (v' == Scalar(AfterEvaluation(v.p)) &&
      r == (if k == SampleBufferNumber then ScalarUsize(AsUsize(Evaluated(v.p))) else ScalarF32(Evaluated(v.p))))
    ensures v.Scalar? && v.p.modifier.Some? && k != SampleBufferNumber ==> r == ScalarF32(v'.p.staticVal)
    ensures v.Vector? ==> r == VecF32(EvaluatedAll(v.vals)) && v' == Vector(AfterEvaluationAll(v.vals))
    ensures v.Matrix? ==> (r.MatrixF32? && r.rows == |v.mat| && r.cols == MaxLen(v.mat) && |r.m| == r.rows &&
      (forall i :: 0 <= i < r.rows ==> |r.m[i]| == r.cols && r.m[i][..|v.mat[i]|] == EvaluatedAll(v.mat[i])) &&
      (forall i, j :: 0 <= i < r.rows && |v.mat[i]| <= j < r.cols ==> r.m[i][j] == 0.0) &&
      v'.Matrix? && |v'.mat| == |v.mat| && forall i :: 0 <= i < |v.mat| ==> v'.mat[i] == AfterEvaluationAll(v.mat[i]))
    ensures v.Lfo? ==> r == LfoF32(v.lfoKind, Evaluated(v.lInit), ScalarF32(Evaluated(v.lFreq)), Evaluated(v.lPhase),
      ScalarF32(Evaluated(v.lAmp)), Evaluated(v.lAdd), v.lOp)
    ensures v.Lfo? ==> v' == v.(lInit := AfterEvaluation(v.lInit), lFreq := AfterEvaluation(v.lFreq),
      lPhase := AfterEvaluation(v.lPhase), lAmp := AfterEvaluation(v.lAmp), lAdd := AfterEvaluation(v.lAdd))
    ensures v.LFSquare? ==> r == LFSquareF32(Evaluated(v.sInit), ScalarF32(Evaluated(v.sFreq)), Evaluated(v.sPw),
      ScalarF32(Evaluated(v.sAmp)), Evaluated(v.sAdd), v.sOp)
    ensures v.LFSquare? ==> v' == v.(sInit := AfterEvaluation(v.sInit), sFreq := AfterEvaluation(v.sFreq),
      sPw := AfterEvaluation(v.sPw), sAmp := AfterEvaluation(v.sAmp), sAdd := AfterEvaluation(v.sAdd))
    ensures v.Ramp? ==> r == RampF32(v.rKind, Evaluated(v.rFrom), Evaluated(v.rTo), Evaluated(v.rTime), v.rOp)
    ensures v.Ramp? ==> v' == v.(rFrom := AfterEvaluation(v.rFrom), rTo := AfterEvaluation(v.rTo), rTime := AfterEvaluation(v.rTime))
    ensures v.MultiPointEnvelope? && |v.levels| == 0 ==> r == ScalarF32(0.0) && v' == v
    ensures v.MultiPointEnvelope? && |v.levels| == 1 ==>
      r == ScalarF32(Evaluated(v.levels[0])) && v' == v.(levels := [AfterEvaluation(v.levels[0])])
    ensures v.MultiPointEnvelope? && |v.levels| >= 2 ==>
      r == EnvelopeF32(EnvelopeSegments(EvaluatedAll(v.levels), EvaluatedAll(v.times), v.types), v.eLoop, v.eOp) &&
      v' == v.(levels := AfterEvaluationAll(v.levels), times := AfterEvaluationAll(v.times))
    ensures v.FilterTypeParam? ==> r == FilterTypeF32(v.filterType) && v' == v
    ensures v.SegmentTypeParam? ==> r == SegmentTypeF32(v.segmentType) && v' == v
  {
    match v
    case Scalar(p) =>
      var p';
      if k == SampleBufferNumber {
        r, p' := EvaluateValUsize(p);
      } else {
        r, p' := EvaluateValF32(p);
      }
      v' := Scalar(p');
    case Vector(vals) =>
      var xs, vals' := EvaluateAll(vals);
      r, v' := VecF32(xs), Vector(vals');
    case Matrix(mat) =>
      var mat';
      r, mat' := EvaluateMatrix(mat);
      v' := Matrix(mat');
    case Lfo(kind, init, freq, phase, amp, add, op) =>
      var i, init' := EvaluateNumerical(init);
      var f, freq' := EvaluateValF32(freq);
      var ph, phase' := EvaluateNumerical(phase);
      var a, amp' := EvaluateValF32(amp);
      var ad, add' := EvaluateNumerical(add);
      r := LfoF32(kind, i, f, ph, a, ad, op);
      v' := Lfo(kind, init', freq', phase', amp', add', op);
    case LFSquare(init, freq, pw, amp, add, op) =>
      var i, init' := EvaluateNumerical(init);
      var f, freq' := EvaluateValF32(freq);
      var w, pw' := EvaluateNumerical(pw);
      var a, amp' := EvaluateValF32(amp);
      var ad, add' := EvaluateNumerical(add);
      r := LFSquareF32(i, f, w, a, ad, op);
      v' := LFSquare(init', freq', pw', amp', add', op);
    case Ramp(kind, from, to, time, op) =>
      var fr, from' := EvaluateNumerical(from);
      var t, to' := EvaluateNumerical(to);
      var tm, time' := EvaluateNumerical(time);
      r := RampF32(kind, fr, t, tm, op);
      v' := Ramp(kind, from', to', time', op);
    case MultiPointEnvelope(levels, times, types, loopEnv, op) =>
      if |levels| == 1 {
        var x, l0 := EvaluateNumerical(levels[0]);
        r := ScalarF32(x);
        v' := MultiPointEnvelope([l0] + levels[1..], times, types, loopEnv, op);
      } else if |levels| > 0 {
        var lv, levels' := EvaluateAll(levels);
        var tv, times' := EvaluateAll(times);
        var segs := BuildSegments(lv, tv, types);
        r := EnvelopeF32(segs, loopEnv, op);
        v' := MultiPointEnvelope(levels', times', types, loopEnv, op);
      } else {
        r, v' := ScalarF32(0.0), v;
      }
    case FilterTypeParam(ft) =>
      r, v' := FilterTypeF32(ft), v;
    case SegmentTypeParam(st) =>
      r, v' := SegmentTypeF32(st), v;
  }

  // ---------------------------------------------------------------------
  // Stereo translation
  // ---------------------------------------------------------------------

  /** Maps a bipolar value in [-1, 1] onto [0, 1]. */
  function ToUnipolar(x: real): real { (x + 1.0) * 0.5 }

  /** Maps an amplitude in [-1, 1] onto [0, 0.5]. */
  function AmpToUnipolar(x: real): real { (x + 1.0) * 0.25 }

  function TranslateSegment(s: SegmentInfo): SegmentInfo
  {
    s.(from := ToUnipolar(s.from), to := ToUnipolar(s.to))
  }

  /** Translates a pan value from the bipolar range into the unipolar one.
      Oscillators keep their kind except that a square comes out as a
      triangle with its pulse width in the phase slot; every ramp comes out
      linear; envelopes keep their segment count, times and types; all other
      values are returned unchanged. */
  function TranslateStereo(v: SynthValue): (r: SynthValue)
    decreases v, 0
    ensures v.LfoF32? ==> r.LfoF32? && r.kind == v.kind && r.freq == v.freq && r.op == v.op
    ensures v.LFSquareF32? ==> r.LfoF32? && r.kind == Tri && r.phase == v.pw && r.freq == v.freq && r.op == v.op
    ensures v.RampF32? ==> r.RampF32? && r.rampKind == LinRamp && r.time == v.time && r.op == v.op
    ensures v.EnvelopeF32? ==> (r.EnvelopeF32? && |r.segments| == |v.segments| &&
      r.loopEnv == v.loopEnv && r.op == v.op &&
      forall i :: 0 <= i < |v.segments| ==>
        r.segments[i].time == v.segments[i].time && r.segments[i].segmentType == v.segments[i].segmentType)
    ensures v.ScalarUsize? || v.VecF32? || v.MatrixF32? || v.FilterTypeF32? || v.SegmentTypeF32? ==> r == v
    ensures v.ScalarF32? <==> r.ScalarF32?
  {
    match v
    case ScalarF32(p) => ScalarF32(ToUnipolar(p))
    case LfoF32(kind, init, freq, phase, amp, add, op) =>
      LfoF32(kind, ToUnipolar(init), freq, ToUnipolar(phase), TranslateAmp(amp), ToUnipolar(add), op)
    case LFSquareF32(init, freq, pw, amp, add, op) =>
      LfoF32(Tri, ToUnipolar(init), freq, pw, TranslateAmp(amp), ToUnipolar(add), op)
    case RampF32(_, from, to, time, op) =>
      RampF32(LinRamp, ToUnipolar(from), ToUnipolar(to), time, op)
    case EnvelopeF32(segs, loopEnv, op) =>
      EnvelopeF32(seq(|segs|, i requires 0 <= i < |segs| => TranslateSegment(segs[i])), loopEnv, op)
    case _ => v
  }

  /** An oscillator's amplitude: a scalar is mapped onto [0, 0.5], anything
      else is translated recursively. */
  function TranslateAmp(amp: SynthValue): SynthValue
    decreases amp, 1
  {
    match amp
    case ScalarF32(a) => ScalarF32(AmpToUnipolar(a))
    case _ => TranslateStereo(amp)
  }

  predicate InRange(x: real, lo: real, hi: real) { lo <= x <= hi }

  /** Every pan-carrying field is bipolar; a square's pulse width, which is
      passed through, is already in [0, 1]. */
  predicate Bipolar(v: SynthValue)
    decreases v, 0
  {
    match v
    case ScalarF32(p) => InRange(p, -1.0, 1.0)
    case LfoF32(_, init, _, phase, amp, add, _) =>
      InRange(init, -1.0, 1.0) && InRange(phase, -1.0, 1.0) && InRange(add, -1.0, 1.0) && BipolarAmp(amp)
    case LFSquareF32(init, _, pw, amp, add, _) =>
      InRange(init, -1.0, 1.0) && InRange(pw, 0.0, 1.0) && InRange(add, -1.0, 1.0) && BipolarAmp(amp)
    case RampF32(_, from, to, _, _) => InRange(from, -1.0, 1.0) && InRange(to, -1.0, 1.0)
    case EnvelopeF32(segs, _, _) =>
      forall i :: 0 <= i < |segs| ==> InRange(segs[i].from, -1.0, 1.0) && InRange(segs[i].to, -1.0, 1.0)
    case _ => true
  }

  predicate BipolarAmp(amp: SynthValue)
    decreases amp, 1
  {
    match amp
    case ScalarF32(a) => InRange(a, -1.0, 1.0)
    case _ => Bipolar(amp)
  }

  /** Every pan-carrying field lies in [0, 1]; a scalar amplitude in
      [0, 0.5]. */
  predicate Unipolar(v: SynthValue)
    decreases v, 0
  {
    match v
    case ScalarF32(p) => InRange(p, 0.0, 1.0)
    case LfoF32(_, init, _, phase, amp, add, _) =>
      InRange(init, 0.0, 1.0) && InRange(phase, 0.0, 1.0) && InRange(add, 0.0, 1.0) && UnipolarAmp(amp)
    case LFSquareF32(init, _, pw, amp, add, _) =>
      InRange(init, 0.0, 1.0) && InRange(pw, 0.0, 1.0) && InRange(add, 0.0, 1.0) && UnipolarAmp(amp)
    case RampF32(_, from, to, _, _) => InRange(from, 0.0, 1.0) && InRange(to, 0.0, 1.0)
    case EnvelopeF32(segs, _, _) =>
      forall i :: 0 <= i < |segs| ==> InRange(segs[i].from, 0.0, 1.0) && InRange(segs[i].to, 0.0, 1.0)
    case _ => true
  }

  predicate UnipolarAmp(amp: SynthValue)
    decreases amp, 1
  {
    match amp
    case ScalarF32(a) => InRange(a, 0.0, 0.5)
    case _ => Unipolar(amp)
  }

  /** Stereo translation takes bipolar pan values into the unipolar range,
      through oscillator amplitudes of any depth. */
  lemma {:induction false} TranslateStereoUnipolar(v: SynthValue)
    requires Bipolar(v)
    ensures Unipolar(TranslateStereo(v))
  {
    match v
    case LfoF32(_, _, _, _, amp, _, _) =>
      if !amp.ScalarF32? { TranslateStereoUnipolar(amp); }
    case LFSquareF32(_, _, _, amp, _, _) =>
      if !amp.ScalarF32? { TranslateStereoUnipolar(amp); }
    case _ =>
  }

  /** No square oscillator and no logarithmic or exponential ramp anywhere:
      the values stereo translation keeps the variant of. */
  predicate KindPreserving(v: SynthValue)
  {
    match v
    case LfoF32(_, _, _, _, amp, _, _) => amp.ScalarF32? || KindPreserving(amp)
    case LFSquareF32(_, _, _, _, _, _) => false
    case RampF32(kind, _, _, _, _) => kind == LinRamp
    case _ => true
  }

  function FromUnipolar(x: real): real { x * 2.0 - 1.0 }

  /** The inverse of the stereo translation on kind-preserving values. */
  function UntranslateStereo(v: SynthValue): SynthValue
  {
    match v
    case ScalarF32(p) => ScalarF32(FromUnipolar(p))
    case LfoF32(kind, init, freq, phase, amp, add, op) =>
      LfoF32(kind, FromUnipolar(init), freq, FromUnipolar(phase),
        if amp.ScalarF32? then ScalarF32(amp.f * 4.0 - 1.0) else UntranslateStereo(amp),
        FromUnipolar(add), op)
    case RampF32(kind, from, to, time, op) => RampF32(kind, FromUnipolar(from), FromUnipolar(to), time, op)
    case EnvelopeF32(segs, loopEnv, op) =>
      EnvelopeF32(seq(|segs|, i requires 0 <= i < |segs| =>
        segs[i].(from := FromUnipolar(segs[i].from), to := FromUnipolar(segs[i].to))), loopEnv, op)
    case _ => v
  }

  /** Stereo translation loses nothing on kind-preserving values. */
  lemma {:induction false} TranslateStereoRoundTrip(v: SynthValue)
    requires KindPreserving(v)
    ensures UntranslateStereo(TranslateStereo(v)) == v
  {
    match v
    case LfoF32(kind, init, freq, phase, amp, add, op) =>
      if !amp.ScalarF32? {
        TranslateStereoRoundTrip(amp);
        assert !TranslateStereo(amp).ScalarF32?;
      }
    case EnvelopeF32(segs, loopEnv, op) =>
      var r := UntranslateStereo(TranslateStereo(v));
      assert r.segments == segs;
    case _ =>
  }
}
