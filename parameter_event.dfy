/** The `parameter` built-in: `(lpf-mul 0.5)` is an event holding one
    parameter, named by the part of the function name before `-`, whose
    operation the part after `-` chooses. */
module ParameterEvent {
  import opened Wrappers
  import opened Parameter
  import opened Events
  import opened Expr
  import opened Strings

  /** The operation a name suffix selects. */
  function SuffixOp(suffix: string): (op: EventOperation)
    ensures op == Add <==> suffix == "add"
    ensures op == Subtract <==> suffix == "sub"
    ensures op == Multiply <==> suffix == "mul"
    ensures op == Divide <==> suffix == "div"
  {
    if suffix == "add" then Add
    else if suffix == "sub" then Subtract
    else if suffix == "mul" then Multiply
    else if suffix == "div" then Divide
    else Replace
  }

  /** The operation of a split name: the suffix's when there is one. */
  function OpOf(parts: seq<string>): (op: EventOperation)
    ensures |parts| != 2 ==> op == Replace
    ensures |parts| == 2 ==> op == SuffixOp(parts[1])
  {
    if |parts| == 2 then SuffixOp(parts[1]) else Replace
  }

  /** The fixed table from parameter names to labels. */
  const LABELS: map<string, Label> := map[
    "freq" := PitchFrequency, "pitch" := PitchFrequency, "atk" := Attack,
    "rel" := Release, "sus" := Sustain, "pos" := ChannelPosition,
    "lvl" := EnvelopeLevel, "gain" := OscillatorAmplitude, "dur" := Duration,
    "rev" := ReverbMix, "del" := DelayMix, "lpf" := LowpassCutoffFrequency,
    "lpq" := LowpassQFactor, "lpd" := LowpassFilterDistortion,
    "hpf" := HighpassCutoffFrequency, "hpq" := HighpassQFactor,
    "pff" := PeakFrequency, "pfbw" := PeakBandwidth, "pfg" := PeakGain,
    "pff1" := Peak1Frequency, "pfbw1" := Peak1Bandwidth, "pfg1" := Peak1Gain,
    "pff2" := Peak2Frequency, "pfbw2" := Peak2Bandwidth, "pfg2" := Peak2Gain,
    "pw" := Pulsewidth, "start" := PlaybackStart, "rate" := PlaybackRate]

  /** The label of a parameter name; an unknown name is a pitch. */
  function LabelOf(name: string): (l: Label)
    ensures name in LABELS ==> l == LABELS[name]
    ensures name !in LABELS ==> l == PitchFrequency
  {
    if name in LABELS then LABELS[name] else PitchFrequency
  }

  /** The labels whose symbolic argument is a note name. */
  predicate IsFrequency(l: Label)
  {
    l == PitchFrequency || l == LowpassCutoffFrequency || l == HighpassCutoffFrequency || l == PeakFrequency
  }

  /** The value of the argument for the label `key`; `noteFreq` is the
      equal-temperament frequency of a note name. */
  function ValueOf(arg: EvaluatedExpr, key: Label, noteFreq: string -> real): ParameterValue
  {
    match arg
    case Float(n) => Scalar(WithValue(n))
    case BuiltIn(Param(p)) => Scalar(p)
    case BuiltIn(Modulator(m)) => m
    case Symbol(s) =>
      if IsFrequency(key) then Scalar(WithValue(noteFreq(s))) else Scalar(WithValue(0.5))
    case _ => Scalar(WithValue(0.5))
  }

  /** The built-in: nothing without a function name, with more than one `-`
      in it, or without an argument; otherwise a sound event. */
  function ParameterOf(tail: seq<EvaluatedExpr>, noteFreq: string -> real): (r: Option<EvaluatedExpr>)
    ensures r.Some? ==> r.value.BuiltIn? && r.value.builtIn.SoundEv?
    ensures r.Some? ==> r.value.builtIn.ev.tags == {} && |r.value.builtIn.ev.params| == 1
  {
    if |tail| == 0 || !tail[0].FunctionName? then None
    else
      var parts := Split(tail[0].fname, {'-'});
      if |parts| > 2 || |tail| < 2 then None
      else
        var key := LabelOf(parts[0]);
        Some(BuiltIn(SoundEv(Event(parts[0], OpOf(parts), map[key := ValueOf(tail[1], key, noteFreq)], {}))))
  }

  /** Nothing comes out exactly when the function name is missing, holds
      more than one `-`, or has no argument after it. */
  lemma ParameterNone(tail: seq<EvaluatedExpr>, noteFreq: string -> real)
    ensures ParameterOf(tail, noteFreq).None? <==>
      |tail| < 2 || !tail[0].FunctionName? || Count(tail[0].fname, '-') > 1
  {
    if |tail| > 0 && tail[0].FunctionName? {
      SplitCount(tail[0].fname, '-');
    }
  }

  /** A name without `-` is the event's name and label key, with the
      replacing operation. */
  lemma ParameterPlain(name: string, arg: EvaluatedExpr, rest: seq<EvaluatedExpr>, noteFreq: string -> real)
    requires '-' !in name
    ensures ParameterOf([FunctionName(name), arg] + rest, noteFreq) ==
      Some(BuiltIn(SoundEv(Event(name, Replace, map[LabelOf(name) := ValueOf(arg, LabelOf(name), noteFreq)], {}))))
  {
    SplitJoin([name], '-');
  }

  /** `name-suffix` is named by `name`, keyed by `name`'s label and carries
      the suffix's operation. */
  lemma ParameterSuffixed(name: string, suffix: string, arg: EvaluatedExpr, rest: seq<EvaluatedExpr>,
                          noteFreq: string -> real)
    requires '-' !in name && '-' !in suffix
    ensures ParameterOf([FunctionName(name + "-" + suffix), arg] + rest, noteFreq) ==
      Some(BuiltIn(SoundEv(Event(name, SuffixOp(suffix),
                                 map[LabelOf(name) := ValueOf(arg, LabelOf(name), noteFreq)], {}))))
  {
    SplitJoin([name, suffix], '-');
    assert Join([name, suffix], '-') == name + "-" + suffix;
  }

  /** A symbol argument is a note only for the frequency labels, which are
      those of `freq`, `pitch`, `lpf`, `hpf`, `pff` and of every unknown
      name. */
  lemma FrequencyNames(name: string)
    ensures IsFrequency(LabelOf(name)) <==>
      name in {"freq", "pitch", "lpf", "hpf", "pff"} || name !in LABELS
  {
  }

  /** The argument rules: a number is a constant, a parameter or a
      modulator is used as it is, anything else that is not a note is 0.5. */
  lemma ArgumentValues(arg: EvaluatedExpr, key: Label, noteFreq: string -> real)
    ensures arg.Float? ==> ValueOf(arg, key, noteFreq) == Scalar(WithValue(arg.f))
    ensures arg.BuiltIn? && arg.builtIn.Param? ==> ValueOf(arg, key, noteFreq) == Scalar(arg.builtIn.p)
    ensures arg.BuiltIn? && arg.builtIn.Modulator? ==> ValueOf(arg, key, noteFreq) == arg.builtIn.m
    ensures arg.Symbol? ==>
      ValueOf(arg, key, noteFreq) == Scalar(WithValue(if IsFrequency(key) then noteFreq(arg.sym) else 0.5))
    ensures !arg.Float? && !arg.Symbol? && !(arg.BuiltIn? && (arg.builtIn.Param? || arg.builtIn.Modulator?)) ==>
      ValueOf(arg, key, noteFreq) == Scalar(WithValue(0.5))
  {
  }
}
