/** The sound-event evaluator: a function name (a synth, a sampler, silence
    or a sample set) followed by its positional argument and keyword
    parameters, read from the evaluated items through a cursor. */
module Sound {
  import opened Wrappers
  import opened Parameter
  import opened Events
  import opened Expr

  // ---------------------------------------------------------------------
  // Symbolic parameter values
  // ---------------------------------------------------------------------

  /** The values a symbol can stand for: filter types and envelope segment
      types ("sin" is a linear segment). */
  const SYMBOLIC_VALUES: map<string, ParameterValue> := map[
    "hpf12" := FilterTypeParam(BiquadHpf12dB), "hpf24" := FilterTypeParam(BiquadHpf24dB),
    "lpf12" := FilterTypeParam(BiquadLpf12dB), "lpf24" := FilterTypeParam(BiquadLpf24dB),
    "lpf18" := FilterTypeParam(Lpf18),
    "butter2lpf" := FilterTypeParam(ButterworthLpf(2)), "butter4lpf" := FilterTypeParam(ButterworthLpf(4)),
    "butter6lpf" := FilterTypeParam(ButterworthLpf(6)), "butter8lpf" := FilterTypeParam(ButterworthLpf(8)),
    "butter10lpf" := FilterTypeParam(ButterworthLpf(10)),
    "butter2hpf" := FilterTypeParam(ButterworthHpf(2)), "butter4hpf" := FilterTypeParam(ButterworthHpf(4)),
    "butter6hpf" := FilterTypeParam(ButterworthHpf(6)), "butter8hpf" := FilterTypeParam(ButterworthHpf(8)),
    "butter10hpf" := FilterTypeParam(ButterworthHpf(10)),
    "peak" := FilterTypeParam(PeakEQ), "none" := FilterTypeParam(Dummy),
    "lin" := SegmentTypeParam(Lin), "sin" := SegmentTypeParam(Lin), "cos" := SegmentTypeParam(Cos),
    "log" := SegmentTypeParam(Log), "exp" := SegmentTypeParam(Exp), "const" := SegmentTypeParam(Constant)]

  function SymbolicParamValue(sym: string): (r: Option<ParameterValue>)
    ensures r.Some? <==> sym in SYMBOLIC_VALUES
    ensures r.Some? ==> r.value.FilterTypeParam? || r.value.SegmentTypeParam?
  {
    if sym in SYMBOLIC_VALUES then Some(SYMBOLIC_VALUES[sym]) else None
  }

  // ---------------------------------------------------------------------
  // Parameter values
  // ---------------------------------------------------------------------

  /** Items collected into a parameter value: numbers and parameters. */
  predicate Collectable(t: EvaluatedExpr)
  {
    t.Float? || (t.BuiltIn? && t.builtIn.Param?)
  }

  function AsParam(t: EvaluatedExpr): Parameter
    requires Collectable(t)
  {
    if t.Float? then WithValue(t.f) else t.builtIn.p
  }

  /** Items that end the collection with a value of their own: a symbol
      standing for a value, a modulator, a vector or a matrix. */
  predicate Terminal(t: EvaluatedExpr)
  {
    (t.Symbol? && SymbolicParamValue(t.sym).Some?) ||
    (t.BuiltIn? && (t.builtIn.Modulator? || t.builtIn.VectorVal? || t.builtIn.MatrixVal?))
  }

  function TerminalValue(t: EvaluatedExpr): ParameterValue
    requires Terminal(t)
  {
    if t.Symbol? then SymbolicParamValue(t.sym).value
    else match t.builtIn
      case Modulator(m) => m
      case VectorVal(v) => v
      case MatrixVal(m) => m
  }

  /** The end of the run of collectable items starting at `i`. */
  function RunEnd(toks: seq<EvaluatedExpr>, i: nat): (j: nat)
    requires i <= |toks|
    ensures i <= j <= |toks|
    ensures forall k :: i <= k < j ==> Collectable(toks[k])
    ensures j == |toks| || !Collectable(toks[j])
    decreases |toks| - i
  {
    if i == |toks| || !Collectable(toks[i]) then i else RunEnd(toks, i + 1)
  }

  function Params(ts: seq<EvaluatedExpr>): (ps: seq<Parameter>)
    requires forall k :: 0 <= k < |ts| ==> Collectable(ts[k])
    ensures |ps| == |ts|
  {
    seq(|ts|, k requires 0 <= k < |ts| => AsParam(ts[k]))
  }

  /** No value is 0, one value is a scalar, several are a vector. */
  function Pack(ps: seq<Parameter>): ParameterValue
  {
    if |ps| == 0 then Scalar(WithValue(0.0))
    else if |ps| == 1 then Scalar(ps[0])
    else Vector(ps)
  }

  /** The value collected from `i` on and the position after it: the
      numbers and parameters up to the first other item, unless that item
      has a value of its own, which is then taken instead of them. */
  function CollectParam(toks: seq<EvaluatedExpr>, i: nat): (r: (ParameterValue, nat))
    requires i <= |toks|
    ensures i <= r.1 <= |toks|
  {
    var j := RunEnd(toks, i);
    if j < |toks| && Terminal(toks[j]) then (TerminalValue(toks[j]), j + 1)
    else (Pack(Params(toks[i..j])), j)
  }

  method CollectParamValue(toks: seq<EvaluatedExpr>, i: nat) returns (v: ParameterValue, j: nat)
    requires i <= |toks|
    ensures (v, j) == CollectParam(toks, i)
  {
    var parVec: seq<Parameter> := [];
    j := i;
    while j < |toks|
      invariant i <= j <= RunEnd(toks, i)
      invariant RunEnd(toks, j) == RunEnd(toks, i)
      invariant parVec == Params(toks[i..j])
    {
      var t := toks[j];
      if t.Float? {
        ParamsSnoc(toks, i, j);
        parVec := parVec + [WithValue(t.f)];
        j := j + 1;
      } else if t.Symbol? {
        var m := SymbolicParamValue(t.sym);
        if m.Some? {
          return m.value, j + 1;
        }
        break;
      } else if t.BuiltIn? && t.builtIn.Param? {
        ParamsSnoc(toks, i, j);
        parVec := parVec + [t.builtIn.p];
        j := j + 1;
      } else if t.BuiltIn? && (t.builtIn.Modulator? || t.builtIn.VectorVal? || t.builtIn.MatrixVal?) {
        return TerminalValue(t), j + 1;
      } else {
        break;
      }
    }
    v := Pack(parVec);
  }

  /** One more collectable item adds its parameter at the end. */
  lemma ParamsSnoc(toks: seq<EvaluatedExpr>, i: nat, j: nat)
    requires i <= j < |toks| && forall k :: i <= k <= j ==> Collectable(toks[k])
    ensures Params(toks[i..j + 1]) == Params(toks[i..j]) + [AsParam(toks[j])]
  {
  }

  // ---------------------------------------------------------------------
  // Positional arguments
  // ---------------------------------------------------------------------

  /** The pitch: the next item (consumed whatever it is) as a frequency; a
      note name goes through `noteFreq`, anything else gives 100. */
  function PitchValue(t: Option<EvaluatedExpr>, noteFreq: string -> real): ParameterValue
  {
    match t
    case Some(BuiltIn(Modulator(m))) => m
    case Some(Float(n)) => Scalar(WithValue(n))
    case Some(BuiltIn(Param(p))) => Scalar(p)
    case Some(Symbol(s)) => Scalar(WithValue(noteFreq(s)))
    case _ => Scalar(WithValue(100.0))
  }

  function Peek(toks: seq<EvaluatedExpr>, i: nat): (r: Option<EvaluatedExpr>)
    ensures r.Some? <==> i < |toks|
  {
    if i < |toks| then Some(toks[i]) else None
  }

  /** The optional buffer number and the position after it: a number n is
      consumed and counts from 1 (n - 1 when `n as usize` is positive, 0
      otherwise), a parameter is consumed and taken as it is, anything else
      is left and gives 0. */
  function Bufnum(toks: seq<EvaluatedExpr>, i: nat): (r: (Parameter, nat))
    requires i <= |toks|
    ensures i <= r.1 <= i + 1 && r.1 <= |toks|
    ensures i < |toks| && toks[i].Float? ==>
      r.1 == i + 1 && r.0 == WithValue(if toks[i].f >= 1.0 then toks[i].f - 1.0 else 0.0)
    ensures i < |toks| && toks[i].Float? ==> r.0.val >= 0.0
    ensures !(i < |toks| && (toks[i].Float? || (toks[i].BuiltIn? && toks[i].builtIn.Param?))) ==>
      r == (WithValue(0.0), i)
  {
    if i < |toks| && toks[i].Float? then
      (if AsUsize(toks[i].f) > 0 then WithValue(toks[i].f - 1.0) else WithValue(0.0), i + 1)
    else if i < |toks| && toks[i].BuiltIn? && toks[i].builtIn.Param? then (toks[i].builtIn.p, i + 1)
    else (WithValue(0.0), i)
  }

  // ---------------------------------------------------------------------
  // Defaults
  // ---------------------------------------------------------------------

  function Sc(x: real): ParameterValue { Scalar(WithValue(x)) }

  const SYNTH_DEFAULTS: map<Label, ParameterValue> := map[
    EnvelopeLevel := Sc(0.5), OscillatorAmplitude := Sc(0.6), Attack := Sc(1.0),
    Sustain := Sc(48.0), Release := Sc(100.0), ChannelPosition := Sc(0.0)]

  const SAMPLE_DEFAULTS: map<Label, ParameterValue> := map[
    EnvelopeLevel := Sc(0.5), OscillatorAmplitude := Sc(0.77), Attack := Sc(1.0),
    Release := Sc(1.0), ChannelPosition := Sc(0.0), PlaybackRate := Sc(1.0),
    LowpassFilterDistortion := Sc(0.0), PlaybackStart := Sc(0.0)]

  const NOFILTER_DEFAULTS: map<Label, ParameterValue> := map[
    EnvelopeLevel := Sc(0.5), LowpassFilterType := FilterTypeParam(Dummy),
    HighpassFilterType := FilterTypeParam(Dummy), OscillatorAmplitude := Sc(0.77),
    Attack := Sc(1.0), Sustain := Sc(48.0), Release := Sc(100.0), ChannelPosition := Sc(0.0),
    PlaybackRate := Sc(1.0), LowpassFilterDistortion := Sc(0.0), PlaybackStart := Sc(0.0)]

  /** Sets each default, replacing what was there; every other parameter
      stays. */
  function WithDefaults(ev: Event, defaults: map<Label, ParameterValue>): (r: Event)
    ensures r.name == ev.name && r.op == ev.op && r.tags == ev.tags
    ensures r.params.Keys == ev.params.Keys + defaults.Keys
    ensures forall l :: l in defaults ==> r.params[l] == defaults[l]
    ensures forall l :: l in ev.params && l !in defaults ==> r.params[l] == ev.params[l]
  {
    ev.(params := ev.params + defaults)
  }

  // ---------------------------------------------------------------------
  // Sample sets
  // ---------------------------------------------------------------------

  /** What a sample lookup yields: the sample's own keywords, its buffer
      and its duration. */
  datatype SampleInfo = SampleInfo(key: set<string>, bufnum: nat, duration: int)

  /** The sample and wavematrix set, as the lookups the evaluator makes.
      `random` is the sample a random choice picks; randomness is not part
      of this model. */
  datatype SampleSet = SampleSet(
    existsNotEmpty: string -> bool,
    keys: (string, set<string>) -> Option<SampleInfo>,
    pos: (string, nat) -> Option<SampleInfo>,
    random: string -> Option<SampleInfo>,
    wavematrix: string -> Option<seq<seq<Parameter>>>)

  /** The end of the run of symbols starting at `i`. */
  function SymbolRunEnd(toks: seq<EvaluatedExpr>, i: nat): (j: nat)
    requires i <= |toks|
    ensures i <= j <= |toks|
    ensures forall k :: i <= k < j ==> toks[k].Symbol?
    ensures j == |toks| || !toks[j].Symbol?
    decreases |toks| - i
  {
    if i == |toks| || !toks[i].Symbol? then i else SymbolRunEnd(toks, i + 1)
  }

  function SymbolSet(ts: seq<EvaluatedExpr>): (s: set<string>)
    requires forall k :: 0 <= k < |ts| ==> ts[k].Symbol?
    ensures forall k :: 0 <= k < |ts| ==> ts[k].sym in s
    ensures forall x :: x in s ==> exists k :: 0 <= k < |ts| && ts[k].sym == x
  {
    set k | 0 <= k < |ts| :: ts[k].sym
  }

  lemma SymbolSetSnoc(ts: seq<EvaluatedExpr>, t: EvaluatedExpr)
    requires forall k :: 0 <= k < |ts| ==> ts[k].Symbol?
    requires t.Symbol?
    ensures SymbolSet(ts + [t]) == SymbolSet(ts) + {t.sym}
  {
    var s := ts + [t];
    assert forall k :: 0 <= k < |ts| ==> s[k] == ts[k];
    assert s[|ts|] == t;
  }

  /** The run of symbols from `i` on, all consumed, as a set. */
  method CollectSymbols(toks: seq<EvaluatedExpr>, i: nat) returns (s: set<string>, j: nat)
    requires i <= |toks|
    ensures j == SymbolRunEnd(toks, i) && s == SymbolSet(toks[i..j])
  {
    s := {};
    j := i;
    while j < |toks| && toks[j].Symbol?
      invariant i <= j <= SymbolRunEnd(toks, i)
      invariant SymbolRunEnd(toks, j) == SymbolRunEnd(toks, i)
      invariant s == SymbolSet(toks[i..j])
    {
      s := s + {toks[j].sym};
      j := j + 1;
      assert toks[i..j] == toks[i..j - 1] + [toks[j - 1]];
      SymbolSetSnoc(toks[i..j - 1], toks[j - 1]);
    }
  }

  /** The sampler event for sample `info` of set `fname`, tagged with the
      set's name, the keywords asked for and the sample's own keywords. */
  function SampleEvent(fname: string, kws: set<string>, info: SampleInfo): (ev: Event)
    ensures ev.name == "sampler" && ev.tags == {fname} + kws + info.key
  {
    WithDefaults(Event("sampler", Replace,
                       map[SampleBufferNumber := Sc(info.bufnum as real), Sustain := Sc((info.duration - 2) as real)],
                       {fname} + kws + info.key), SAMPLE_DEFAULTS)
  }

  const UNWRAP_NONE := "called `Option::unwrap()` on a `None` value"

  /** The head of an event whose function name is a non-empty sample set,
      AS WRITTEN: symbols select by keyword and are consumed, a number
      selects by position but is only looked at, not consumed. */
  function SampleHeadAsWritten(fname: string, toks: seq<EvaluatedExpr>, i: nat, samples: SampleSet): Result<(Event, nat)>
    requires i <= |toks|
  {
    if i < |toks| && toks[i].Symbol? then
      var j := SymbolRunEnd(toks, i);
      var kws := SymbolSet(toks[i..j]);
      match samples.keys(fname, kws)
      case None => Panic(UNWRAP_NONE)
      case Some(info) => Ok((SampleEvent(fname, kws, info), j))
    else if i < |toks| && toks[i].Float? then
      match samples.pos(fname, AsUsize(toks[i].f))
      case None => Panic(UNWRAP_NONE)
      case Some(info) => Ok((SampleEvent(fname, {}, info), i))
    else
      match samples.random(fname)
      case None => Panic(UNWRAP_NONE)
      case Some(info) => Ok((SampleEvent(fname, {}, info), i))
  }

  /** The same head with the position number consumed, as the other
      positional arguments are. */
  function SampleHead(fname: string, toks: seq<EvaluatedExpr>, i: nat, samples: SampleSet): (r: Result<(Event, nat)>)
    requires i <= |toks|
    ensures r.Panic? <==> SampleHeadAsWritten(fname, toks, i, samples).Panic?
    ensures r.Ok? && i < |toks| && toks[i].Float? ==>
      r.value == (SampleHeadAsWritten(fname, toks, i, samples).value.0, i + 1)
  {
    var r := SampleHeadAsWritten(fname, toks, i, samples);
    if r.Ok? && i < |toks| && toks[i].Float? then Ok((r.value.0, i + 1)) else r
  }

  // ---------------------------------------------------------------------
  // Keyword parameters
  // ---------------------------------------------------------------------

  /** What one keyword at `i` does: the parameters it sets, the tags it
      adds and the position after it. `:tags` adds the symbols after it,
      `:wm` followed by a known wavematrix name sets that matrix (an unknown
      name is left in place), every other keyword sets the value collected
      after it. */
  function KeywordStep(toks: seq<EvaluatedExpr>, i: nat, samples: SampleSet, mapParam: string -> Label)
    : (r: (map<Label, ParameterValue>, set<string>, nat))
    requires i < |toks| && toks[i].Keyword?
    ensures i < r.2 <= |toks|
  {
    var k := toks[i].kw;
    if k == "tags" then
      var j := SymbolRunEnd(toks, i + 1);
      (map[], SymbolSet(toks[i + 1..j]), j)
    else if k == "wm" && i + 1 < |toks| && toks[i + 1].Symbol? then
      match samples.wavematrix(toks[i + 1].sym)
      case Some(m) => (map[mapParam(k) := Matrix(m)], {}, i + 2)
      case None => (map[], {}, i + 1)
    else
      var (v, j) := CollectParam(toks, i + 1);
      (map[mapParam(k) := v], {}, j)
  }

  /** The keyword parameters from `i` on, applied to `ev` in order, up to
      the first item that is not a keyword (which is consumed). */
  function KeywordsFrom(toks: seq<EvaluatedExpr>, i: nat, ev: Event, samples: SampleSet, mapParam: string -> Label): Event
    requires i <= |toks|
    decreases |toks| - i
  {
    if i == |toks| || !toks[i].Keyword? then ev
    else
      var (p, t, j) := KeywordStep(toks, i, samples, mapParam);
      KeywordsFrom(toks, j, ev.(params := ev.params + p, tags := ev.tags + t), samples, mapParam)
  }

  /** One keyword and what follows it, applied to `ev`. */
  method ApplyKeyword(toks: seq<EvaluatedExpr>, i: nat, ev: Event, samples: SampleSet, mapParam: string -> Label) returns (ev': Event, j: nat)
    requires i < |toks| && toks[i].Keyword?
    ensures var (p, t, j') := KeywordStep(toks, i, samples, mapParam);
      ev' == ev.(params := ev.params + p, tags := ev.tags + t) && j == j'
  {
    var k := toks[i].kw;
    j := i + 1;
    if k == "tags" {
      var s;
      s, j := CollectSymbols(toks, j);
      assert KeywordStep(toks, i, samples, mapParam) == (map[], s, j);
      ev' := ev.(tags := ev.tags + s);
      UnionNone(ev.params);
    } else if k == "wm" && j < |toks| && toks[j].Symbol? {
      var m := samples.wavematrix(toks[j].sym);
      ev' := ev;
      if m.Some? {
        assert KeywordStep(toks, i, samples, mapParam) == (map[mapParam(k) := Matrix(m.value)], {}, j + 1);
        ev' := ev.(params := ev.params[mapParam(k) := Matrix(m.value)]);
        j := j + 1;
        UnionOne(ev.params, mapParam(k), Matrix(m.value));
      } else {
        assert KeywordStep(toks, i, samples, mapParam) == (map[], {}, j);
        UnionNone(ev.params);
      }
    } else {
      var v;
      v, j := CollectParamValue(toks, j);
      assert KeywordStep(toks, i, samples, mapParam) == (map[mapParam(k) := v], {}, j);
      ev' := ev.(params := ev.params[mapParam(k) := v]);
      UnionOne(ev.params, mapParam(k), v);
    }
  }

  lemma UnionOne(m: map<Label, ParameterValue>, l: Label, v: ParameterValue)
    ensures m[l := v] == m + map[l := v]
  {
  }

  lemma UnionNone(m: map<Label, ParameterValue>)
    ensures m + map[] == m
  {
  }


  /** The keyword loop. */
  method CollectKeywordParams(toks: seq<EvaluatedExpr>, i: nat, ev: Event, samples: SampleSet, mapParam: string -> Label) returns (ev': Event)
    requires i <= |toks|
    ensures ev' == KeywordsFrom(toks, i, ev, samples, mapParam)
  {
    ev' := ev;
    var j := i;
    while j < |toks| && toks[j].Keyword?
      invariant i <= j <= |toks|
      invariant KeywordsFrom(toks, j, ev', samples, mapParam) == KeywordsFrom(toks, i, ev, samples, mapParam)
      decreases |toks| - j
    {
      ev', j := ApplyKeyword(toks, j, ev', samples, mapParam);
    }
  }

  // ---------------------------------------------------------------------
  // The evaluator
  // ---------------------------------------------------------------------

  /** The synths taking a pitch, and the defaults each gets. */
  predicate NoFilterSynth(f: string) { f == "sine" || f == "cub" }
  predicate PlainSynth(f: string)
  {
    f in {"tri", "saw", "fmsaw", "fmsqr", "fmtri", "wsaw", "sqr", "risset", "wtab", "wmat"}
  }

  function SynthEventName(f: string): string
  {
    if f == "wtab" then "wavetable" else if f == "wmat" then "wavematrix" else f
  }

  /** Names the evaluator knows without a sample set. */
  predicate KnownName(f: string)
  {
    NoFilterSynth(f) || PlainSynth(f) || f in {"white", "brown", "silence", "~", "feedr", "freezr"}
  }

  /** The event before its keyword parameters, and the position after its
      positional argument; none for an unknown name. */
  function HeadOf(f: string, toks: seq<EvaluatedExpr>, i: nat, samples: SampleSet, noteFreq: string -> real)
    : Result<Option<(Event, nat)>>
    requires i <= |toks|
  {
    var next := if i < |toks| then i + 1 else i;
    if NoFilterSynth(f) || PlainSynth(f) then
      var ev := EventWithName(SynthEventName(f)).(params := map[PitchFrequency := PitchValue(Peek(toks, i), noteFreq)]);
      Ok(Some((WithDefaults(ev, if NoFilterSynth(f) then NOFILTER_DEFAULTS else SYNTH_DEFAULTS), next)))
    else if f == "white" || f == "brown" then Ok(Some((WithDefaults(EventWithName(f), SYNTH_DEFAULTS), i)))
    else if f == "silence" || f == "~" then Ok(Some((EventWithName("silence"), i)))
    else if f == "feedr" || f == "freezr" then
      var (b, j) := Bufnum(toks, i);
      var ev := EventWithName(if f == "feedr" then "livesampler" else "frozensampler");
      Ok(Some((WithDefaults(ev.(tags := {f}, params := map[SampleBufferNumber := Scalar(b)]), SAMPLE_DEFAULTS), j)))
    else if samples.existsNotEmpty(f) then
      var h := SampleHead(f, toks, i, samples);
      if h.Panic? then Panic(h.reason) else Ok(Some(h.value))
    else Ok(None)
  }

  /** The evaluated sound event; none without a function name or for an
      unknown name. */
  function SoundOf(toks: seq<EvaluatedExpr>, samples: SampleSet, noteFreq: string -> real, mapParam: string -> Label): Result<Option<Event>>
  {
    if |toks| == 0 || !toks[0].FunctionName? then Ok(None)
    else
      var h := HeadOf(toks[0].fname, toks, 1, samples, noteFreq);
      if h.Panic? then Panic(h.reason)
      else if h.value.None? then Ok(None)
      else Ok(Some(KeywordsFrom(toks, h.value.value.1, h.value.value.0, samples, mapParam)))
  }

  /** The event before its keyword parameters, read from position `i`. */
  method EvalHead(f: string, toks: seq<EvaluatedExpr>, i: nat, samples: SampleSet, noteFreq: string -> real)
    returns (r: Result<Option<(Event, nat)>>)
    requires i <= |toks|
    ensures r == HeadOf(f, toks, i, samples, noteFreq)
  {
    var ev: Event;
    var j := i;
    if NoFilterSynth(f) || PlainSynth(f) {
      ev := EventWithName(SynthEventName(f)).(params := map[PitchFrequency := PitchValue(Peek(toks, j), noteFreq)]);
      if j < |toks| {
        j := j + 1;
      }
      ev := WithDefaults(ev, if NoFilterSynth(f) then NOFILTER_DEFAULTS else SYNTH_DEFAULTS);
    } else if f == "white" || f == "brown" {
      ev := WithDefaults(EventWithName(f), SYNTH_DEFAULTS);
    } else if f == "silence" || f == "~" {
      ev := EventWithName("silence");
    } else if f == "feedr" || f == "freezr" {
      ev := EventWithName(if f == "feedr" then "livesampler" else "frozensampler");
      var b := Bufnum(toks, j);
      j := b.1;
      ev := WithDefaults(ev.(tags := {f}, params := map[SampleBufferNumber := Scalar(b.0)]), SAMPLE_DEFAULTS);
    } else if samples.existsNotEmpty(f) {
      var kws: set<string> := {};
      var info: Option<SampleInfo>;
      if j < |toks| && toks[j].Symbol? {
        kws, j := CollectSymbols(toks, j);
        info := samples.keys(f, kws);
      } else if j < |toks| && toks[j].Float? {
        info := samples.pos(f, AsUsize(toks[j].f));
        j := j + 1;
      } else {
        info := samples.random(f);
      }
      if info.None? {
        return Panic(UNWRAP_NONE);
      }
      ev := SampleEvent(f, kws, info.value);
    } else {
      return Ok(None);
    }
    r := Ok(Some((ev, j)));
  }

  /** The evaluator. `noteFreq` is the note-name to frequency conversion of
      the music theory helpers, which are not part of this model. */
  method EvalSound(toks: seq<EvaluatedExpr>, samples: SampleSet, noteFreq: string -> real, mapParam: string -> Label) returns (r: Result<Option<Event>>)
    ensures r == SoundOf(toks, samples, noteFreq, mapParam)
  {
    if |toks| == 0 || !toks[0].FunctionName? {
      return Ok(None);
    }
    var h := EvalHead(toks[0].fname, toks, 1, samples, noteFreq);
    if h.Panic? {
      return Panic(h.reason);
    }
    if h.value.None? {
      return Ok(None);
    }
    var ev := CollectKeywordParams(toks, h.value.value.1, h.value.value.0, samples, mapParam);
    r := Ok(Some(ev));
  }

  // ---------------------------------------------------------------------
  // Properties
  // ---------------------------------------------------------------------

  /** The parameters the keywords from `i` on set, a later one replacing
      an earlier one. */
  function KeywordParams(toks: seq<EvaluatedExpr>, i: nat, samples: SampleSet, mapParam: string -> Label): map<Label, ParameterValue>
    requires i <= |toks|
    decreases |toks| - i
  {
    if i == |toks| || !toks[i].Keyword? then map[]
    else
      var (p, _, j) := KeywordStep(toks, i, samples, mapParam);
      p + KeywordParams(toks, j, samples, mapParam)
  }

  /** The tags the keywords from `i` on add. */
  function KeywordTags(toks: seq<EvaluatedExpr>, i: nat, samples: SampleSet, mapParam: string -> Label): set<string>
    requires i <= |toks|
    decreases |toks| - i
  {
    if i == |toks| || !toks[i].Keyword? then {}
    else
      var (_, t, j) := KeywordStep(toks, i, samples, mapParam);
      t + KeywordTags(toks, j, samples, mapParam)
  }

  /** The keyword parameters come after the defaults: they are set over
      the event, replacing what is there, and the tags they add are added
      to the event's. */
  lemma {:induction false} KeywordsOverride(toks: seq<EvaluatedExpr>, i: nat, ev: Event, samples: SampleSet, mapParam: string -> Label)
    requires i <= |toks|
    ensures KeywordsFrom(toks, i, ev, samples, mapParam) ==
      ev.(params := ev.params + KeywordParams(toks, i, samples, mapParam), tags := ev.tags + KeywordTags(toks, i, samples, mapParam))
    decreases |toks| - i
  {
    if i < |toks| && toks[i].Keyword? {
      var (p, t, j) := KeywordStep(toks, i, samples, mapParam);
      KeywordsOverride(toks, j, ev.(params := ev.params + p, tags := ev.tags + t), samples, mapParam);
      MapUnionAssoc(ev.params, p, KeywordParams(toks, j, samples, mapParam));
      assert ev.tags + t + KeywordTags(toks, j, samples, mapParam) == ev.tags + (t + KeywordTags(toks, j, samples, mapParam));
    } else {
      assert ev.params + map[] == ev.params;
    }
  }

  /** The evaluator gives nothing exactly when there is no function name
      or the name is neither known nor a non-empty sample set; it can only
      panic on a sample lookup. */
  lemma SoundNone(toks: seq<EvaluatedExpr>, samples: SampleSet, noteFreq: string -> real, mapParam: string -> Label)
    ensures var r := SoundOf(toks, samples, noteFreq, mapParam);
      && ((r.Ok? && r.value.None?) <==>
            (|toks| == 0 || !toks[0].FunctionName? ||
             (!KnownName(toks[0].fname) && !samples.existsNotEmpty(toks[0].fname))))
      && (r.Panic? ==> !KnownName(toks[0].fname) && samples.existsNotEmpty(toks[0].fname))
  {
  }

  /** "silence" and "~" both give an event named "silence"; with nothing
      after the name it has no parameters and no tags. */
  lemma Silence(f: string, samples: SampleSet, noteFreq: string -> real, mapParam: string -> Label)
    requires f == "silence" || f == "~"
    ensures SoundOf([FunctionName(f)], samples, noteFreq, mapParam) == Ok(Some(EventWithName("silence")))
  {
  }

  /** Whatever the head of a sound event sets, the defaults among it, the
      keyword parameters are set over it: a label a keyword names takes the
      keyword's value, every other label keeps the head's. */
  lemma KeywordsOverHead(toks: seq<EvaluatedExpr>, samples: SampleSet, noteFreq: string -> real, mapParam: string -> Label)
    requires |toks| > 0 && toks[0].FunctionName?
    ensures var h := HeadOf(toks[0].fname, toks, 1, samples, noteFreq);
      var r := SoundOf(toks, samples, noteFreq, mapParam);
      h.Ok? && h.value.Some? ==>
        var (ev, j) := h.value.value;
        var kp := KeywordParams(toks, j, samples, mapParam);
        && r.Ok? && r.value.Some?
        && r.value.value.params.Keys == ev.params.Keys + kp.Keys
        && (forall l :: l in kp ==> r.value.value.params[l] == kp[l])
        && (forall l :: l in ev.params && l !in kp ==> r.value.value.params[l] == ev.params[l])
        && r.value.value.tags == ev.tags + KeywordTags(toks, j, samples, mapParam)
  {
    var h := HeadOf(toks[0].fname, toks, 1, samples, noteFreq);
    if h.Ok? && h.value.Some? {
      KeywordsOverride(toks, h.value.value.1, h.value.value.0, samples, mapParam);
    }
  }

  /** `(risset 4000 :lvl 1.0)` is a sound event: a risset at 4000 whose
      level, 0.5 by default, is set to 1.0 when `lvl` names the envelope
      level. */
  lemma RissetExample(samples: SampleSet, noteFreq: string -> real, mapParam: string -> Label) returns (ev: Event)
    requires mapParam("lvl") == EnvelopeLevel
    ensures SoundOf(RISSET, samples, noteFreq, mapParam) == Ok(Some(ev))
    ensures ev.name == "risset"
    ensures PitchFrequency in ev.params && ev.params[PitchFrequency] == Sc(4000.0)
    ensures EnvelopeLevel in ev.params && ev.params[EnvelopeLevel] == Sc(1.0)
  {
    var h := RissetHead(samples, noteFreq);
    RissetKeywords(h, samples, mapParam);
    SoundOfHead(RISSET, samples, noteFreq, mapParam);
    ev := h.(params := h.params + map[EnvelopeLevel := Sc(1.0)]);
  }

  /** A sound event is its head with the keyword parameters that follow. */
  lemma SoundOfHead(toks: seq<EvaluatedExpr>, samples: SampleSet, noteFreq: string -> real, mapParam: string -> Label)
    requires |toks| > 0 && toks[0].FunctionName?
    ensures var h := HeadOf(toks[0].fname, toks, 1, samples, noteFreq);
      h.Ok? && h.value.Some? ==>
        SoundOf(toks, samples, noteFreq, mapParam) == Ok(Some(KeywordsFrom(toks, h.value.value.1, h.value.value.0, samples, mapParam)))
  {
  }

  const RISSET := [FunctionName("risset"), Float(4000.0), Keyword("lvl"), Float(1.0)]

  lemma RissetHead(samples: SampleSet, noteFreq: string -> real) returns (h: Event)
    ensures HeadOf("risset", RISSET, 1, samples, noteFreq) == Ok(Some((h, 2)))
    ensures h.name == "risset" && h.params[PitchFrequency] == Sc(4000.0) && h.params[EnvelopeLevel] == Sc(0.5)
    ensures h.tags == {}
  {
    h := WithDefaults(EventWithName("risset").(params := map[PitchFrequency := Sc(4000.0)]), SYNTH_DEFAULTS);
    assert PlainSynth("risset") && !NoFilterSynth("risset");
    assert PitchFrequency !in SYNTH_DEFAULTS;
  }

  lemma RissetKeywords(h: Event, samples: SampleSet, mapParam: string -> Label)
    ensures KeywordsFrom(RISSET, 2, h, samples, mapParam) == h.(params := h.params + map[mapParam("lvl") := Sc(1.0)])
  {
    var p := map[mapParam("lvl") := Sc(1.0)];
    assert RunEnd(RISSET, 3) == 4;
    assert RISSET[3..4] == [Float(1.0)];
    assert CollectParam(RISSET, 3) == (Sc(1.0), 4);
    assert KeywordStep(RISSET, 2, samples, mapParam) == (p, {}, 4);
    assert h.tags + {} == h.tags;
  }

  const SAMPLE_AT := [FunctionName("bd"), Float(2.0), Keyword("lvl"), Float(0.9)]

  lemma SamplePositionKeywords(samples: SampleSet, info: SampleInfo, mapParam: string -> Label) returns (h: Event)
    requires samples.pos("bd", 2) == Some(info)
    ensures SampleHeadAsWritten("bd", SAMPLE_AT, 1, samples) == Ok((h, 1))
    ensures h == SampleEvent("bd", {}, info) && h.params[EnvelopeLevel] == Sc(0.5)
    ensures KeywordsFrom(SAMPLE_AT, 2, h, samples, mapParam) == h.(params := h.params + map[mapParam("lvl") := Sc(0.9)])
  {
    h := SampleEvent("bd", {}, info);
    assert AsUsize(2.0) == 2;
    assert RunEnd(SAMPLE_AT, 3) == 4;
    assert SAMPLE_AT[3..4] == [Float(0.9)];
    assert CollectParam(SAMPLE_AT, 3) == (Sc(0.9), 4);
    assert KeywordStep(SAMPLE_AT, 2, samples, mapParam) == (map[mapParam("lvl") := Sc(0.9)], {}, 4);
    assert h.tags + {} == h.tags;
  }

  /** With the code as written, the keyword parameters after a sample
      position are dropped: the position number is left in place and ends
      the keyword loop, so `(bd 2 :lvl 0.9)` keeps the default level 0.5. */
  lemma SamplePositionDropsKeywords(samples: SampleSet, info: SampleInfo, mapParam: string -> Label)
    requires samples.pos("bd", 2) == Some(info)
    requires mapParam("lvl") == EnvelopeLevel
    ensures var h := SampleHeadAsWritten("bd", SAMPLE_AT, 1, samples);
      && h.Ok?
      && KeywordsFrom(SAMPLE_AT, h.value.1, h.value.0, samples, mapParam).params[EnvelopeLevel] == Sc(0.5)
  {
    var h := SamplePositionKeywords(samples, info, mapParam);
    assert KeywordsFrom(SAMPLE_AT, 1, h, samples, mapParam) == h;
  }

  lemma SamplePositionHead(samples: SampleSet, noteFreq: string -> real, info: SampleInfo)
    requires samples.pos("bd", 2) == Some(info)
    requires samples.existsNotEmpty("bd")
    ensures HeadOf("bd", SAMPLE_AT, 1, samples, noteFreq) == Ok(Some((SampleEvent("bd", {}, info), 2)))
  {
    assert !KnownName("bd");
    assert AsUsize(2.0) == 2;
    assert SampleHeadAsWritten("bd", SAMPLE_AT, 1, samples) == Ok((SampleEvent("bd", {}, info), 1));
  }

  /** With the position consumed, they are set: the level is 0.9. */
  lemma SamplePositionKeepsKeywords(samples: SampleSet, noteFreq: string -> real, info: SampleInfo, mapParam: string -> Label)
    returns (ev: Event)
    requires samples.pos("bd", 2) == Some(info)
    requires samples.existsNotEmpty("bd")
    requires mapParam("lvl") == EnvelopeLevel
    ensures SoundOf(SAMPLE_AT, samples, noteFreq, mapParam) == Ok(Some(ev))
    ensures EnvelopeLevel in ev.params && ev.params[EnvelopeLevel] == Sc(0.9)
  {
    var h := SamplePositionKeywords(samples, info, mapParam);
    SamplePositionHead(samples, noteFreq, info);
    ev := h.(params := h.params + map[EnvelopeLevel := Sc(0.9)]);
  }
}
