/** The older handler for the built-in oscillator events `sine`, `saw` and
    `sqr`: a pitch from the first argument, fixed defaults, then the keyword
    parameters of the rest. */
module BuiltinSoundEvent {
  import opened Wrappers
  import opened Parameter
  import opened Events
  import opened Expr

  /** Which oscillator, with the operation the event carries. */
  datatype BuiltInSoundEvent = SineEvent(op: EventOperation) | SawEvent(op: EventOperation) | SquareEvent(op: EventOperation)

  function KindName(k: BuiltInSoundEvent): string
  {
    match k
    case SineEvent(_) => "sine"
    case SawEvent(_) => "saw"
    case SquareEvent(_) => "sqr"
  }

  /** The keyword parameters read from the arguments after the pitch; the
      reader is not part of this model and is passed in. */
  type KeywordReader = seq<EvaluatedExpr> -> map<Label, ParameterValue>

  function Sc(x: real): ParameterValue
  {
    Scalar(WithValue(x))
  }

  /** The fixed defaults every such event starts with. */
  const DEFAULTS: map<Label, ParameterValue> := map[
    Level := Sc(0.3), Attack := Sc(0.005), Sustain := Sc(0.1),
    Release := Sc(0.01), ChannelPosition := Sc(0.0)]

  /** The event built from `tail`: a panic when the pitch is missing or is
      not a number. */
  function BuiltinEvent(k: BuiltInSoundEvent, tail: seq<EvaluatedExpr>, keywords: KeywordReader): Result<Event>
  {
    if |tail| == 0 then Panic("called `Option::unwrap()` on a `None` value")
    else if !tail[0].Float? then Panic("called `Option::unwrap()` on a `None` value")
    else Ok(Event(KindName(k), k.op, map[PitchFrequency := Sc(tail[0].f)] + DEFAULTS + keywords(tail[1..]), {}))
  }

  /** The handler, one insert after the other. */
  method Handle(k: BuiltInSoundEvent, tail: seq<EvaluatedExpr>, keywords: KeywordReader) returns (r: Result<Event>)
    ensures r.Panic? <==> |tail| == 0 || !tail[0].Float?
    ensures r == BuiltinEvent(k, tail, keywords)
  {
    var ev := Event(KindName(k), k.op, map[], {});
    if |tail| == 0 || !tail[0].Float? {
      return Panic("called `Option::unwrap()` on a `None` value");
    }
    ev := ev.(params := ev.params[PitchFrequency := Sc(tail[0].f)]);
    ev := ev.(params := ev.params[Level := Sc(0.3)]);
    ev := ev.(params := ev.params[Attack := Sc(0.005)]);
    ev := ev.(params := ev.params[Sustain := Sc(0.1)]);
    ev := ev.(params := ev.params[Release := Sc(0.01)]);
    ev := ev.(params := ev.params[ChannelPosition := Sc(0.0)]);
    assert ev.params == map[PitchFrequency := Sc(tail[0].f)] + DEFAULTS;
    ev := ev.(params := ev.params + keywords(tail[1..]));
    r := Ok(ev);
  }

  /** The event carries the oscillator's name and operation, no tags, and
      exactly the pitch, the defaults and the keyword parameters. */
  lemma BuiltinShape(k: BuiltInSoundEvent, tail: seq<EvaluatedExpr>, keywords: KeywordReader)
    requires BuiltinEvent(k, tail, keywords).Ok?
    ensures var ev := BuiltinEvent(k, tail, keywords).value;
      ev.name == KindName(k) && ev.op == k.op && ev.tags == {} &&
      ev.params.Keys == {PitchFrequency, Level, Attack, Sustain, Release, ChannelPosition} + keywords(tail[1..]).Keys
  {
  }

  /** A keyword parameter wins over the pitch and the defaults; a label it
      does not set keeps the pitch or the default. */
  lemma KeywordsWin(k: BuiltInSoundEvent, tail: seq<EvaluatedExpr>, keywords: KeywordReader, l: Label)
    requires BuiltinEvent(k, tail, keywords).Ok?
    ensures var ev := BuiltinEvent(k, tail, keywords).value;
      var kw := keywords(tail[1..]);
      (l in kw ==> ev.params[l] == kw[l]) &&
      (l !in kw && l in DEFAULTS ==> ev.params[l] == DEFAULTS[l]) &&
      (l !in kw && l == PitchFrequency ==> ev.params[l] == Sc(tail[0].f))
  {
  }

  /** Without keyword parameters: the documented defaults. */
  lemma PlainDefaults(k: BuiltInSoundEvent, f: real, keywords: KeywordReader)
    requires keywords([]) == map[]
    ensures var r := BuiltinEvent(k, [Float(f)], keywords);
      r.Ok? && r.value.params == map[PitchFrequency := Sc(f), Level := Sc(0.3), Attack := Sc(0.005),
                                     Sustain := Sc(0.1), Release := Sc(0.01), ChannelPosition := Sc(0.0)]
  {
    assert [Float(f)][1..] == [];
  }
}
