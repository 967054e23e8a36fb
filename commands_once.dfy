/** The `once` command: every sound event is turned into one synth instance
    whose parameters are the event's, with the time parameters converted
    from milliseconds to seconds and the pan translated for stereo output.
    Building the envelope, preparing an instance and handling the control
    events' session contexts are done by code outside this model; the first
    two are passed in. */
module CommandsOnce {
  import opened Parameter
  import opened Events

  /** How the output is laid out; only stereo output changes a value here. */
  datatype OutputMode = Stereo | Multichannel

  /** A prepared and triggered instance: the event it plays, the buffer
      number it was prepared with and the parameters set on it. */
  datatype Instance = Instance(name: string, bufnum: nat, params: map<Label, SynthValue>)

  /** The labels whose values are given in milliseconds. */
  predicate IsTime(l: Label)
  {
    l == Duration || l == Attack || l == Sustain || l == Release
  }

  /** Whether a parameter is set on the instance: a time parameter only when
      it is a plain number. */
  predicate Kept(l: Label, v: SynthValue)
  {
    !IsTime(l) || v.ScalarF32?
  }

  /** The value set on the instance for a kept parameter. */
  function Converted(l: Label, v: SynthValue, mode: OutputMode): SynthValue
    requires Kept(l, v)
  {
    if l == ChannelPosition then (if mode == Stereo then TranslateStereo(v) else v)
    else if IsTime(l) then ScalarF32(v.f * 0.001)
    else v
  }

  /** The parameters set on the instance for an event's parameters. */
  function InstanceParams(params: map<Label, SynthValue>, mode: OutputMode): map<Label, SynthValue>
  {
    map l | l in params && Kept(l, params[l]) :: Converted(l, params[l], mode)
  }

  /** The buffer number: the event's when it is a whole number, else 0. */
  function BufnumOf(params: map<Label, SynthValue>): nat
  {
    if SampleBufferNumber in params && params[SampleBufferNumber].ScalarUsize? then params[SampleBufferNumber].u
    else 0
  }

  /** The conversion rules: time parameters are scaled from milliseconds to
      seconds, or dropped when they are not plain numbers; the pan is
      translated for stereo output only; everything else is set as it is. */
  lemma InstanceParamRules(params: map<Label, SynthValue>, mode: OutputMode, l: Label)
    ensures IsTime(l) && l in params && params[l].ScalarF32? ==>
      l in InstanceParams(params, mode) && InstanceParams(params, mode)[l] == ScalarF32(params[l].f * 0.001)
    ensures IsTime(l) && l in params && !params[l].ScalarF32? ==> l !in InstanceParams(params, mode)
    ensures l == ChannelPosition && l in params ==>
      InstanceParams(params, mode)[l] == if mode == Stereo then TranslateStereo(params[l]) else params[l]
    ensures !IsTime(l) && l != ChannelPosition && l in params ==> InstanceParams(params, mode)[l] == params[l]
    ensures l !in params ==> l !in InstanceParams(params, mode)
  {
  }

  /** For stereo output a pan in the bipolar range is set in the unipolar
      range. */
  lemma StereoPanUnipolar(params: map<Label, SynthValue>)
    requires ChannelPosition in params && Bipolar(params[ChannelPosition])
    ensures Unipolar(InstanceParams(params, Stereo)[ChannelPosition])
  {
    TranslateStereoUnipolar(params[ChannelPosition]);
  }

  /** Sets the parameters on the instance one by one, in the map's
      iteration order. */
  method SetInstanceParams(params: map<Label, SynthValue>, mode: OutputMode) returns (inst: map<Label, SynthValue>)
    ensures inst == InstanceParams(params, mode)
  {
    inst := map[];
    var todo := params.Keys;
    while todo != {}
      invariant todo <= params.Keys
      invariant inst == SetExcept(params, mode, todo)
      decreases todo
    {
      var k :| k in todo;
      var v := params[k];
      SetOne(params, mode, todo, k);
      if k == ChannelPosition {
        if mode == Stereo {
          inst := inst[k := TranslateStereo(v)];
        } else {
          inst := inst[k := v];
        }
      } else if IsTime(k) {
        if v.ScalarF32? {
          inst := inst[k := ScalarF32(v.f * 0.001)];
        }
      } else {
        inst := inst[k := v];
      }
      todo := todo - {k};
    }
    assert SetExcept(params, mode, {}) == InstanceParams(params, mode);
  }

  /** The parameters set on the instance once only the labels in `todo` are
      left to do. */
  ghost function SetExcept(params: map<Label, SynthValue>, mode: OutputMode, todo: set<Label>): map<Label, SynthValue>
  {
    map l | l in params && l !in todo && Kept(l, params[l]) :: Converted(l, params[l], mode)
  }

  /** Doing one more label sets it, when it is kept, and nothing else. */
  lemma SetOne(params: map<Label, SynthValue>, mode: OutputMode, todo: set<Label>, k: Label)
    requires k in todo && k in params
    ensures Kept(k, params[k]) ==>
      SetExcept(params, mode, todo - {k}) == SetExcept(params, mode, todo)[k := Converted(k, params[k], mode)]
    ensures !Kept(k, params[k]) ==> SetExcept(params, mode, todo - {k}) == SetExcept(params, mode, todo)
  {
  }

  /** What one event gives: nothing when it is silence or when no instance
      can be prepared for it, otherwise the instance. `envelope` stands for
      the envelope building and `prepare` for whether the backend has an
      instance for the event and buffer. */
  function InstanceOf(s: StaticEvent, mode: OutputMode, envelope: StaticEvent -> StaticEvent,
                      prepare: (StaticEvent, nat) -> bool): seq<Instance>
  {
    if s.name == "silence" then []
    else
      var e := envelope(s);
      var b := BufnumOf(e.params);
      if prepare(e, b) then [Instance(e.name, b, InstanceParams(e.params, mode))] else []
  }

  /** The instances triggered for a list of events, in order. */
  function Triggered(events: seq<StaticEvent>, mode: OutputMode, envelope: StaticEvent -> StaticEvent,
                     prepare: (StaticEvent, nat) -> bool): (r: seq<Instance>)
    ensures |r| <= |events|
  {
    if |events| == 0 then []
    else Triggered(events[..|events| - 1], mode, envelope, prepare) +
         InstanceOf(events[|events| - 1], mode, envelope, prepare)
  }

  /** The events after the command: each but silence has its envelope
      built, in place. */
  function Enveloped(events: seq<StaticEvent>, envelope: StaticEvent -> StaticEvent): (r: seq<StaticEvent>)
    ensures |r| == |events|
    ensures forall i :: 0 <= i < |events| ==> r[i] == if events[i].name == "silence" then events[i] else envelope(events[i])
  {
    seq(|events|, i requires 0 <= i < |events| => if events[i].name == "silence" then events[i] else envelope(events[i]))
  }

  /** One event: builds its envelope, takes its buffer number, prepares an
      instance and sets its parameters. */
  method OnceEvent(s: StaticEvent, mode: OutputMode, envelope: StaticEvent -> StaticEvent,
                   prepare: (StaticEvent, nat) -> bool) returns (s': StaticEvent, inst: seq<Instance>)
    ensures s' == (if s.name == "silence" then s else envelope(s))
    ensures inst == InstanceOf(s, mode, envelope, prepare)
  {
    s', inst := s, [];
    if s.name == "silence" {
      return;
    }
    s' := envelope(s);
    var bufnum := 0;
    if SampleBufferNumber in s'.params && s'.params[SampleBufferNumber].ScalarUsize? {
      bufnum := s'.params[SampleBufferNumber].u;
    }
    if prepare(s', bufnum) {
      var params := SetInstanceParams(s'.params, mode);
      inst := [Instance(s'.name, bufnum, params)];
    }
  }

  /** The sound-event half of the command: the events, updated in place,
      and the instances triggered, in order. */
  method Once(events: seq<StaticEvent>, mode: OutputMode, envelope: StaticEvent -> StaticEvent,
              prepare: (StaticEvent, nat) -> bool) returns (events': seq<StaticEvent>, triggered: seq<Instance>)
    ensures events' == Enveloped(events, envelope)
    ensures triggered == Triggered(events, mode, envelope, prepare)
  {
    events', triggered := events, [];
    for i := 0 to |events|
      invariant |events'| == |events|
      invariant forall k :: 0 <= k < i ==> events'[k] == if events[k].name == "silence" then events[k] else envelope(events[k])
      invariant forall k :: i <= k < |events| ==> events'[k] == events[k]
      invariant triggered == Triggered(events[..i], mode, envelope, prepare)
    {
      TriggeredStep(events, i, mode, envelope, prepare);
      var s', inst := OnceEvent(events[i], mode, envelope, prepare);
      events' := events'[i := s'];
      triggered := triggered + inst;
    }
    assert events[..|events|] == events;
  }

  /** The instances of one more event are appended. */
  lemma TriggeredStep(events: seq<StaticEvent>, i: nat, mode: OutputMode, envelope: StaticEvent -> StaticEvent,
                      prepare: (StaticEvent, nat) -> bool)
    requires i < |events|
    ensures Triggered(events[..i + 1], mode, envelope, prepare) ==
      Triggered(events[..i], mode, envelope, prepare) + InstanceOf(events[i], mode, envelope, prepare)
  {
    assert events[..i + 1][..i] == events[..i];
  }

  /** Silence triggers nothing and is left as it is. */
  lemma SilenceSkipped(events: seq<StaticEvent>, mode: OutputMode, envelope: StaticEvent -> StaticEvent,
                       prepare: (StaticEvent, nat) -> bool)
    requires forall i :: 0 <= i < |events| ==> events[i].name == "silence"
    ensures Triggered(events, mode, envelope, prepare) == []
    ensures Enveloped(events, envelope) == events
  {
    if |events| > 0 {
      SilenceSkipped(events[..|events| - 1], mode, envelope, prepare);
    }
  }

  /** Whether `inst` is the instance prepared for event `s`, which is not
      silence. */
  predicate PlayedFrom(inst: Instance, s: StaticEvent, mode: OutputMode, envelope: StaticEvent -> StaticEvent,
                       prepare: (StaticEvent, nat) -> bool)
  {
    var e := envelope(s);
    s.name != "silence" && prepare(e, BufnumOf(e.params)) &&
    inst == Instance(e.name, BufnumOf(e.params), InstanceParams(e.params, mode))
  }

  /** Every triggered instance is the one prepared for some event that is
      not silence. */
  lemma {:induction false} TriggeredFrom(events: seq<StaticEvent>, mode: OutputMode,
                                         envelope: StaticEvent -> StaticEvent, prepare: (StaticEvent, nat) -> bool)
    ensures forall k :: 0 <= k < |Triggered(events, mode, envelope, prepare)| ==>
      exists i :: 0 <= i < |events| && PlayedFrom(Triggered(events, mode, envelope, prepare)[k], events[i], mode, envelope, prepare)
  {
    if |events| > 0 {
      var n := |events| - 1;
      var init := events[..n];
      TriggeredFrom(init, mode, envelope, prepare);
      var t := Triggered(events, mode, envelope, prepare);
      var t0 := Triggered(init, mode, envelope, prepare);
      assert t == t0 + InstanceOf(events[n], mode, envelope, prepare);
      forall k | 0 <= k < |t|
        ensures exists i :: 0 <= i < |events| && PlayedFrom(t[k], events[i], mode, envelope, prepare)
      {
        if k < |t0| {
          var i :| 0 <= i < |init| && PlayedFrom(t0[k], init[i], mode, envelope, prepare);
          assert t[k] == t0[k] && events[i] == init[i];
          assert PlayedFrom(t[k], events[i], mode, envelope, prepare);
        } else {
          assert PlayedFrom(t[k], events[n], mode, envelope, prepare);
        }
      }
      assert forall k :: 0 <= k < |t| ==> exists i :: 0 <= i < |events| && PlayedFrom(t[k], events[i], mode, envelope, prepare);
    } else {
      assert Triggered(events, mode, envelope, prepare) == [];
    }
  }
}
