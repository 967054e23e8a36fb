/** A generator: a root automaton with its tags, a chain of processors and a
    stack of one-shot time modifications. */
module Generator {
  import opened Wrappers
  import opened Parameter
  import opened Events
  import opened Markov
  import opened EveryProcessor
  import opened GeneratorProcessor

  /** A one-shot change of the next transition's duration. */
  datatype TimeMod = TimeMod(val: real, op: EventOperation)

  /** The duration `d` after the time modification `t`. Dividing by zero
      gives an infinity or NaN in `f32`, which no real number is;
      `divByZero(d)` stands for that value. */
  function NewDuration(t: TimeMod, d: real, divByZero: real -> real): real
  {
    match t.op
    case Multiply => d * t.val
    case Divide => if t.val == 0.0 then divByZero(d) else d / t.val
    case Add => d + t.val
    case Subtract => d - t.val
    case Replace => t.val
  }

  /** Applies a time modification to a transition. A transition without a
      duration makes the lookup panic; a duration that is not a single
      number is left alone; otherwise the duration is replaced by the new
      one and nothing else changes. */
  function ApplyTo(t: TimeMod, ev: StaticEvent, divByZero: real -> real): (r: Result<StaticEvent>)
    ensures r.Panic? <==> Duration !in ev.params
    ensures r.Ok? ==> r.value.name == ev.name && r.value.op == ev.op && r.value.tags == ev.tags
                      && r.value.applied == ev.applied
    ensures r.Ok? ==> r.value.params.Keys == ev.params.Keys
    ensures r.Ok? ==> forall l :: l in ev.params && l != Duration ==> r.value.params[l] == ev.params[l]
    ensures r.Ok? && !ev.params[Duration].ScalarF32? ==> r.value == ev
    ensures r.Ok? && ev.params[Duration].ScalarF32? ==>
      r.value.params[Duration] == ScalarF32(NewDuration(t, ev.params[Duration].f, divByZero))
  {
    if Duration !in ev.params then Panic("no duration in transition")
    else match ev.params[Duration]
      case ScalarF32(d) => Ok(ev.(params := ev.params[Duration := ScalarF32(NewDuration(t, d, divByZero))]))
      case _ => Ok(ev)
  }

  /** Adding a value and then subtracting it restores the duration;
      multiplying by a non-zero value and then dividing by it does as well. */
  lemma TimeModInverse(v: real, d: real, divByZero: real -> real)
    ensures NewDuration(TimeMod(v, Subtract), NewDuration(TimeMod(v, Add), d, divByZero), divByZero) == d
    ensures v != 0.0 ==> NewDuration(TimeMod(v, Divide), NewDuration(TimeMod(v, Multiply), d, divByZero), divByZero) == d
    ensures NewDuration(TimeMod(0.0, Divide), d, divByZero) == divByZero(d)
  {
    if v != 0.0 {
      calc {
        NewDuration(TimeMod(v, Divide), NewDuration(TimeMod(v, Multiply), d, divByZero), divByZero);
        (d * v) / v;
        { assert (d * v) / v == d * (v / v); }
        d;
      }
    }
  }

  /** Replacing the duration forgets the old one: two replacements in a row
      leave the second value, and a replacement after anything leaves the
      replacement value. */
  lemma ReplaceForgets(a: TimeMod, v: real, ev: StaticEvent, divByZero: real -> real)
    requires Duration in ev.params && ev.params[Duration].ScalarF32?
    ensures ApplyTo(a, ev, divByZero).Ok?
    ensures ApplyTo(TimeMod(v, Replace), ApplyTo(a, ev, divByZero).value, divByZero) == ApplyTo(TimeMod(v, Replace), ev, divByZero)
  {
    var d := ScalarF32(NewDuration(a, ev.params[Duration].f, divByZero));
    assert ev.params[Duration := d][Duration := ScalarF32(v)] == ev.params[Duration := ScalarF32(v)];
  }

  /** The sound events with the generator's tags added; control events are
      left alone. */
  ghost function Tagged(idTags: set<string>, events: seq<InterpretableEvent>): seq<InterpretableEvent>
  {
    seq(|events|, i requires 0 <= i < |events| =>
      if events[i].Sound? then Sound(events[i].s.(tags := idTags + events[i].s.tags)) else events[i])
  }

  /** Adds the generator's tags to every sound event. */
  method TagEvents(idTags: set<string>, events: seq<InterpretableEvent>) returns (events': seq<InterpretableEvent>)
    ensures events' == Tagged(idTags, events)
  {
    events' := events;
    for i := 0 to |events|
      invariant |events'| == |events|
      invariant forall k :: 0 <= k < i ==> events'[k] == Tagged(idTags, events)[k]
      invariant forall k :: i <= k < |events| ==> events'[k] == events[k]
    {
      match events'[i]
      case Sound(s) => events' := events'[i := Sound(s.(tags := idTags + s.tags))];
      case Control(_) =>
    }
  }

  /** The events after the event hooks of the first `n` processors of a
      chain, in chain order. */
  ghost function ChainEvents(ss: seq<Snapshot>, n: nat, events: seq<InterpretableEvent>): seq<InterpretableEvent>
    requires n <= |ss|
  {
    if n == 0 then events
    else EventsStep(ss[n - 1], ChainEvents(ss, n - 1, events))
  }

  /** The generator-modifier calls the first `n` processors of a chain make:
      each runs its generator hook right after its event hook. */
  ghost function ChainCalls(ss: seq<Snapshot>, n: nat): seq<GenModCall>
    requires n <= |ss|
  {
    if n == 0 then []
    else ChainCalls(ss, n - 1) + GenModsStep(AfterEvents(ss[n - 1]))
  }

  /** A processor after its event hook and its generator hook. */
  ghost function AfterStep(s: Snapshot): Snapshot
  {
    AfterGenerator(AfterEvents(s))
  }

  /** The transition after the transition hooks of the first `n` processors
      of a chain, in chain order. */
  ghost function ChainTransition(ss: seq<Snapshot>, n: nat, t: StaticEvent): StaticEvent
    requires n <= |ss|
  {
    if n == 0 then t
    else TransitionStep(ss[n - 1], ChainTransition(ss, n - 1, t))
  }

  /** Processors leave the number, the order and the kind of the events
      alone, and touch neither the tags of sound events nor control events. */
  lemma {:induction false} ChainEventsShape(ss: seq<Snapshot>, n: nat, events: seq<InterpretableEvent>)
    requires n <= |ss|
    ensures |ChainEvents(ss, n, events)| == |events|
    ensures forall i :: 0 <= i < |events| ==>
      (ChainEvents(ss, n, events)[i].Sound? <==> events[i].Sound?)
    ensures forall i :: 0 <= i < |events| && events[i].Sound? ==>
      ChainEvents(ss, n, events)[i].s.tags == events[i].s.tags
    ensures forall i :: 0 <= i < |events| && events[i].Control? ==>
      ChainEvents(ss, n, events)[i] == events[i]
  {
    if n != 0 {
      ChainEventsShape(ss, n - 1, events);
    }
  }

  /** After the chain, every sound event carries exactly the generator's tags
      together with its own, and every control event is as the root emitted
      it. */
  lemma EmittedTags(ss: seq<Snapshot>, idTags: set<string>, events: seq<InterpretableEvent>)
    ensures |ChainEvents(ss, |ss|, Tagged(idTags, events))| == |events|
    ensures forall i :: 0 <= i < |events| && events[i].Sound? ==>
      ChainEvents(ss, |ss|, Tagged(idTags, events))[i].Sound? &&
      ChainEvents(ss, |ss|, Tagged(idTags, events))[i].s.tags == idTags + events[i].s.tags
    ensures forall i :: 0 <= i < |events| && events[i].Control? ==>
      ChainEvents(ss, |ss|, Tagged(idTags, events))[i] == events[i]
  {
    ChainEventsShape(ss, |ss|, Tagged(idTags, events));
  }

  /** A chain of processors that keep the default hooks passes the events
      and the transition on unchanged and makes no generator-modifier call. */
  lemma {:induction false} DefaultChainPasses(ss: seq<Snapshot>, n: nat, events: seq<InterpretableEvent>, t: StaticEvent)
    requires n <= |ss|
    requires forall i :: 0 <= i < |ss| ==> ss[i].OtherSnap?
    ensures ChainEvents(ss, n, events) == events
    ensures ChainTransition(ss, n, t) == t
    ensures ChainCalls(ss, n) == []
  {
    if n != 0 {
      DefaultChainPasses(ss, n - 1, events, t);
    }
  }

  /** The objects of a chain of processors. */
  ghost function ObjsOf(ps: seq<Processor>): set<object>
  {
    set i | 0 <= i < |ps| :: Obj(ps[i])
  }

  /** Each processor of a chain is its own object. */
  ghost predicate Distinct(ps: seq<Processor>)
  {
    forall i, j :: 0 <= i < j < |ps| ==> Obj(ps[i]) != Obj(ps[j])
  }

  /** What the processors of a chain hold. */
  ghost function SnapsOf(ps: seq<Processor>): (r: seq<Snapshot>)
    reads ObjsOf(ps)
    ensures |r| == |ps|
  {
    seq(|ps|, i requires 0 <= i < |ps| reads ObjsOf(ps) => Snap(ps[i]))
  }

  /** The `i`-th processor's part of a step: its event hook, then its
      generator hook, continuing the events and the calls of the processors
      before it. */
  method StepProcessor(p: Processor, ghost ss: seq<Snapshot>, i: nat, ghost events0: seq<InterpretableEvent>,
                       events: seq<InterpretableEvent>, calls: seq<GenModCall>)
    returns (events': seq<InterpretableEvent>, calls': seq<GenModCall>)
    requires i < |ss| && Snap(p) == ss[i]
    requires events == ChainEvents(ss, i, events0) && calls == ChainCalls(ss, i)
    modifies Obj(p)
    ensures events' == ChainEvents(ss, i + 1, events0)
    ensures calls' == ChainCalls(ss, i + 1)
    ensures Snap(p) == AfterStep(ss[i])
  {
    events' := ProcessEvents(p, events);
    var c := ProcessGenerator(p);
    calls' := calls + c;
  }

  /** Hands each processor of `ps` the state of the processor at the same
      position in `qs`, when there is one; the others keep what they hold. */
  method TransferChain(ps: seq<Processor>, qs: seq<Processor>)
    requires Distinct(ps) && ObjsOf(ps) !! ObjsOf(qs)
    modifies ObjsOf(ps)
    ensures forall i :: 0 <= i < |ps| ==>
      Snap(ps[i]) == if i < |qs| then WithState(old(Snap(ps[i])), old(GetState(qs[i]))) else old(Snap(ps[i]))
  {
    for idx := 0 to |ps|
      invariant forall i :: 0 <= i < |ps| ==>
        Snap(ps[i]) == if i < idx && i < |qs| then WithState(old(Snap(ps[i])), old(GetState(qs[i]))) else old(Snap(ps[i]))
      invariant forall i :: 0 <= i < |qs| ==> GetState(qs[i]) == old(GetState(qs[i]))
    {
      if idx < |qs| {
        var st := GetState(qs[idx]);
        InChain(ps, idx);
        ApartFrom(ps, qs, idx);
        SetState(ps[idx], st);
      }
    }
  }

  /** No processor of `qs` is the `i`-th processor of `ps`. */
  lemma ApartFrom(ps: seq<Processor>, qs: seq<Processor>, i: nat)
    requires ObjsOf(ps) !! ObjsOf(qs) && i < |ps|
    ensures forall k :: 0 <= k < |qs| ==> Obj(qs[k]) != Obj(ps[i])
  {
    assert Obj(ps[i]) in ObjsOf(ps);
    forall k | 0 <= k < |qs| ensures Obj(qs[k]) != Obj(ps[i]) {
      assert Obj(qs[k]) in ObjsOf(qs);
    }
  }

  /** The `i`-th processor of a chain belongs to it and to no other
      position. */
  lemma InChain(ps: seq<Processor>, i: nat)
    requires Distinct(ps) && i < |ps|
    ensures Obj(ps[i]) in ObjsOf(ps)
    ensures forall k :: 0 <= k < |ps| && k != i ==> Obj(ps[k]) != Obj(ps[i])
  {
  }

  /** The chain after its first `i` processors have run: those hold their
      state after the step, the others their state before it, and the
      events and the calls are those of the first `i` processors. */
  ghost predicate RanUpTo(ps: seq<Processor>, ss: seq<Snapshot>, i: nat, events0: seq<InterpretableEvent>,
                          events: seq<InterpretableEvent>, calls: seq<GenModCall>)
    reads ObjsOf(ps)
  {
    i <= |ps| == |ss| &&
    (forall k :: 0 <= k < |ps| ==> Snap(ps[k]) == if k < i then AfterStep(ss[k]) else ss[k]) &&
    events == ChainEvents(ss, i, events0) && calls == ChainCalls(ss, i)
  }

  /** Runs the `i`-th processor of a chain. */
  method RunOne(ps: seq<Processor>, ghost ss: seq<Snapshot>, i: nat, ghost events0: seq<InterpretableEvent>,
                events: seq<InterpretableEvent>, calls: seq<GenModCall>)
    returns (events': seq<InterpretableEvent>, calls': seq<GenModCall>)
    requires Distinct(ps) && i < |ps| && RanUpTo(ps, ss, i, events0, events, calls)
    modifies ObjsOf(ps)
    ensures RanUpTo(ps, ss, i + 1, events0, events', calls')
  {
    InChain(ps, i);
    events', calls' := StepProcessor(ps[i], ss, i, events0, events, calls);
  }

  /** Runs each processor's event hook and generator hook, in chain order. */
  method RunChain(ps: seq<Processor>, ghost ss: seq<Snapshot>, events: seq<InterpretableEvent>)
    returns (events': seq<InterpretableEvent>, calls: seq<GenModCall>)
    requires Distinct(ps) && |ss| == |ps|
    requires forall k :: 0 <= k < |ps| ==> Snap(ps[k]) == ss[k]
    modifies ObjsOf(ps)
    ensures events' == ChainEvents(ss, |ps|, events)
    ensures calls == ChainCalls(ss, |ps|)
    ensures forall k :: 0 <= k < |ps| ==> Snap(ps[k]) == AfterStep(ss[k])
  {
    events', calls := events, [];
    for i := 0 to |ps|
      invariant RanUpTo(ps, ss, i, events, events', calls)
    {
      events', calls := RunOne(ps, ss, i, events, events', calls);
    }
  }

  class Generator {
    var idTags: set<string>
    var root: MarkovSequenceGenerator
    var processors: seq<Processor>
    var timeMods: seq<TimeMod>
    var keepRoot: bool
    /** The generator-modifier calls made on this generator, in order. The
        functions themselves are not part of this model. */
    var genModCalls: seq<GenModCall>

    /** Each processor is its own object, apart from the generator. */
    ghost predicate Valid()
      reads this`processors
    {
      this !in ObjsOf(processors) && Distinct(processors)
    }

    constructor (idTags: set<string>, root: MarkovSequenceGenerator, processors: seq<Processor>,
                 timeMods: seq<TimeMod>, keepRoot: bool)
      ensures this.idTags == idTags && this.root == root && this.processors == processors
      ensures this.timeMods == timeMods && this.keepRoot == keepRoot && genModCalls == []
    {
      this.idTags := idTags;
      this.root := root;
      this.processors := processors;
      this.timeMods := timeMods;
      this.keepRoot := keepRoot;
      genModCalls := [];
    }

    /** Whether the root automaton has nowhere left to go. */
    predicate ReachedEndState()
      reads this
      ensures ReachedEndState() <==> ReachedEnd(root)
    {
      ReachedEnd(root)
    }

    /** Takes over the state of a previous definition: the root's own
        transfer is done outside this model and its result is `rootAfter`;
        each processor receives the state of the processor at the same
        position in `other`, when there is one. */
    method TransferState(other: Generator, rootAfter: MarkovSequenceGenerator)
      requires Valid() && other != this && ObjsOf(processors) !! ObjsOf(other.processors)
      modifies this`root, ObjsOf(processors)
      ensures Valid()
      ensures root == rootAfter
      ensures forall i :: 0 <= i < |processors| ==>
        Snap(processors[i]) == if i < |other.processors|
          then WithState(old(Snap(processors[i])), old(GetState(other.processors[i])))
          else old(Snap(processors[i]))
    {
      root := rootAfter;
      TransferChain(processors, other.processors);
    }

    /** The events of one step: the root's events (given as `rootEvents`,
        with the root afterwards `rootAfter`) receive the generator's tags,
        then each processor runs its event hook and its generator hook, in
        chain order. */
    method CurrentEvents(rootEvents: seq<InterpretableEvent>, rootAfter: MarkovSequenceGenerator)
      returns (events: seq<InterpretableEvent>)
      requires Valid()
      modifies this`root, this`genModCalls, ObjsOf(processors)
      ensures root == rootAfter
      ensures events == ChainEvents(old(SnapsOf(processors)), |processors|, Tagged(idTags, rootEvents))
      ensures genModCalls == old(genModCalls) + ChainCalls(old(SnapsOf(processors)), |processors|)
      ensures forall k :: 0 <= k < |processors| ==> Snap(processors[k]) == AfterStep(old(Snap(processors[k])))
      ensures Valid()
    {
      ghost var ss := SnapsOf(processors);
      events := TagEvents(idTags, rootEvents);
      assert SnapsOf(processors) == ss;
      assert forall k :: 0 <= k < |processors| ==> old(Snap(processors[k])) == ss[k];
      var calls;
      events, calls := RunChain(processors, ss, events);
      root, genModCalls := rootAfter, genModCalls + calls;
    }

    /** The transition of one step: the root's transition (given as
        `rootTrans`) passes through each processor's transition hook, then
        the most recently pushed time modification, if any, is taken off the
        stack and applied. `divByZero` gives the `f32` result of dividing a
        duration by zero. */
    method CurrentTransition(rootTrans: StaticEvent, divByZero: real -> real) returns (r: Result<StaticEvent>)
      requires Valid()
      modifies this`timeMods
      ensures Valid()
      ensures old(timeMods) == [] ==> timeMods == [] && r == Ok(ChainTransition(old(SnapsOf(processors)), |processors|, rootTrans))
      ensures old(timeMods) != [] ==>
        timeMods == old(timeMods)[..|old(timeMods)| - 1] &&
        r == ApplyTo(old(timeMods)[|old(timeMods)| - 1], ChainTransition(old(SnapsOf(processors)), |processors|, rootTrans), divByZero)
    {
      ghost var ss := SnapsOf(processors);
      var trans := rootTrans;
      for i := 0 to |processors|
        invariant trans == ChainTransition(ss, i, rootTrans)
        invariant timeMods == old(timeMods)
        invariant forall k :: 0 <= k < |processors| ==> Snap(processors[k]) == ss[k]
      {
        trans := ProcessTransition(processors[i], trans);
      }
      if timeMods == [] {
        r := Ok(trans);
      } else {
        var tmod := timeMods[|timeMods| - 1];
        timeMods := timeMods[..|timeMods| - 1];
        r := ApplyTo(tmod, trans, divByZero);
      }
    }
  }
}
