/** Generator processors: objects chained behind a generator that may rewrite
    the events it emits, the generator itself and the transition between
    events. A processor implements only the hooks it needs; the others keep
    their defaults, which change nothing. */
module GeneratorProcessor {
  import opened Wrappers
  import opened Parameter
  import opened Events
  import opened Markov
  import opened EveryProcessor

  /** The state a processor hands over when a generator is redefined. A
      wrapped generator is held as its tags and its root automaton. */
  datatype ProcessorState =
    | Count(n: nat)
    | WrappedGenerator(idTags: set<string>, root: MarkovSequenceGenerator)
    | NoState

  /** A processor whose code is not part of this model. It implements none of
      the event, generator and transition hooks; a stateful one implements
      the two state hooks over the state it keeps. */
  class OtherProcessor {
    const stateful: bool
    var state: ProcessorState

    constructor (stateful: bool, state: ProcessorState)
      ensures this.stateful == stateful && this.state == state
    {
      this.stateful := stateful;
      this.state := state;
    }
  }

  /** A processor in a generator's chain. */
  datatype Processor = Every(e: EveryProcessor) | Other(o: OtherProcessor)

  /** The object a processor lives in. */
  function Obj(p: Processor): object
  {
    match p
    case Every(e) => e
    case Other(o) => o
  }

  /** What a processor holds, as a value. */
  datatype Snapshot =
    | EverySnap(stepCount: nat, things: seq<Entry>, lastStatic: seq<Fired>)
    | OtherSnap(stateful: bool, state: ProcessorState)

  function Snap(p: Processor): Snapshot
    reads Obj(p)
  {
    match p
    case Every(e) => EverySnap(e.stepCount, e.things, e.lastStatic)
    case Other(o) => OtherSnap(o.stateful, o.state)
  }

  /** The state a processor hands over: an "every" processor keeps the
      default and hands over nothing. */
  function StateOf(s: Snapshot): (r: ProcessorState)
    ensures s.EverySnap? ==> r == NoState
    ensures s.OtherSnap? && !s.stateful ==> r == NoState
    ensures s.OtherSnap? && s.stateful ==> r == s.state
  {
    if s.OtherSnap? && s.stateful then s.state else NoState
  }

  function GetState(p: Processor): ProcessorState
    reads Obj(p)
  {
    StateOf(Snap(p))
  }

  /** A snapshot after it is handed `st`: only a stateful processor takes it. */
  function WithState(s: Snapshot, st: ProcessorState): (r: Snapshot)
    ensures s.OtherSnap? && s.stateful ==> r == s.(state := st)
    ensures !(s.OtherSnap? && s.stateful) ==> r == s
  {
    if s.OtherSnap? && s.stateful then s.(state := st) else s
  }

  /** Handing the state over and reading it back gives the state handed
      over exactly when the processor is stateful; a stateless one ignores
      what it is given. */
  lemma StateRoundTrip(s: Snapshot, st: ProcessorState)
    ensures (s.OtherSnap? && s.stateful) ==> StateOf(WithState(s, st)) == st
    ensures !(s.OtherSnap? && s.stateful) ==> StateOf(WithState(s, st)) == StateOf(s) == NoState
  {
  }

  method SetState(p: Processor, st: ProcessorState)
    modifies Obj(p)
    ensures Snap(p) == WithState(old(Snap(p)), st)
  {
    match p
    case Every(_) =>
    case Other(o) =>
      if o.stateful {
        o.state := st;
      }
  }

  /** The events after one processor's event hook. */
  ghost function EventsStep(s: Snapshot, events: seq<InterpretableEvent>): seq<InterpretableEvent>
  {
    match s
    case EverySnap(n, things, _) => ApplyAll(events, FiredOverrides(things, n))
    case OtherSnap(_, _) => events
  }

  /** A processor after its event hook. */
  ghost function AfterEvents(s: Snapshot): Snapshot
  {
    match s
    case EverySnap(n, things, _) =>
      var things' := seq(|things|, i requires 0 <= i < |things| => things[i].(step := AfterEvaluation(things[i].step)));
      EverySnap(n, things', FiredList(things, n))
    case OtherSnap(_, _) => s
  }

  /** The generator-modifier calls of one processor's generator hook. */
  ghost function GenModsStep(s: Snapshot): seq<GenModCall>
  {
    match s
    case EverySnap(n, things, _) => DueGenMods(things, n)
    case OtherSnap(_, _) => []
  }

  /** A processor after its generator hook. */
  ghost function AfterGenerator(s: Snapshot): Snapshot
  {
    match s
    case EverySnap(n, things, ls) => EverySnap(n + 1, things, ls)
    case OtherSnap(_, _) => s
  }

  /** The transition after one processor's transition hook. */
  ghost function TransitionStep(s: Snapshot, t: StaticEvent): StaticEvent
  {
    match s
    case EverySnap(n, _, ls) => t.(applied := t.applied + TransitionOverrides(ls, n))
    case OtherSnap(_, _) => t
  }

  /** The event hook. The default passes the events on unchanged. */
  method ProcessEvents(p: Processor, events: seq<InterpretableEvent>) returns (events': seq<InterpretableEvent>)
    modifies Obj(p)
    ensures events' == EventsStep(old(Snap(p)), events)
    ensures Snap(p) == AfterEvents(old(Snap(p)))
  {
    match p
    case Every(e) =>
      events' := e.ProcessEvents(events);
    case Other(_) =>
      events' := events;
  }

  /** The generator hook, returning the generator-modifier calls it makes.
      The default makes none. */
  method ProcessGenerator(p: Processor) returns (calls: seq<GenModCall>)
    modifies Obj(p)
    ensures calls == GenModsStep(old(Snap(p)))
    ensures Snap(p) == AfterGenerator(old(Snap(p)))
  {
    match p
    case Every(e) =>
      calls := e.ProcessGenerator();
    case Other(_) =>
      calls := [];
  }

  /** The transition hook. The default passes the transition on unchanged;
      no hook changes the processor. */
  method ProcessTransition(p: Processor, trans: StaticEvent) returns (trans': StaticEvent)
    ensures trans' == TransitionStep(Snap(p), trans)
  {
    match p
    case Every(e) =>
      trans' := e.ProcessTransition(trans);
    case Other(_) =>
      trans' := trans;
  }

  /** A boxed copy: a new object of the same kind holding the same values. */
  method CloneBox(p: Processor) returns (q: Processor)
    ensures fresh(Obj(q))
    ensures q.Every? == p.Every?
    ensures Snap(q) == Snap(p)
  {
    match p
    case Every(e) =>
      var c := e.Clone();
      q := Every(c);
    case Other(o) =>
      var c := new OtherProcessor(o.stateful, o.state);
      q := Other(c);
  }

  /** The default hooks leave everything as it is: events, the transition,
      the generator-modifier calls and the processor itself. */
  lemma DefaultHooksChangeNothing(s: Snapshot, events: seq<InterpretableEvent>, t: StaticEvent)
    requires s.OtherSnap?
    ensures EventsStep(s, events) == events
    ensures TransitionStep(s, t) == t
    ensures GenModsStep(s) == []
    ensures AfterEvents(s) == s && AfterGenerator(s) == s
    ensures !s.stateful ==> StateOf(s) == NoState
  {
  }
}
