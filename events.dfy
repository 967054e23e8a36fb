/** Events as the generators and the parser handle them. The event type's
    own operations live in the event module, which is not part of this
    model: an event is kept here as its name, its operation, its parameter
    map and its tag set. */
module Events {
  import opened Wrappers
  import opened Parameter

  /** How an event's parameters combine with the ones it is applied to. */
  datatype EventOperation = Replace | Add | Subtract | Multiply | Divide

  /** A source event: parameters are still dynamic. */
  datatype Event = Event(name: string, op: EventOperation, params: map<Label, ParameterValue>, tags: set<string>)

  /** An event created by name, with no parameters and no tags. */
  function EventWithName(name: string): (e: Event)
    ensures e.name == name && e.op == Replace && e.params == map[] && e.tags == {}
  {
    Event(name, Replace, map[], {})
  }

  /** An application of one static event onto another, through a tag filter
      and a filter mode. */
  datatype Override = Override(ev: StaticEvent, filter: seq<string>, mode: bool)

  /** A solidified event: parameters are resolved. Applying another static
      event to it is done by code outside this model, so the applications
      are recorded, in order, in `applied`. */
  datatype StaticEvent = StaticEvent(name: string, op: EventOperation, params: map<Label, SynthValue>,
                                     tags: set<string>, applied: seq<Override>)

  /** Applies `o` to `s` through `filter` in `mode`. */
  function Apply(s: StaticEvent, o: StaticEvent, filter: seq<string>, mode: bool): (r: StaticEvent)
    ensures r.name == s.name && r.params == s.params && r.tags == s.tags
    ensures r.applied == s.applied + [Override(o, filter, mode)]
  {
    s.(applied := s.applied + [Override(o, filter, mode)])
  }

  /** A control event; what it carries (session contexts and commands) is
      not part of this model. */
  datatype ControlEvent = ControlEvent(id: nat)

  /** What a symbol of a generator's automaton maps to. */
  datatype SourceEvent = SoundSource(sound: Event) | ControlSource(control: ControlEvent)

  /** What a generator emits. */
  datatype InterpretableEvent = Sound(s: StaticEvent) | Control(c: ControlEvent)

  /** A configuration value: a number, a dynamic parameter or a name. */
  datatype ConfigParameter = Numeric(n: real) | Dynamic(p: Parameter) | Symbolic(sym: string)

  /** One call of a generator-modifier function with its arguments. */
  datatype GenModCall = GenModCall(fun: string, posArgs: seq<ConfigParameter>, namedArgs: map<string, ConfigParameter>)
}
