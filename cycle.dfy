/** The cyclic automaton the loop and facts constructors build: symbols
    '1', '2', ... one per event list, a probability-1 rule from each symbol
    to the next, a closing rule from the last symbol back to '1', and one
    transition event per rule. */
module Cycle {
  import opened Wrappers
  import opened Parameter
  import opened Events
  import opened Markov

  /** `char::from_u32`: none for surrogates and for values past the last
      code point. */
  function CharFromU32(x: nat): (r: Option<char>)
    ensures r.Some? <==> x < 0xD800 || 0xE000 <= x < 0x11_0000
    ensures r.Some? ==> r.value as int == x
  {
    if x < 0xD800 || 0xE000 <= x < 0x11_0000 then Some(x as char) else None
  }

  /** How many consecutive symbols there are from '1' up to the first
      surrogate code point. */
  const SYMBOL_COUNT: nat := 0xD800 - 0x31

  /** The k-th generated symbol, counting from '1'. */
  function Sym(k: nat): (c: char)
    requires k < SYMBOL_COUNT
    ensures c as int == '1' as int + k
  {
    (0x31 + k) as char
  }

  /** The event that carries a transition's duration. */
  function TransitionEvent(d: Parameter): (e: Event)
    ensures e.name == "transition" && e.params == map[Duration := Scalar(d)]
  {
    EventWithName("transition").(params := map[Duration := Scalar(d)])
  }

  /** The automaton's rules and the two mappings of a generator. */
  datatype CycleParts = CycleParts(rules: seq<Rule>,
                                   eventMapping: map<char, seq<SourceEvent>>,
                                   durationMapping: map<(char, char), Event>)

  /** The rules k -> k+1 for the first `m` symbols. */
  function StepRules(m: nat): (rs: seq<Rule>)
    requires m < SYMBOL_COUNT
  {
    seq(m, k requires 0 <= k < m => Rule([Sym(k)], Sym(k + 1), 1.0))
  }

  /** The first `m` event lists, under their symbols. */
  function EventMap(evs: seq<seq<SourceEvent>>, m: nat): map<char, seq<SourceEvent>>
    requires m <= |evs| && m <= SYMBOL_COUNT
  {
    if m == 0 then map[] else EventMap(evs, m - 1)[Sym(m - 1) := evs[m - 1]]
  }

  /** The transition events of the first `m` rules k -> k+1, each carrying
      `durs[k]`. */
  function StepDurations(durs: seq<Parameter>, m: nat): map<(char, char), Event>
    requires m <= |durs| && m < SYMBOL_COUNT
  {
    if m == 0 then map[] else StepDurations(durs, m - 1)[(Sym(m - 1), Sym(m)) := TransitionEvent(durs[m - 1])]
  }

  /** The symbol the rule leaving symbol k leads to in a cycle of n. */
  function Next(k: nat, n: nat): nat
  {
    if k + 1 < n then k + 1 else 0
  }

  /** The cycle over `evs`: the edge leaving symbol k < n-1 carries
      `durs[k]`, the closing edge carries `closing`. */
  function CycleOf(evs: seq<seq<SourceEvent>>, durs: seq<Parameter>, closing: Parameter): CycleParts
    requires 1 <= |evs| <= SYMBOL_COUNT && |evs| <= |durs| + 1
  {
    var last := |evs| - 1;
    CycleParts(StepRules(last) + [Rule([Sym(last)], Sym(0), 1.0)],
               EventMap(evs, |evs|),
               StepDurations(durs, last)[(Sym(last), Sym(0)) := TransitionEvent(closing)])
  }

  /** Builds the cycle as the constructors do: symbol by symbol, panicking
      on `len - 1` below zero for no events and on the `unwrap` of a symbol
      that is not a character. */
  method BuildCycle(evs: seq<seq<SourceEvent>>, durs: seq<Parameter>, closing: Parameter)
    returns (r: Result<CycleParts>)
    requires |evs| <= |durs| + 1
    ensures r.Panic? <==> |evs| == 0 || |evs| > SYMBOL_COUNT
    ensures r.Ok? ==> 1 <= |evs| <= SYMBOL_COUNT && r.value == CycleOf(evs, durs, closing)
  {
    if |evs| == 0 {
      return Panic("attempt to subtract with overflow");
    }
    var eventMapping: map<char, seq<SourceEvent>> := map[];
    var durationMapping: map<(char, char), Event> := map[];
    var rules: seq<Rule> := [];
    var lastChar := '1';
    ghost var last: nat := 0;
    var len := |evs| - 1;
    for count := 0 to |evs|
      invariant last == if count <= len then count else len
      invariant last < SYMBOL_COUNT && lastChar == Sym(last)
      invariant count <= SYMBOL_COUNT
      invariant eventMapping == EventMap(evs, count)
      invariant rules == StepRules(last)
      invariant durationMapping == StepDurations(durs, last)
    {
      eventMapping := eventMapping[lastChar := evs[count]];
      if count < len {
        var next := CharFromU32(lastChar as nat + 1);
        if next.None? {
          return Panic("called `Option::unwrap()` on a `None` value");
        }
        var nextChar := next.value;
        rules := rules + [Rule([lastChar], nextChar, 1.0)];
        durationMapping := durationMapping[(lastChar, nextChar) := TransitionEvent(durs[count])];
        lastChar := nextChar;
        last := last + 1;
      }
    }
    rules := rules + [Rule([lastChar], '1', 1.0)];
    durationMapping := durationMapping[(lastChar, '1') := TransitionEvent(closing)];
    r := Ok(CycleParts(rules, eventMapping, durationMapping));
  }

  /** The symbols of the first `m` event lists are exactly '1' up to the
      m-th, and each maps to its own list. */
  lemma {:induction false} EventMapShape(evs: seq<seq<SourceEvent>>, m: nat)
    requires m <= |evs| && m <= SYMBOL_COUNT
    ensures forall c :: c in EventMap(evs, m) <==> 0x31 <= c as int < 0x31 + m
    ensures forall k :: 0 <= k < m ==> EventMap(evs, m)[Sym(k)] == evs[k]
  {
    if m > 0 {
      EventMapShape(evs, m - 1);
    }
  }

  /** The step edges of the first `m` symbols are exactly the pairs of
      consecutive symbols, each carrying its own duration. */
  lemma {:induction false} StepDurationsShape(durs: seq<Parameter>, m: nat)
    requires m <= |durs| && m < SYMBOL_COUNT
    ensures forall e :: e in StepDurations(durs, m) <==> 0x31 <= e.0 as int < 0x31 + m && e.1 as int == e.0 as int + 1
    ensures forall k :: 0 <= k < m ==> StepDurations(durs, m)[(Sym(k), Sym(k + 1))] == TransitionEvent(durs[k])
  {
    if m > 0 {
      StepDurationsShape(durs, m - 1);
    }
  }

  /** The source and target symbol of a one-symbol rule. */
  function Edge(r: Rule): (char, char)
    requires |r.source| == 1
  {
    (r.source[0], r.symbol)
  }

  /** The cycle has one rule per symbol, leading to the next symbol and
      from the last back to '1'. */
  lemma CycleRules(evs: seq<seq<SourceEvent>>, durs: seq<Parameter>, closing: Parameter)
    requires 1 <= |evs| <= SYMBOL_COUNT && |evs| <= |durs| + 1
    ensures var c := CycleOf(evs, durs, closing);
      && |c.rules| == |evs|
      && (forall k :: 0 <= k < |evs| ==> c.rules[k] == Rule([Sym(k)], Sym(Next(k, |evs|)), 1.0))
      && c.rules[|evs| - 1].symbol == '1'
  {
  }

  /** Every rule of the cycle has a duration entry: the step duration for a
      step rule and `closing` for the closing rule. */
  lemma CycleDurations(evs: seq<seq<SourceEvent>>, durs: seq<Parameter>, closing: Parameter)
    requires 1 <= |evs| <= SYMBOL_COUNT && |evs| <= |durs| + 1
    ensures var c := CycleOf(evs, durs, closing);
      forall k :: 0 <= k < |evs| ==>
        Edge(c.rules[k]) in c.durationMapping &&
        c.durationMapping[Edge(c.rules[k])] == TransitionEvent(if k < |evs| - 1 then durs[k] else closing)
  {
    var n := |evs|;
    var c := CycleOf(evs, durs, closing);
    StepDurationsShape(durs, n - 1);
    forall k | 0 <= k < n - 1
      ensures Edge(c.rules[k]) == (Sym(k), Sym(k + 1))
    {
    }
  }

  /** The duration mapping has no entry but those of the rules, so with
      `CycleDurations` every rule has exactly one. */
  lemma CycleDurationsOnly(evs: seq<seq<SourceEvent>>, durs: seq<Parameter>, closing: Parameter)
    requires 1 <= |evs| <= SYMBOL_COUNT && |evs| <= |durs| + 1
    ensures var c := CycleOf(evs, durs, closing);
      forall e :: e in c.durationMapping ==> exists k :: 0 <= k < |evs| && e == Edge(c.rules[k])
  {
    var n := |evs|;
    var c := CycleOf(evs, durs, closing);
    StepDurationsShape(durs, n - 1);
    forall e | e in c.durationMapping
      ensures exists k :: 0 <= k < n && e == Edge(c.rules[k])
    {
      if e != (Sym(n - 1), Sym(0)) {
        var k := e.0 as int - 0x31;
        assert e == Edge(c.rules[k]);
      } else {
        assert e == Edge(c.rules[n - 1]);
      }
    }
  }

  /** The symbols of the cycle are exactly '1' up to the n-th, and each maps
      to its own event list. */
  lemma CycleEvents(evs: seq<seq<SourceEvent>>, durs: seq<Parameter>, closing: Parameter)
    requires 1 <= |evs| <= SYMBOL_COUNT && |evs| <= |durs| + 1
    ensures var c := CycleOf(evs, durs, closing);
      && (forall c' :: c' in c.eventMapping <==> 0x31 <= c' as int < 0x31 + |evs|)
      && (forall k :: 0 <= k < |evs| ==> c.eventMapping[Sym(k)] == evs[k])
  {
    EventMapShape(evs, |evs|);
  }

  /** Every symbol has exactly one rule leaving it. */
  lemma CycleDeterministic(evs: seq<seq<SourceEvent>>, durs: seq<Parameter>, closing: Parameter, i: nat, j: nat)
    requires 1 <= |evs| <= SYMBOL_COUNT && |evs| <= |durs| + 1
    requires i < |evs| && j < |evs|
    ensures CycleOf(evs, durs, closing).rules[i].source == CycleOf(evs, durs, closing).rules[j].source ==> i == j
  {
    var c := CycleOf(evs, durs, closing);
    if c.rules[i].source == c.rules[j].source {
      assert c.rules[i].source[0] == Sym(i);
      assert c.rules[j].source[0] == Sym(j);
    }
  }
}
