/** The automaton side of a generator. Inference from rules, the random
    walk and the symbol bookkeeping belong to an external automaton library
    and to the Markov sequence generator, neither of which is part of this
    model: the automaton is kept as the rules it was inferred from. */
module Markov {
  import opened Wrappers
  import opened Events

  /** An edge from the symbol history `source` to `symbol`. */
  datatype Rule = Rule(source: seq<char>, symbol: char, probability: real)

  /** A probabilistic automaton, as the rules it was inferred from. */
  datatype Pfa = Pfa(rules: seq<Rule>)

  const EmptyPfa := Pfa([])

  datatype MarkovSequenceGenerator = MarkovSequenceGenerator(
    name: string,
    generator: Pfa,
    eventMapping: map<char, seq<SourceEvent>>,
    durationMapping: map<(char, char), Event>,
    modified: bool,
    symbolAges: map<char, nat>,
    defaultDuration: nat,
    lastTransition: Option<StaticEvent>,
    lastSymbol: Option<char>)

  /** Whether some rule leaves the one-symbol history `s`. */
  predicate HasOutgoing(rules: seq<Rule>, s: char)
  {
    exists i :: 0 <= i < |rules| && rules[i].source == [s]
  }

  /** Whether the automaton has no edge leaving its current symbol. */
  predicate ReachedEnd(m: MarkovSequenceGenerator)
  {
    m.lastSymbol.Some? && !HasOutgoing(m.generator.rules, m.lastSymbol.value)
  }
}
