/** The facts constructor: a generator cycling through multiplications of
    one parameter, one per number given, every transition taking the default
    duration. */
module Facts {
  import opened Wrappers
  import opened Parameter
  import opened Events
  import opened Markov
  import opened Expr
  import opened Globals
  import opened Generator
  import opened Cycle
  import Loop

  /** What the token loop collects: the event lists, whether to keep the
      previous automaton, and the chance of randomising its edges. */
  datatype FactsCollected = FactsCollected(evs: seq<seq<SourceEvent>>, keep: bool, randomize: real)

  /** The event a number `f` becomes: `<param>-mul`, multiplying the
      parameter by `f`. */
  function MulEvent(param: string, f: real, mapParam: string -> Label): (e: Event)
    ensures e.name == param + "-mul" && e.op == Multiply && e.tags == {}
    ensures e.params.Keys == {mapParam(param)} && e.params[mapParam(param)] == Scalar(WithValue(f))
  {
    Event(param + "-mul", Multiply, map[mapParam(param) := Scalar(WithValue(f))], {})
  }

  /** The collection from item `i` on. `:rnd` and `:keep` take the item
      after them; `:rnd` as the last item panics on the `unwrap`. */
  function FactsFrom(param: string, toks: seq<EvaluatedExpr>, i: nat, acc: FactsCollected, mapParam: string -> Label): Result<FactsCollected>
    requires i <= |toks|
    decreases |toks| - i
  {
    if i == |toks| then Ok(acc)
    else match toks[i]
      case Keyword(k) =>
        if k == "rnd" then
          if i + 1 < |toks| then
            FactsFrom(param, toks, i + 2, if toks[i + 1].Float? then acc.(randomize := toks[i + 1].f) else acc, mapParam)
          else Panic("called `Option::unwrap()` on a `None` value")
        else if k == "keep" then
          if i + 1 < |toks| then
            FactsFrom(param, toks, i + 2, if toks[i + 1].Boolean? then acc.(keep := toks[i + 1].b) else acc, mapParam)
          else Ok(acc)
        else FactsFrom(param, toks, i + 1, acc, mapParam)
      case Float(f) => FactsFrom(param, toks, i + 1, acc.(evs := acc.evs + [[SoundSource(MulEvent(param, f, mapParam))]]), mapParam)
      case _ => FactsFrom(param, toks, i + 1, acc, mapParam)
  }

  function FactsOf(param: string, toks: seq<EvaluatedExpr>, mapParam: string -> Label): Result<FactsCollected>
  {
    FactsFrom(param, toks, 0, FactsCollected([], false, 0.0), mapParam)
  }

  /** The token loop. */
  method CollectFacts(param: string, toks: seq<EvaluatedExpr>, mapParam: string -> Label) returns (r: Result<FactsCollected>)
    ensures r == FactsOf(param, toks, mapParam)
  {
    var evVecs: seq<seq<SourceEvent>> := [];
    var keepRoot := false;
    var randomizeChance := 0.0;
    var i := 0;
    while i < |toks|
      invariant i <= |toks|
      invariant FactsFrom(param, toks, i, FactsCollected(evVecs, keepRoot, randomizeChance), mapParam) == FactsOf(param, toks, mapParam)
    {
      var t := toks[i];
      i := i + 1;
      match t {
        case Keyword(k) =>
          if k == "rnd" {
            if i == |toks| {
              return Panic("called `Option::unwrap()` on a `None` value");
            }
            var n := toks[i];
            i := i + 1;
            if n.Float? {
              randomizeChance := n.f;
            }
          } else if k == "keep" {
            if i < |toks| {
              var b := toks[i];
              i := i + 1;
              if b.Boolean? {
                keepRoot := b.b;
              }
            }
          }
        case Float(f) =>
          evVecs := evVecs + [[SoundSource(MulEvent(param, f, mapParam))]];
        case _ =>
      }
    }
    r := Ok(FactsCollected(evVecs, keepRoot, randomizeChance));
  }

  /** Whether the name and the parameter symbol are there. */
  predicate Named(tail: seq<EvaluatedExpr>)
  {
    |tail| >= 3 && tail[1].Symbol? && tail[2].Symbol?
  }

  /** What the facts constructor builds from `tail` with default duration
      `d`: a panic, nothing (no number given), the empty automaton when the
      previous one is kept, or the cycle over the multiplications. */
  function FactsParts(tail: seq<EvaluatedExpr>, d: real, mapParam: string -> Label): Result<Option<CycleParts>>
    requires Named(tail)
  {
    var res := FactsOf(tail[2].sym, tail[3..], mapParam);
    if res.Panic? then Panic(res.reason)
    else if |res.value.evs| == 0 then Ok(None)
    else if res.value.keep then Ok(Some(Loop.NO_PARTS))
    else if |res.value.evs| > SYMBOL_COUNT then Panic("called `Option::unwrap()` on a `None` value")
    else Ok(Some(CycleOf(res.value.evs, seq(|res.value.evs|, _ => WithValue(d)), WithValue(d))))
  }

  /** The facts constructor. Nothing is built, and the global parameters
      are left alone, without a name and a parameter symbol; otherwise the
      default duration is read from them, 200 being inserted first when it
      is missing. Randomising the automaton's edges is not part of this
      model. */
  method MakeFacts(tail: seq<EvaluatedExpr>, globals: GlobalParameters, mapParam: string -> Label) returns (r: Result<Option<Generator>>)
    requires globals.Valid()
    modifies globals
    ensures globals.Valid()
    ensures !Named(tail) ==> r == Ok(None) && globals.entries == old(globals.entries)
    ensures Named(tail) && DefaultDuration in old(globals.entries) ==> globals.entries == old(globals.entries)
    ensures Named(tail) && DefaultDuration !in old(globals.entries) ==>
      globals.entries == old(globals.entries)[DefaultDuration := Numeric(DEFAULT_DURATION)]
    ensures Named(tail) ==> (DefaultDuration in globals.entries &&
      var d := globals.entries[DefaultDuration].n;
      var parts := FactsParts(tail, d, mapParam);
      && (r.Panic? <==> parts.Panic?)
      && (r.Ok? ==> (r.value.None? <==> parts.value.None?))
      && (r.Ok? && r.value.Some? ==>
            && fresh(r.value.value)
            && r.value.value.idTags == {tail[1].sym}
            && r.value.value.root == Loop.FreshRoot(tail[1].sym, parts.value.value, d)
            && r.value.value.processors == [] && r.value.value.timeMods == [] && r.value.value.genModCalls == []
            && r.value.value.keepRoot == FactsOf(tail[2].sym, tail[3..], mapParam).value.keep
            && r.value.value.Valid()))
  {
    if !Named(tail) {
      return Ok(None);
    }
    var name := tail[1].sym;
    var param := tail[2].sym;
    var d := globals.DefaultDurationOrInsert();
    var dur := WithValue(d);
    var res := CollectFacts(param, tail[3..], mapParam);
    if res.Panic? {
      return Panic(res.reason);
    }
    var c := res.value;
    if |c.evs| == 0 {
      return Ok(None);
    }
    var parts := Loop.NO_PARTS;
    if !c.keep {
      var built := BuildCycle(c.evs, seq(|c.evs|, _ => dur), dur);
      if built.Panic? {
        return Panic(built.reason);
      }
      parts := built.value;
    }
    var g := new Generator({name}, Loop.FreshRoot(name, parts, dur.staticVal), [], [], c.keep);
    r := Ok(Some(g));
  }

  // ---------------------------------------------------------------------
  // Properties of the collection
  // ---------------------------------------------------------------------

  /** Whether every event list is a single multiplication of `param`. */
  ghost predicate AllMul(param: string, evs: seq<seq<SourceEvent>>, mapParam: string -> Label)
  {
    forall k :: 0 <= k < |evs| ==>
      |evs[k]| == 1 && evs[k][0].SoundSource? && exists f :: evs[k][0].sound == MulEvent(param, f, mapParam)
  }

  lemma {:induction false} FactsFromAllMul(param: string, toks: seq<EvaluatedExpr>, i: nat, acc: FactsCollected, mapParam: string -> Label)
    requires i <= |toks| && AllMul(param, acc.evs, mapParam)
    ensures FactsFrom(param, toks, i, acc, mapParam).Ok? ==> AllMul(param, FactsFrom(param, toks, i, acc, mapParam).value.evs, mapParam)
    decreases |toks| - i
  {
    if i < |toks| {
      match toks[i]
      case Keyword(k) =>
        if k == "rnd" || k == "keep" {
          if i + 1 < |toks| {
            FactsFromAllMul(param, toks, i + 2, acc.(randomize := if k == "rnd" && toks[i + 1].Float? then toks[i + 1].f else acc.randomize,
                                                     keep := if k == "keep" && toks[i + 1].Boolean? then toks[i + 1].b else acc.keep), mapParam);
          }
        } else {
          FactsFromAllMul(param, toks, i + 1, acc, mapParam);
        }
      case Float(f) =>
        var acc' := acc.(evs := acc.evs + [[SoundSource(MulEvent(param, f, mapParam))]]);
        assert acc'.evs[|acc.evs|][0].sound == MulEvent(param, f, mapParam);
        FactsFromAllMul(param, toks, i + 1, acc', mapParam);
      case _ => FactsFromAllMul(param, toks, i + 1, acc, mapParam);
    }
  }

  /** Each event of the generator is one multiplication of the parameter,
      named `<param>-mul`. */
  lemma FactsEventsAreMul(param: string, toks: seq<EvaluatedExpr>, mapParam: string -> Label)
    ensures FactsOf(param, toks, mapParam).Ok? ==> AllMul(param, FactsOf(param, toks, mapParam).value.evs, mapParam)
  {
    FactsFromAllMul(param, toks, 0, FactsCollected([], false, 0.0), mapParam);
  }

  /** The numbers among `toks`, in order. */
  function Floats(toks: seq<EvaluatedExpr>): seq<real>
  {
    if |toks| == 0 then []
    else if toks[|toks| - 1].Float? then Floats(toks[..|toks| - 1]) + [toks[|toks| - 1].f]
    else Floats(toks[..|toks| - 1])
  }

  /** Whether no item is a keyword. */
  predicate NoKeywords(toks: seq<EvaluatedExpr>)
  {
    forall k :: 0 <= k < |toks| ==> !toks[k].Keyword?
  }

  /** One multiplication event list per number. */
  function MulEvents(param: string, fs: seq<real>, mapParam: string -> Label): (evs: seq<seq<SourceEvent>>)
    ensures |evs| == |fs|
  {
    seq(|fs|, k requires 0 <= k < |fs| => [SoundSource(MulEvent(param, fs[k], mapParam))])
  }

  lemma {:induction false} FactsFromPlain(param: string, toks: seq<EvaluatedExpr>, i: nat, acc: FactsCollected, mapParam: string -> Label)
    requires i <= |toks| && NoKeywords(toks)
    ensures FactsFrom(param, toks, i, acc, mapParam).Ok?
    ensures FactsFrom(param, toks, i, acc, mapParam).value ==
      acc.(evs := acc.evs + MulEvents(param, Floats(toks[i..]), mapParam))
    decreases |toks| - i
  {
    if i < |toks| {
      var head := MulEvents(param, if toks[i].Float? then [toks[i].f] else [], mapParam);
      PlainStep(param, toks, i, acc, mapParam);
      FactsFromPlain(param, toks, i + 1, acc.(evs := acc.evs + head), mapParam);
      FloatsFrom(toks, i);
      MulEventsAppend(param, if toks[i].Float? then [toks[i].f] else [], Floats(toks[i + 1..]), mapParam);
      assert acc.evs + head + MulEvents(param, Floats(toks[i + 1..]), mapParam) == acc.evs + MulEvents(param, Floats(toks[i..]), mapParam);
    } else {
      assert acc.evs + MulEvents(param, Floats(toks[i..]), mapParam) == acc.evs;
    }
  }

  lemma FloatsFrom(toks: seq<EvaluatedExpr>, i: nat)
    requires i < |toks|
    ensures Floats(toks[i..]) == (if toks[i].Float? then [toks[i].f] else []) + Floats(toks[i + 1..])
  {
    assert toks[i..] == [toks[i]] + toks[i + 1..];
    FloatsCons(toks[i], toks[i + 1..]);
  }

  /** An item that is not a keyword adds the multiplication of a number
      and skips anything else. */
  lemma PlainStep(param: string, toks: seq<EvaluatedExpr>, i: nat, acc: FactsCollected, mapParam: string -> Label)
    requires i < |toks| && NoKeywords(toks)
    ensures FactsFrom(param, toks, i, acc, mapParam) ==
      FactsFrom(param, toks, i + 1, acc.(evs := acc.evs + MulEvents(param, if toks[i].Float? then [toks[i].f] else [], mapParam)), mapParam)
  {
    if toks[i].Float? {
      assert MulEvents(param, [toks[i].f], mapParam) == [[SoundSource(MulEvent(param, toks[i].f, mapParam))]];
    } else {
      assert acc.evs + MulEvents(param, [], mapParam) == acc.evs;
    }
  }

  lemma MulEventsAppend(param: string, a: seq<real>, b: seq<real>, mapParam: string -> Label)
    ensures MulEvents(param, a + b, mapParam) == MulEvents(param, a, mapParam) + MulEvents(param, b, mapParam)
  {
  }

  lemma {:induction false} FloatsCons(t: EvaluatedExpr, rest: seq<EvaluatedExpr>)
    ensures Floats([t] + rest) == (if t.Float? then [t.f] else []) + Floats(rest)
    decreases |rest|
  {
    if |rest| > 0 {
      assert ([t] + rest)[..|rest|] == [t] + rest[..|rest| - 1];
      FloatsCons(t, rest[..|rest| - 1]);
    } else {
      assert [t] + rest == [t];
      assert [t][..0] == [];
    }
  }

  /** Without keywords the generator has one multiplication per number,
      in the order the numbers were given, and keeps nothing. */
  lemma FactsWithoutKeywords(param: string, toks: seq<EvaluatedExpr>, mapParam: string -> Label)
    requires NoKeywords(toks)
    ensures var r := FactsOf(param, toks, mapParam);
      && r.Ok? && !r.value.keep && r.value.randomize == 0.0
      && |r.value.evs| == |Floats(toks)|
      && forall k :: 0 <= k < |Floats(toks)| ==> r.value.evs[k] == [SoundSource(MulEvent(param, Floats(toks)[k], mapParam))]
  {
    FactsFromPlain(param, toks, 0, FactsCollected([], false, 0.0), mapParam);
    assert toks[0..] == toks;
  }

  /** Every rule of a facts generator carries the default duration. */
  lemma FactsDurationsDefault(tail: seq<EvaluatedExpr>, d: real, mapParam: string -> Label)
    requires Named(tail)
    requires FactsParts(tail, d, mapParam).Ok? && FactsParts(tail, d, mapParam).value.Some?
    requires !FactsOf(tail[2].sym, tail[3..], mapParam).value.keep
    ensures var c := FactsParts(tail, d, mapParam).value.value;
      forall k :: 0 <= k < |c.rules| ==>
        |c.rules[k].source| == 1 && Edge(c.rules[k]) in c.durationMapping &&
        c.durationMapping[Edge(c.rules[k])] == TransitionEvent(WithValue(d))
  {
    var evs := FactsOf(tail[2].sym, tail[3..], mapParam).value.evs;
    var durs := seq(|evs|, _ => WithValue(d));
    CycleRules(evs, durs, WithValue(d));
    CycleDurations(evs, durs, WithValue(d));
  }
}
