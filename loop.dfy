/** The loop constructor: a generator that plays its events in a cycle,
    each transition carrying the duration given after an event or the
    default duration. */
module Loop {
  import opened Wrappers
  import opened Parameter
  import opened Events
  import opened Markov
  import opened Expr
  import opened Globals
  import opened Generator
  import opened Cycle

  /** What the token loop collects: one event list per event, the durations
      in their positions, and whether to keep the previous automaton. */
  datatype Collected = Collected(evs: seq<seq<SourceEvent>>, durs: seq<Parameter>, keep: bool)

  /** The generator's name: the symbol after the function name, or "" when
      the item there is anything else (it is consumed either way). */
  function LoopName(tail: seq<EvaluatedExpr>): (name: string)
    ensures |tail| >= 2 && tail[1].Symbol? ==> name == tail[1].sym
    ensures !(|tail| >= 2 && tail[1].Symbol?) ==> name == ""
  {
    if |tail| >= 2 && tail[1].Symbol? then tail[1].sym else ""
  }

  /** The items after the function name and the name position. */
  function LoopTokens(tail: seq<EvaluatedExpr>): seq<EvaluatedExpr>
  {
    if |tail| <= 2 then [] else tail[2..]
  }

  /** The keyword that consumes the item after it. */
  const KEEP := Keyword("keep")

  predicate IsKeep(t: EvaluatedExpr)
  {
    t.Keyword? && t.kw == "keep"
  }

  /** One item other than `:keep`: an event adds its list and a default
      duration, a number replaces the last duration (or is added when there
      is none yet), anything else is ignored. */
  function Step(acc: Collected, t: EvaluatedExpr, dur: Parameter): Collected
  {
    match t
    case BuiltIn(SoundEv(e)) => acc.(evs := acc.evs + [[SoundSource(e)]], durs := acc.durs + [dur])
    case BuiltIn(ControlEv(e)) => acc.(evs := acc.evs + [[ControlSource(e)]], durs := acc.durs + [dur])
    case Float(f) =>
      if |acc.durs| > 0 then acc.(durs := acc.durs[..|acc.durs| - 1] + [WithValue(f)])
      else acc.(durs := [WithValue(f)])
    case _ => acc
  }

  /** The collection from item `i` on; `:keep` takes the item after it,
      which sets the flag when it is a boolean. */
  function CollectFrom(toks: seq<EvaluatedExpr>, i: nat, dur: Parameter, acc: Collected): Collected
    requires i <= |toks|
    decreases |toks| - i
  {
    if i == |toks| then acc
    else if IsKeep(toks[i]) then
      if i + 1 < |toks| then
        CollectFrom(toks, i + 2, dur, if toks[i + 1].Boolean? then acc.(keep := toks[i + 1].b) else acc)
      else acc
    else CollectFrom(toks, i + 1, dur, Step(acc, toks[i], dur))
  }

  function Collect(toks: seq<EvaluatedExpr>, dur: Parameter): Collected
  {
    CollectFrom(toks, 0, dur, Collected([], [], false))
  }

  /** The token loop. */
  method CollectEvents(toks: seq<EvaluatedExpr>, dur: Parameter) returns (c: Collected)
    ensures c == Collect(toks, dur)
  {
    var evVecs: seq<seq<SourceEvent>> := [];
    var durVec: seq<Parameter> := [];
    var keepRoot := false;
    var i := 0;
    while i < |toks|
      invariant i <= |toks|
      invariant CollectFrom(toks, i, dur, Collected(evVecs, durVec, keepRoot)) == Collect(toks, dur)
    {
      var t := toks[i];
      i := i + 1;
      match t {
        case BuiltIn(SoundEv(e)) =>
          evVecs := evVecs + [[SoundSource(e)]];
          durVec := durVec + [dur];
        case BuiltIn(ControlEv(e)) =>
          evVecs := evVecs + [[ControlSource(e)]];
          durVec := durVec + [dur];
        case Float(f) =>
          if |durVec| > 0 {
            durVec := durVec[..|durVec| - 1] + [WithValue(f)];
          } else {
            durVec := [WithValue(f)];
          }
        case Keyword(k) =>
          if k == "keep" && i < |toks| {
            var b := toks[i];
            i := i + 1;
            if b.Boolean? {
              keepRoot := b.b;
            }
          }
        case _ =>
      }
    }
    c := Collected(evVecs, durVec, keepRoot);
  }

  /** The duration of the closing transition: the last collected one, or the
      default. */
  function LastDuration(durs: seq<Parameter>, dur: Parameter): (d: Parameter)
    ensures |durs| > 0 ==> d == durs[|durs| - 1]
    ensures |durs| == 0 ==> d == dur
  {
    if |durs| > 0 then durs[|durs| - 1] else dur
  }

  /** The root automaton of a freshly built generator. */
  function FreshRoot(name: string, parts: CycleParts, d: real): (m: MarkovSequenceGenerator)
    ensures m.name == name && m.generator == Pfa(parts.rules)
    ensures m.eventMapping == parts.eventMapping && m.durationMapping == parts.durationMapping
    ensures m.modified && m.symbolAges == map[] && m.defaultDuration == AsUsize(d)
    ensures m.lastTransition.None? && m.lastSymbol.None?
  {
    MarkovSequenceGenerator(name, Pfa(parts.rules), parts.eventMapping, parts.durationMapping,
                            true, map[], AsUsize(d), None, None)
  }

  const NO_PARTS := CycleParts([], map[], map[])

  /** What the loop constructor builds from `tail` with default duration
      `d`: nothing when it panics, the empty automaton when the previous one
      is kept, the cycle over the events otherwise. */
  function LoopParts(tail: seq<EvaluatedExpr>, d: real): Result<CycleParts>
  {
    var c := Collect(LoopTokens(tail), WithValue(d));
    CollectBounds(LoopTokens(tail), WithValue(d));
    if c.keep then Ok(NO_PARTS)
    else if |c.evs| == 0 then Panic("attempt to subtract with overflow")
    else if |c.evs| > SYMBOL_COUNT then Panic("called `Option::unwrap()` on a `None` value")
    else Ok(CycleOf(c.evs, c.durs, LastDuration(c.durs, WithValue(d))))
  }

  /** The loop constructor. The default duration is read from the global
      parameters, 200 being inserted first when it is missing. */
  method ALoop(tail: seq<EvaluatedExpr>, globals: GlobalParameters) returns (r: Result<Generator>)
    requires globals.Valid()
    modifies globals
    ensures globals.Valid() && DefaultDuration in globals.entries
    ensures DefaultDuration in old(globals.entries) ==> globals.entries == old(globals.entries)
    ensures DefaultDuration !in old(globals.entries) ==>
      globals.entries == old(globals.entries)[DefaultDuration := Numeric(DEFAULT_DURATION)]
    ensures var d := globals.entries[DefaultDuration].n;
      && (r.Panic? <==> LoopParts(tail, d).Panic?)
      && (r.Ok? ==>
            && fresh(r.value)
            && r.value.idTags == {LoopName(tail)}
            && r.value.root == FreshRoot(LoopName(tail), LoopParts(tail, d).value, d)
            && r.value.processors == [] && r.value.timeMods == [] && r.value.genModCalls == []
            && r.value.keepRoot == Collect(LoopTokens(tail), WithValue(d)).keep
            && r.value.Valid())
  {
    var name := LoopName(tail);
    var d := globals.DefaultDurationOrInsert();
    var dur := WithValue(d);
    var c := CollectEvents(LoopTokens(tail), dur);
    CollectBounds(LoopTokens(tail), dur);
    var parts := NO_PARTS;
    if !c.keep {
      var built := BuildCycle(c.evs, c.durs, LastDuration(c.durs, dur));
      if built.Panic? {
        return Panic(built.reason);
      }
      parts := built.value;
    }
    var g := new Generator({name}, FreshRoot(name, parts, dur.staticVal), [], [], c.keep);
    r := Ok(g);
  }

  // ---------------------------------------------------------------------
  // Properties of the collection
  // ---------------------------------------------------------------------

  /** There is a duration for every event, and at most one more (a number
      before the first event). */
  lemma {:induction false} CollectFromBounds(toks: seq<EvaluatedExpr>, i: nat, dur: Parameter, acc: Collected)
    requires i <= |toks| && |acc.evs| <= |acc.durs| <= |acc.evs| + 1
    ensures var c := CollectFrom(toks, i, dur, acc); |c.evs| <= |c.durs| <= |c.evs| + 1
    decreases |toks| - i
  {
    if i < |toks| {
      if IsKeep(toks[i]) {
        if i + 1 < |toks| {
          CollectFromBounds(toks, i + 2, dur, if toks[i + 1].Boolean? then acc.(keep := toks[i + 1].b) else acc);
        }
      } else {
        CollectFromBounds(toks, i + 1, dur, Step(acc, toks[i], dur));
      }
    }
  }

  lemma CollectBounds(toks: seq<EvaluatedExpr>, dur: Parameter)
    ensures var c := Collect(toks, dur); |c.evs| <= |c.durs| <= |c.evs| + 1
  {
    CollectFromBounds(toks, 0, dur, Collected([], [], false));
  }

  /** Whether no item is `:keep`. */
  predicate NoKeep(toks: seq<EvaluatedExpr>)
  {
    forall k :: 0 <= k < |toks| ==> !IsKeep(toks[k])
  }

  lemma {:induction false} CollectFromSnoc(toks: seq<EvaluatedExpr>, t: EvaluatedExpr, i: nat, dur: Parameter, acc: Collected)
    requires i <= |toks| && NoKeep(toks)
    ensures CollectFrom(toks + [t], i, dur, acc) ==
      if IsKeep(t) then CollectFrom(toks, i, dur, acc) else Step(CollectFrom(toks, i, dur, acc), t, dur)
    decreases |toks| - i
  {
    if i < |toks| {
      assert (toks + [t])[i] == toks[i];
      CollectFromSnoc(toks, t, i + 1, dur, Step(acc, toks[i], dur));
    }
  }

  /** Without `:keep` in the items so far, one more item acts on what was
      collected so far: an event adds one single-event list and one default
      duration, a number replaces the duration of the latest event (or
      becomes the first duration when there is none). */
  lemma CollectSnoc(toks: seq<EvaluatedExpr>, t: EvaluatedExpr, dur: Parameter)
    requires NoKeep(toks)
    ensures var c, c' := Collect(toks, dur), Collect(toks + [t], dur);
      && (t.BuiltIn? && t.builtIn.SoundEv? ==>
            c'.evs == c.evs + [[SoundSource(t.builtIn.ev)]] && c'.durs == c.durs + [dur] && c'.keep == c.keep)
      && (t.BuiltIn? && t.builtIn.ControlEv? ==>
            c'.evs == c.evs + [[ControlSource(t.builtIn.ctl)]] && c'.durs == c.durs + [dur] && c'.keep == c.keep)
      && (t.Float? ==>
            c'.evs == c.evs && c'.keep == c.keep && |c'.durs| == (if |c.durs| > 0 then |c.durs| else 1)
            && c'.durs[..|c'.durs| - 1] == c.durs[..|c'.durs| - 1]
            && c'.durs[|c'.durs| - 1] == WithValue(t.f))
      && (t.Symbol? || t.Str? || t.Boolean? || t.FunctionName? ==> c' == c)
  {
    CollectFromSnoc(toks, t, 0, dur, Collected([], [], false));
  }

  /** Without numbers and `:keep`, every event gets the default duration. */
  lemma {:induction false} DefaultDurationsFrom(toks: seq<EvaluatedExpr>, i: nat, dur: Parameter, acc: Collected)
    requires i <= |toks| && NoKeep(toks)
    requires forall k :: 0 <= k < |toks| ==> !toks[k].Float?
    requires |acc.durs| == |acc.evs| && forall k :: 0 <= k < |acc.durs| ==> acc.durs[k] == dur
    ensures var c := CollectFrom(toks, i, dur, acc);
      |c.durs| == |c.evs| && forall k :: 0 <= k < |c.durs| ==> c.durs[k] == dur
    decreases |toks| - i
  {
    if i < |toks| {
      DefaultDurationsFrom(toks, i + 1, dur, Step(acc, toks[i], dur));
    }
  }

  lemma DefaultDurations(toks: seq<EvaluatedExpr>, dur: Parameter)
    requires NoKeep(toks)
    requires forall k :: 0 <= k < |toks| ==> !toks[k].Float?
    ensures var c := Collect(toks, dur);
      |c.durs| == |c.evs| && forall k :: 0 <= k < |c.durs| ==> c.durs[k] == dur
  {
    DefaultDurationsFrom(toks, 0, dur, Collected([], [], false));
  }

  /** With `:keep true` as the last items, the previous automaton is kept
      and nothing is built, so nothing panics either. */
  lemma KeepBuildsNothing(tail: seq<EvaluatedExpr>, d: real)
    requires |tail| >= 4 && tail[|tail| - 2] == KEEP && tail[|tail| - 1] == Boolean(true)
    requires NoKeep(tail[2..|tail| - 2])
    ensures LoopParts(tail, d) == Ok(NO_PARTS)
  {
    var toks := LoopTokens(tail);
    var pre := tail[2..|tail| - 2];
    assert toks == pre + [KEEP, Boolean(true)];
    KeepLast(pre, 0, WithValue(d), Collected([], [], false));
  }

  lemma {:induction false} KeepLast(pre: seq<EvaluatedExpr>, i: nat, dur: Parameter, acc: Collected)
    requires i <= |pre| && NoKeep(pre)
    ensures CollectFrom(pre + [KEEP, Boolean(true)], i, dur, acc).keep
    decreases |pre| - i
  {
    var toks := pre + [KEEP, Boolean(true)];
    if i < |pre| {
      assert toks[i] == pre[i];
      KeepLast(pre, i + 1, dur, Step(acc, pre[i], dur));
    } else {
      assert toks[i] == KEEP && toks[i + 1] == Boolean(true);
      assert CollectFrom(toks, i + 2, dur, acc.(keep := true)) == acc.(keep := true);
    }
  }
}
