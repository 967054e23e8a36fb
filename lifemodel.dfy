/** The `lifemodel` processor's configuration parser: three positional
    numbers, then keywords, two of which start collecting runs of values. */
module Lifemodel {
  import opened Wrappers
  import opened Parameter
  import opened Expr

  /** The settings the parser writes into the processor. */
  datatype LifemodelConfig = LifemodelConfig(
    growthCycle: nat,
    nodeLifespan: nat,
    variance: real,
    durations: seq<Parameter>,
    keepParam: set<Label>,
    apoptosis: bool,
    growthMethod: string,
    autophagia: bool,
    nodeLifespanVariance: real,
    apoptosisRegain: real,
    autophagiaRegain: real,
    localResources: real,
    growthCost: real,
    globalContrib: bool,
    rndChance: real,
    solidifyChance: real,
    solidifyLen: nat)

  /** The keywords taking a yes/no argument. */
  predicate TakesBool(k: string)
  {
    k == "apoptosis" || k == "autophagia" || k == "global-contrib"
  }

  /** The keywords taking a number. */
  predicate TakesFloat(k: string)
  {
    k == "lifespan-variance" || k == "apoptosis-regain" || k == "autophagia-regain" ||
    k == "local-resources" || k == "cost" || k == "rnd" || k == "solidify" || k == "solidify-len"
  }

  /** The keywords that take the next item. */
  predicate TakesArgument(k: string)
  {
    TakesBool(k) || TakesFloat(k) || k == "method"
  }

  /** A yes/no keyword applied to its argument. */
  function ValuedBool(k: string, b: bool, c: LifemodelConfig): (r: LifemodelConfig)
    ensures r.durations == c.durations && r.keepParam == c.keepParam
    ensures !TakesBool(k) ==> r == c
  {
    if k == "apoptosis" then c.(apoptosis := b)
    else if k == "autophagia" then c.(autophagia := b)
    else if k == "global-contrib" then c.(globalContrib := b)
    else c
  }

  /** A number keyword applied to its argument. */
  function ValuedFloat(k: string, f: real, c: LifemodelConfig): (r: LifemodelConfig)
    ensures r.durations == c.durations && r.keepParam == c.keepParam
    ensures !TakesFloat(k) ==> r == c
  {
    if k == "lifespan-variance" then c.(nodeLifespanVariance := f)
    else if k == "apoptosis-regain" then c.(apoptosisRegain := f)
    else if k == "autophagia-regain" then c.(autophagiaRegain := f)
    else if k == "local-resources" then c.(localResources := f)
    else if k == "cost" then c.(growthCost := f)
    else if k == "rnd" then c.(rndChance := f)
    else if k == "solidify" then c.(solidifyChance := f)
    else if k == "solidify-len" then c.(solidifyLen := AsUsize(f))
    else c
  }

  /** A keyword that takes an argument, applied to the item after it (if
      any): the setting changes only when the item has the right type. */
  function Valued(k: string, next: Option<EvaluatedExpr>, c: LifemodelConfig): LifemodelConfig
  {
    if next.None? then c
    else
      match next.value
      case Boolean(b) => ValuedBool(k, b, c)
      case Symbol(s) => if k == "method" then c.(growthMethod := s) else c
      case Float(f) => ValuedFloat(k, f, c)
      case _ => c
  }

  /** The collecting part of one item: a number or parameter extends the
      durations while they are collected, a symbol the kept labels while
      they are collected; anything else ends that collection. */
  function Collecting(t: EvaluatedExpr, durs: bool, keeps: bool, c: LifemodelConfig, mapParam: string -> Label): (r: (bool, bool, LifemodelConfig))
    ensures c.durations <= r.2.durations && c.keepParam <= r.2.keepParam
  {
    var (durs', c') :=
      if !durs then (false, c)
      else if t.Float? then (true, c.(durations := c.durations + [WithValue(t.f)]))
      else if t.BuiltIn? && t.builtIn.Param? then (true, c.(durations := c.durations + [t.builtIn.p]))
      else (false, c);
    if !keeps then (durs', false, c')
    else if t.Symbol? then (durs', true, c'.(keepParam := c'.keepParam + {mapParam(t.sym)}))
    else (durs', false, c')
  }

  /** One item of the keyword loop at `i`: where the next item is, the new
      flags and the new settings. A keyword that takes an argument takes
      the item after it, whatever it is. */
  function LifemodelStep(toks: seq<EvaluatedExpr>, i: nat, durs: bool, keeps: bool, c: LifemodelConfig, mapParam: string -> Label)
    : (r: (nat, bool, bool, LifemodelConfig))
    requires i < |toks|
    ensures i < r.0 <= |toks|
    ensures c.durations <= r.3.durations && c.keepParam <= r.3.keepParam
  {
    var (durs', keeps', c') := Collecting(toks[i], durs, keeps, c, mapParam);
    if !toks[i].Keyword? then (i + 1, durs', keeps', c')
    else
      var k := toks[i].kw;
      if k == "durs" then (i + 1, true, keeps', c')
      else if k == "keep" then (i + 1, durs', true, c')
      else if TakesArgument(k) then
        if i + 1 < |toks| then (i + 2, durs', keeps', Valued(k, Some(toks[i + 1]), c'))
        else (i + 1, durs', keeps', c')
      else (i + 1, durs', keeps', c')
  }

  /** The keyword loop from item `i` on, with the two collecting flags. */
  function LifemodelFrom(toks: seq<EvaluatedExpr>, i: nat, durs: bool, keeps: bool, c: LifemodelConfig, mapParam: string -> Label): LifemodelConfig
    decreases |toks| - i
  {
    if i >= |toks| then c
    else
      var (j, durs', keeps', c') := LifemodelStep(toks, i, durs, keeps, c, mapParam);
      LifemodelFrom(toks, j, durs', keeps', c', mapParam)
  }

  /** The positional items after the function name, each used only when
      it is a number. */
  function Positional(tail: seq<EvaluatedExpr>, c: LifemodelConfig): (r: LifemodelConfig)
    ensures r.durations == c.durations && r.keepParam == c.keepParam
  {
    var c1 := if |tail| > 1 && tail[1].Float? then c.(growthCycle := AsUsize(tail[1].f)) else c;
    var c2 := if |tail| > 2 && tail[2].Float? then c1.(nodeLifespan := AsUsize(tail[2].f)) else c1;
    if |tail| > 3 && tail[3].Float? then c2.(variance := tail[3].f) else c2
  }

  /** The configuration `tail` gives a processor that starts as `init`. */
  function LifemodelOf(tail: seq<EvaluatedExpr>, init: LifemodelConfig, mapParam: string -> Label): LifemodelConfig
  {
    LifemodelFrom(tail, 4, false, false, Positional(tail, init), mapParam)
  }

  /** The processor; its other state and its behaviour are not part of this
      model. */
  class LifemodelProcessor {
    var growthCycle: nat
    var nodeLifespan: nat
    var variance: real
    var durations: seq<Parameter>
    var keepParam: set<Label>
    var apoptosis: bool
    var growthMethod: string
    var autophagia: bool
    var nodeLifespanVariance: real
    var apoptosisRegain: real
    var autophagiaRegain: real
    var localResources: real
    var growthCost: real
    var globalContrib: bool
    var rndChance: real
    var solidifyChance: real
    var solidifyLen: nat

    function Config(): LifemodelConfig
      reads this
    {
      LifemodelConfig(growthCycle, nodeLifespan, variance, durations, keepParam, apoptosis, growthMethod,
                      autophagia, nodeLifespanVariance, apoptosisRegain, autophagiaRegain, localResources,
                      growthCost, globalContrib, rndChance, solidifyChance, solidifyLen)
    }

    /** A processor with the given settings (the defaults of the processor's
        own constructor are not part of this model). */
    constructor (c: LifemodelConfig)
      ensures Config() == c
    {
      growthCycle, nodeLifespan, variance := c.growthCycle, c.nodeLifespan, c.variance;
      durations, keepParam := c.durations, c.keepParam;
      apoptosis, growthMethod, autophagia := c.apoptosis, c.growthMethod, c.autophagia;
      nodeLifespanVariance, apoptosisRegain, autophagiaRegain := c.nodeLifespanVariance, c.apoptosisRegain, c.autophagiaRegain;
      localResources, growthCost, globalContrib := c.localResources, c.growthCost, c.globalContrib;
      rndChance, solidifyChance, solidifyLen := c.rndChance, c.solidifyChance, c.solidifyLen;
    }

    /** Sets the setting a yes/no keyword names. */
    method SetBool(k: string, b: bool)
      modifies this`apoptosis, this`autophagia, this`globalContrib
      ensures Config() == ValuedBool(k, b, old(Config()))
    {
      if k == "apoptosis" { apoptosis := b; }
      else if k == "autophagia" { autophagia := b; }
      else if k == "global-contrib" { globalContrib := b; }
    }

    /** Sets the setting a number keyword names. */
    method SetFloat(k: string, f: real)
      modifies this`nodeLifespanVariance, this`apoptosisRegain, this`autophagiaRegain, this`localResources,
               this`growthCost, this`rndChance, this`solidifyChance, this`solidifyLen
      ensures Config() == ValuedFloat(k, f, old(Config()))
    {
      if k == "lifespan-variance" { nodeLifespanVariance := f; }
      else if k == "apoptosis-regain" { apoptosisRegain := f; }
      else if k == "autophagia-regain" { autophagiaRegain := f; }
      else if k == "local-resources" { localResources := f; }
      else if k == "cost" { growthCost := f; }
      else if k == "rnd" { rndChance := f; }
      else if k == "solidify" { solidifyChance := f; }
      else if k == "solidify-len" { solidifyLen := AsUsize(f); }
    }

    /** Sets the setting a valued keyword names, when `next` has its type. */
    method SetValued(k: string, next: Option<EvaluatedExpr>)
      modifies this
      ensures Config() == Valued(k, next, old(Config()))
    {
      if next.None? {
        return;
      }
      match next.value {
        case Boolean(b) => SetBool(k, b);
        case Symbol(s) =>
          if k == "method" { growthMethod := s; }
        case Float(f) => SetFloat(k, f);
        case _ =>
      }
    }

    /** The positional items after the function name. */
    method SetPositional(tail: seq<EvaluatedExpr>)
      modifies this`growthCycle, this`nodeLifespan, this`variance
      ensures Config() == Positional(tail, old(Config()))
    {
      if |tail| > 1 && tail[1].Float? {
        growthCycle := AsUsize(tail[1].f);
      }
      if |tail| > 2 && tail[2].Float? {
        nodeLifespan := AsUsize(tail[2].f);
      }
      if |tail| > 3 && tail[3].Float? {
        variance := tail[3].f;
      }
    }

    /** The collecting part of one item. */
    method Collect(t: EvaluatedExpr, durs: bool, keeps: bool, mapParam: string -> Label) returns (durs': bool, keeps': bool)
      modifies this`durations, this`keepParam
      ensures (durs', keeps', Config()) == Collecting(t, durs, keeps, old(Config()), mapParam)
    {
      durs', keeps' := durs, keeps;
      if durs {
        if t.Float? {
          durations := durations + [WithValue(t.f)];
        } else if t.BuiltIn? && t.builtIn.Param? {
          durations := durations + [t.builtIn.p];
        } else {
          durs' := false;
        }
      }
      if keeps {
        if t.Symbol? {
          keepParam := keepParam + {mapParam(t.sym)};
        } else {
          keeps' := false;
        }
      }
    }
  }

  /** One item of the keyword loop. */
  method LifemodelItem(p: LifemodelProcessor, tail: seq<EvaluatedExpr>, i: nat, durs: bool, keeps: bool, mapParam: string -> Label)
    returns (j: nat, durs': bool, keeps': bool)
    requires i < |tail|
    modifies p
    ensures (j, durs', keeps', p.Config()) == LifemodelStep(tail, i, durs, keeps, old(p.Config()), mapParam)
  {
    var c := tail[i];
    j := i + 1;
    durs', keeps' := p.Collect(c, durs, keeps, mapParam);
    if c.Keyword? {
      var k := c.kw;
      if k == "durs" {
        durs' := true;
      } else if k == "keep" {
        keeps' := true;
      } else if TakesArgument(k) && j < |tail| {
        p.SetValued(k, Some(tail[j]));
        j := j + 1;
      }
    }
  }

  /** The parser: a fresh processor configured from `tail`. */
  method CollectLifemodel(tail: seq<EvaluatedExpr>, init: LifemodelConfig, mapParam: string -> Label) returns (p: LifemodelProcessor)
    ensures fresh(p)
    ensures p.Config() == LifemodelOf(tail, init, mapParam)
  {
    p := new LifemodelProcessor(init);
    p.SetPositional(tail);
    var durs, keeps := false, false;
    var i := 4;
    while i < |tail|
      invariant LifemodelFrom(tail, i, durs, keeps, p.Config(), mapParam) == LifemodelOf(tail, init, mapParam)
      decreases |tail| - i
    {
      i, durs, keeps := LifemodelItem(p, tail, i, durs, keeps, mapParam);
    }
  }

  // ---------------------------------------------------------------------
  // Properties
  // ---------------------------------------------------------------------

  /** The duration an item adds while durations are collected. */
  predicate IsDuration(t: EvaluatedExpr)
  {
    t.Float? || (t.BuiltIn? && t.builtIn.Param?)
  }

  function DurationOf(t: EvaluatedExpr): Parameter
    requires IsDuration(t)
  {
    if t.Float? then WithValue(t.f) else t.builtIn.p
  }

  /** The durations of the items `toks[i..j]`, in order. */
  function DurationsIn(toks: seq<EvaluatedExpr>, i: nat, j: nat): (ds: seq<Parameter>)
    requires i <= j <= |toks| && forall k :: i <= k < j ==> IsDuration(toks[k])
    ensures |ds| == j - i
    decreases j - i
  {
    if i == j then [] else [DurationOf(toks[i])] + DurationsIn(toks, i + 1, j)
  }

  /** After `:durs`, a run of numbers and parameters is appended to the
      durations in order, and collecting goes on. */
  lemma {:induction false} DurationsRun(toks: seq<EvaluatedExpr>, i: nat, j: nat, c: LifemodelConfig, mapParam: string -> Label)
    requires i <= j <= |toks| && forall k :: i <= k < j ==> IsDuration(toks[k])
    ensures LifemodelFrom(toks, i, true, false, c, mapParam) ==
      LifemodelFrom(toks, j, true, false, c.(durations := c.durations + DurationsIn(toks, i, j)), mapParam)
    decreases j - i
  {
    if i < j {
      var c' := c.(durations := c.durations + [DurationOf(toks[i])]);
      DurationStep(toks, i, c, mapParam);
      DurationsRun(toks, i + 1, j, c', mapParam);
      assert DurationsIn(toks, i, j) == [DurationOf(toks[i])] + DurationsIn(toks, i + 1, j);
      assert c'.durations + DurationsIn(toks, i + 1, j) == c.durations + DurationsIn(toks, i, j);
    } else {
      assert c.(durations := c.durations + []) == c;
    }
  }

  /** While durations are collected, a number or a parameter is appended. */
  lemma DurationStep(toks: seq<EvaluatedExpr>, i: nat, c: LifemodelConfig, mapParam: string -> Label)
    requires i < |toks| && IsDuration(toks[i])
    ensures LifemodelStep(toks, i, true, false, c, mapParam) == (i + 1, true, false, c.(durations := c.durations + [DurationOf(toks[i])]))
  {
  }

  /** The labels the symbols `toks[i..j]` map to. */
  function KeepsIn(toks: seq<EvaluatedExpr>, i: nat, j: nat, mapParam: string -> Label): set<Label>
    requires i <= j <= |toks|
  {
    set k | i <= k < j && toks[k].Symbol? :: mapParam(toks[k].sym)
  }

  /** After `:keep`, a run of symbols is added to the kept labels, and
      collecting goes on. */
  lemma {:induction false} KeepsRun(toks: seq<EvaluatedExpr>, i: nat, j: nat, c: LifemodelConfig, mapParam: string -> Label)
    requires i <= j <= |toks| && forall k :: i <= k < j ==> toks[k].Symbol?
    ensures LifemodelFrom(toks, i, false, true, c, mapParam) ==
      LifemodelFrom(toks, j, false, true, c.(keepParam := c.keepParam + KeepsIn(toks, i, j, mapParam)), mapParam)
    decreases j - i
  {
    if i < j {
      var c' := c.(keepParam := c.keepParam + {mapParam(toks[i].sym)});
      assert LifemodelStep(toks, i, false, true, c, mapParam) == (i + 1, false, true, c');
      KeepsRun(toks, i + 1, j, c', mapParam);
      assert KeepsIn(toks, i, j, mapParam) == {mapParam(toks[i].sym)} + KeepsIn(toks, i + 1, j, mapParam);
      assert c'.keepParam + KeepsIn(toks, i + 1, j, mapParam) == c.keepParam + KeepsIn(toks, i, j, mapParam);
    } else {
      assert KeepsIn(toks, i, j, mapParam) == {};
      assert c.(keepParam := c.keepParam + {}) == c;
    }
  }

  /** Whether `next` is there and has the type keyword `k` takes. */
  predicate Applies(k: string, next: Option<EvaluatedExpr>)
  {
    next.Some? &&
    ((next.value.Boolean? && TakesBool(k)) || (next.value.Float? && TakesFloat(k)) ||
     (next.value.Symbol? && k == "method"))
  }

  /** A valued keyword changes nothing unless its argument is there and has
      the keyword's type; it never touches the collected durations and
      labels. */
  lemma ValuedTypeChecked(k: string, next: Option<EvaluatedExpr>, c: LifemodelConfig)
    ensures Valued(k, next, c).durations == c.durations && Valued(k, next, c).keepParam == c.keepParam
    ensures !Applies(k, next) ==> Valued(k, next, c) == c
  {
  }

  /** The loop only ever appends durations and adds kept labels. */
  lemma {:induction false} CollectionsGrow(toks: seq<EvaluatedExpr>, i: nat, durs: bool, keeps: bool, c: LifemodelConfig, mapParam: string -> Label)
    ensures c.durations <= LifemodelFrom(toks, i, durs, keeps, c, mapParam).durations
    ensures c.keepParam <= LifemodelFrom(toks, i, durs, keeps, c, mapParam).keepParam
    decreases |toks| - i
  {
    if i < |toks| {
      var (j, d', k', c') := LifemodelStep(toks, i, durs, keeps, c, mapParam);
      CollectionsGrow(toks, j, d', k', c', mapParam);
    }
  }
}
