/** The `sx` built-in: a sync context from a name, an activity flag and a
    keyword-driven list of generators, part proxies and tags. */
module SyncContextEval {
  import opened Wrappers
  import opened Expr
  import opened Generator

  const UNWRAP_NONE := "called `Option::unwrap()` on a `None` value"

  /** What the loop has gathered so far, with its two collecting flags. */
  datatype SyncAcc = SyncAcc(
    gens: seq<Generator>,
    proxies: seq<PartProxy>,
    syncTo: Option<string>,
    shift: int,
    collectBlock: bool,
    collectSolo: bool,
    blockTags: set<string>,
    soloTags: set<string>)

  const START := SyncAcc([], [], None, 0, false, false, {}, {})

  /** The generators an item holds. */
  function GensOf(t: EvaluatedExpr): seq<Generator>
  {
    if t.BuiltIn? && t.builtIn.Gen? then [t.builtIn.g]
    else if t.BuiltIn? && t.builtIn.GenList? then t.builtIn.gens
    else []
  }

  /** Every generator held by an item of `tail`. */
  function AllGens(tail: seq<EvaluatedExpr>): set<Generator>
  {
    set i, g | 0 <= i < |tail| && g in GensOf(tail[i]) :: g
  }

  /** The context name: the symbol after the function name, or "". */
  function NameOf(tail: seq<EvaluatedExpr>): string
  {
    if |tail| > 1 && tail[1].Symbol? then tail[1].sym else ""
  }

  /** Whether a `#t` follows the name slot. */
  predicate ActiveOf(tail: seq<EvaluatedExpr>)
  {
    |tail| > 2 && tail[2].Boolean? && tail[2].b
  }

  /** Clears both collecting flags. */
  function Plain(a: SyncAcc): SyncAcc
  {
    a.(collectBlock := false, collectSolo := false)
  }

  /** One item of the loop at `i`: the new gathering and where the next
      item is. `:sync` and `:shift` take the following item and panic when
      there is none. */
  function SyncStep(toks: seq<EvaluatedExpr>, i: nat, a: SyncAcc): (r: Result<(SyncAcc, nat)>)
    requires i < |toks|
    ensures r.Ok? ==> i < r.value.1 <= |toks|
    ensures r.Panic? <==> i == |toks| - 1 && toks[i].Keyword? && toks[i].kw in {"sync", "shift"}
  {
    match toks[i]
    case Keyword(k) =>
      if k == "sync" || k == "shift" then
        if i + 1 == |toks| then Panic(UNWRAP_NONE)
        else if k == "sync" then
          Ok((Plain(a).(syncTo := if toks[i + 1].Symbol? then Some(toks[i + 1].sym) else a.syncTo), i + 2))
        else
          Ok((Plain(a).(shift := if toks[i + 1].Float? then AsI32(toks[i + 1].f) else a.shift), i + 2))
      else if k == "solo" then Ok((a.(collectBlock := false, collectSolo := true), i + 1))
      else if k == "block" then Ok((a.(collectSolo := false, collectBlock := true), i + 1))
      else Ok((a, i + 1))
    case Symbol(s) =>
      if a.collectSolo then Ok((a.(soloTags := a.soloTags + {s}), i + 1))
      else if a.collectBlock then Ok((a.(blockTags := a.blockTags + {s}), i + 1))
      else Ok((a.(proxies := a.proxies + [PartProxy(s, [])]), i + 1))
    case BuiltIn(Proxy(p)) => Ok((Plain(a).(proxies := a.proxies + [p]), i + 1))
    case BuiltIn(ProxyList(l)) => Ok((Plain(a).(proxies := a.proxies + l), i + 1))
    case BuiltIn(Gen(g)) => Ok((Plain(a).(gens := a.gens + [g]), i + 1))
    case BuiltIn(GenList(l)) => Ok((Plain(a).(gens := a.gens + l), i + 1))
    case _ => Ok((a, i + 1))
  }

  /** The loop from item `i` on. */
  function SyncFrom(toks: seq<EvaluatedExpr>, i: nat, a: SyncAcc): Result<SyncAcc>
    decreases |toks| - i
  {
    if i >= |toks| then Ok(a)
    else
      match SyncStep(toks, i, a)
      case Panic(m) => Panic(m)
      case Ok((a', j)) => SyncFrom(toks, j, a')
  }

  /** The sync context `tail` evaluates to. */
  function SyncContextOf(tail: seq<EvaluatedExpr>): (r: Result<SyncContext>)
    ensures r.Ok? ==> r.value.name == NameOf(tail) && r.value.active == ActiveOf(tail)
    ensures !ActiveOf(tail) ==> r == Ok(SyncContext(NameOf(tail), [], [], None, false, 0, {}, {}))
  {
    if !ActiveOf(tail) then Ok(SyncContext(NameOf(tail), [], [], None, false, 0, {}, {}))
    else
      match SyncFrom(tail, 3, START)
      case Panic(m) => Panic(m)
      case Ok(a) => Ok(SyncContext(NameOf(tail), a.gens, a.proxies, a.syncTo, true, a.shift, a.blockTags, a.soloTags))
  }

  /** Adds `name` to the id tags of each of `gens`. */
  method TagAll(gens: seq<Generator>, name: string, ghost scope: set<Generator>)
    requires forall g :: g in gens ==> g in scope
    modifies scope`idTags
    ensures forall g :: g in scope ==> g.idTags == old(g.idTags) + (if g in gens then {name} else {})
  {
    var j := 0;
    while j < |gens|
      invariant 0 <= j <= |gens|
      invariant forall g :: g in scope ==> g.idTags == old(g.idTags) + (if g in gens[..j] then {name} else {})
    {
      gens[j].idTags := gens[j].idTags + {name};
      assert gens[..j + 1] == gens[..j] + [gens[j]];
      j := j + 1;
    }
    assert gens[..j] == gens;
  }

  lemma InAllGens(tail: seq<EvaluatedExpr>, k: nat)
    requires k < |tail|
    ensures forall g :: g in GensOf(tail[k]) ==> g in AllGens(tail)
  {
  }

  /** One item of the loop, tagging the generators it collects. */
  method SyncItem(tail: seq<EvaluatedExpr>, i: nat, a: SyncAcc, name: string) returns (r: Result<(SyncAcc, nat)>)
    requires i < |tail|
    modifies AllGens(tail)`idTags
    ensures r == SyncStep(tail, i, a)
    ensures r.Ok? ==> a.gens <= r.value.0.gens
    ensures r.Ok? ==> forall g :: g in AllGens(tail) ==>
      g.idTags == old(g.idTags) + (if g in r.value.0.gens[|a.gens|..] then {name} else {})
  {
    var acc := a;
    var j := i + 1;
    match tail[i] {
    case Keyword(k) =>
      if k == "sync" || k == "shift" {
        acc := acc.(collectSolo := false, collectBlock := false);
        if j == |tail| {
          return Panic(UNWRAP_NONE);
        }
        var next := tail[j];
        j := j + 1;
        if k == "sync" && next.Symbol? {
          acc := acc.(syncTo := Some(next.sym));
        } else if k == "shift" && next.Float? {
          acc := acc.(shift := AsI32(next.f));
        }
      } else if k == "solo" {
        acc := acc.(collectBlock := false, collectSolo := true);
      } else if k == "block" {
        acc := acc.(collectSolo := false, collectBlock := true);
      }
    case Symbol(s) =>
      if acc.collectSolo {
        acc := acc.(soloTags := acc.soloTags + {s});
      } else if acc.collectBlock {
        acc := acc.(blockTags := acc.blockTags + {s});
      } else {
        acc := acc.(proxies := acc.proxies + [PartProxy(s, [])]);
      }
    case BuiltIn(Proxy(p)) =>
      acc := acc.(collectSolo := false, collectBlock := false, proxies := acc.proxies + [p]);
    case BuiltIn(ProxyList(l)) =>
      acc := acc.(collectSolo := false, collectBlock := false, proxies := acc.proxies + l);
    case BuiltIn(Gen(g)) =>
      InAllGens(tail, i);
      TagAll([g], name, AllGens(tail));
      acc := acc.(collectSolo := false, collectBlock := false, gens := acc.gens + [g]);
    case BuiltIn(GenList(l)) =>
      InAllGens(tail, i);
      TagAll(l, name, AllGens(tail));
      acc := acc.(collectSolo := false, collectBlock := false, gens := acc.gens + l);
    case _ =>
    }
    r := Ok((acc, j));
  }

  /** The built-in. Every generator it collects gets the context name among
      its id tags; no other generator is touched. */
  method EvalSyncContext(tail: seq<EvaluatedExpr>) returns (r: Result<SyncContext>)
    modifies AllGens(tail)`idTags
    ensures r == SyncContextOf(tail)
    ensures r.Ok? ==> forall g :: g in AllGens(tail) ==>
      g.idTags == old(g.idTags) + (if g in r.value.generators then {NameOf(tail)} else {})
  {
    var name := NameOf(tail);
    if !ActiveOf(tail) {
      return Ok(SyncContext(name, [], [], None, false, 0, {}, {}));
    }
    var a := START;
    var i := 3;
    while i < |tail|
      invariant 3 <= i <= |tail|
      invariant SyncFrom(tail, 3, START) == SyncFrom(tail, i, a)
      invariant forall g :: g in AllGens(tail) ==> g.idTags == old(g.idTags) + (if g in a.gens then {name} else {})
      decreases |tail| - i
    {
      var step := SyncItem(tail, i, a, name);
      if step.Panic? {
        return Panic(step.reason);
      }
      assert forall g :: g in step.value.0.gens <==> g in a.gens || g in step.value.0.gens[|a.gens|..] by {
        assert step.value.0.gens == a.gens + step.value.0.gens[|a.gens|..];
      }
      a, i := step.value.0, step.value.1;
    }
    r := Ok(SyncContext(name, a.gens, a.proxies, a.syncTo, true, a.shift, a.blockTags, a.soloTags));
  }

  // ---------------------------------------------------------------------
  // Properties
  // ---------------------------------------------------------------------

  /** The symbols of `toks[i..j]`. */
  function SymsIn(toks: seq<EvaluatedExpr>, i: nat, j: nat): set<string>
    requires i <= j <= |toks|
  {
    set k | i <= k < j && toks[k].Symbol? :: toks[k].sym
  }

  predicate AllSymbols(toks: seq<EvaluatedExpr>, i: nat, j: nat)
    requires i <= j <= |toks|
  {
    forall k :: i <= k < j ==> toks[k].Symbol?
  }

  /** While collecting solo tags, a run of symbols all go to the solo
      tags and the flags stay as they are. */
  lemma {:induction false} SoloRun(toks: seq<EvaluatedExpr>, i: nat, j: nat, a: SyncAcc)
    requires i <= j <= |toks| && AllSymbols(toks, i, j) && a.collectSolo
    ensures SyncFrom(toks, i, a) == SyncFrom(toks, j, a.(soloTags := a.soloTags + SymsIn(toks, i, j)))
    decreases j - i
  {
    if i < j {
      var a' := a.(soloTags := a.soloTags + {toks[i].sym});
      assert SyncFrom(toks, i, a) == SyncFrom(toks, i + 1, a');
      SoloRun(toks, i + 1, j, a');
      assert SymsIn(toks, i, j) == {toks[i].sym} + SymsIn(toks, i + 1, j);
      assert a'.soloTags + SymsIn(toks, i + 1, j) == a.soloTags + SymsIn(toks, i, j);
    } else {
      assert SymsIn(toks, i, j) == {};
      assert a.(soloTags := a.soloTags + SymsIn(toks, i, j)) == a;
    }
  }

  /** While collecting block tags (and not solo tags), a run of symbols all
      go to the block tags. */
  lemma {:induction false} BlockRun(toks: seq<EvaluatedExpr>, i: nat, j: nat, a: SyncAcc)
    requires i <= j <= |toks| && AllSymbols(toks, i, j) && a.collectBlock && !a.collectSolo
    ensures SyncFrom(toks, i, a) == SyncFrom(toks, j, a.(blockTags := a.blockTags + SymsIn(toks, i, j)))
    decreases j - i
  {
    if i < j {
      var a' := a.(blockTags := a.blockTags + {toks[i].sym});
      assert SyncFrom(toks, i, a) == SyncFrom(toks, i + 1, a');
      BlockRun(toks, i + 1, j, a');
      assert SymsIn(toks, i, j) == {toks[i].sym} + SymsIn(toks, i + 1, j);
      assert a'.blockTags + SymsIn(toks, i + 1, j) == a.blockTags + SymsIn(toks, i, j);
    } else {
      assert SymsIn(toks, i, j) == {};
      assert a.(blockTags := a.blockTags + SymsIn(toks, i, j)) == a;
    }
  }

  /** `:solo` followed by symbols: the symbols become solo tags, whatever
      was being collected before. */
  lemma SoloKeyword(toks: seq<EvaluatedExpr>, i: nat, j: nat, a: SyncAcc)
    requires i < j <= |toks| && toks[i] == Keyword("solo") && AllSymbols(toks, i + 1, j)
    ensures SyncFrom(toks, i, a) ==
      SyncFrom(toks, j, a.(collectBlock := false, collectSolo := true, soloTags := a.soloTags + SymsIn(toks, i + 1, j)))
  {
    SoloRun(toks, i + 1, j, a.(collectBlock := false, collectSolo := true));
  }

  /** `:block` followed by symbols: the symbols become block tags. */
  lemma BlockKeyword(toks: seq<EvaluatedExpr>, i: nat, j: nat, a: SyncAcc)
    requires i < j <= |toks| && toks[i] == Keyword("block") && AllSymbols(toks, i + 1, j)
    ensures SyncFrom(toks, i, a) ==
      SyncFrom(toks, j, a.(collectSolo := false, collectBlock := true, blockTags := a.blockTags + SymsIn(toks, i + 1, j)))
  {
    BlockRun(toks, i + 1, j, a.(collectSolo := false, collectBlock := true));
  }

  /** The loop panics only when the last item is a `:sync` or `:shift`
      with nothing after it. */
  lemma {:induction false} PanicOnlyAtEnd(toks: seq<EvaluatedExpr>, i: nat, a: SyncAcc)
    requires SyncFrom(toks, i, a).Panic?
    ensures |toks| > 0 && toks[|toks| - 1].Keyword? && toks[|toks| - 1].kw in {"sync", "shift"}
    decreases |toks| - i
  {
    var st := SyncStep(toks, i, a);
    if st.Ok? {
      PanicOnlyAtEnd(toks, st.value.1, st.value.0);
    }
  }

  /** `(sx 'ga #t <generator>)` is an active context named "ga" holding
      that generator and nothing else. */
  lemma OneGenerator(g: Generator)
    ensures SyncContextOf([FunctionName("sx"), Symbol("ga"), Boolean(true), BuiltIn(Gen(g))]) ==
      Ok(SyncContext("ga", [g], [], None, true, 0, {}, {}))
  {
    var tail := [FunctionName("sx"), Symbol("ga"), Boolean(true), BuiltIn(Gen(g))];
    assert START.gens + [g] == [g];
    assert SyncStep(tail, 3, START) == Ok((Plain(START).(gens := [g]), 4));
    assert SyncFrom(tail, 3, START) == Ok(Plain(START).(gens := [g]));
    assert ActiveOf(tail) && NameOf(tail) == "ga";
  }
}
