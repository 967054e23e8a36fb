/** The already-evaluated expressions the evaluator hands to a built-in
    function, and the values built-ins produce. */
module Expr {
  import opened Wrappers
  import opened Parameter
  import opened Events
  import opened GeneratorProcessor
  import opened Generator

  /** A named part, with the processors to put in front of it. */
  datatype PartProxy = PartProxy(part: string, mods: seq<Processor>)

  /** A sync context: generators and parts to run together, what they
      synchronise to, and the tags to solo or to block. */
  datatype SyncContext = SyncContext(
    name: string,
    generators: seq<Generator>,
    partProxies: seq<PartProxy>,
    syncTo: Option<string>,
    active: bool,
    shift: int,
    blockTags: set<string>,
    soloTags: set<string>)

  /** Built-in values. */
  datatype BuiltIn =
    | SoundEv(ev: Event)
    | ControlEv(ctl: ControlEvent)
    | Param(p: Parameter)
    | Modulator(m: ParameterValue)
    | VectorVal(v: ParameterValue)
    | MatrixVal(mat: ParameterValue)
    | Proxy(proxy: PartProxy)
    | ProxyList(proxies: seq<PartProxy>)
    | Gen(g: Generator)
    | GenList(gens: seq<Generator>)
    | SyncCtx(ctx: SyncContext)

  datatype EvaluatedExpr =
    | Float(f: real)
    | Symbol(sym: string)
    | Keyword(kw: string)
    | Str(s: string)
    | Boolean(b: bool)
    | FunctionName(fname: string)
    | BuiltIn(builtIn: BuiltIn)
}
