/** The middleware chain of engine/middlewares: every step goes through the
    registered middlewares in order, each deciding whether and how to call
    the next. The chain is the on-error policy, the `if` guard, the `loop`
    expansion, which sends nested steps through the whole chain again, and
    the terminal `exec` with its `set-var` accumulation. Each middleware has
    a specification function from the world before to its outcome and the
    world after, and a method that is proved to agree with it. */
module Middlewares {
  import opened Base
  import opened Text
  import opened Foreign
  import opened Variables
  import Template
  import Query
  import Utils
  import opened Driver
  import opened Steps
  import opened StepExec

  /** A `middleware` function. */
  datatype Middleware =
    | Handler    // errorHandler: the on-error policy
    | Discarder  // errorDiscard: the older on-error policy
    | Guard      // conditionCheck: the `if` key
    | Loop       // forLoop: the `loop` key
    | Executor   // exec: runs the step and stores its result

  /** The chain the current generation registers, in file-name order of the
      `init` functions. */
  const Standard: seq<Middleware> := [Handler, Guard, Loop, Executor]

  /** The same chain with the older on-error policy. */
  const Older: seq<Middleware> := [Discarder, Guard, Loop, Executor]

  const NoMiddlewares := "no middlewares registered"
  const IndexOutOfRange := "middleware index out of range, internal bug"
  const NotLast := "unexpected middleware after execute middleware: execution should be the final step"
  /** What `panic(nil)` raises. */
  const PanicNil := "panic called with nil argument"
  const MakesliceLen := "runtime error: makeslice: len out of range"
  const NonInteger := "result is a non-integer number"

  /** The package's `middlewares` slice. */
  class Chain {
    var middlewares: seq<Middleware>

    constructor()
      ensures middlewares == []
    {
      middlewares := [];
    }

    /** `registerMiddleware`: appended after those already there. */
    method Register(m: Middleware)
      modifies this
      ensures middlewares == old(middlewares) + [m]
    {
      middlewares := middlewares + [m];
    }
  }

  /** The `init` functions of the current generation, run in order. */
  method RegisterStandard() returns (c: Chain)
    ensures fresh(c) && c.middlewares == Standard
  {
    c := new Chain();
    c.Register(Handler);
    c.Register(Guard);
    c.Register(Loop);
    c.Register(Executor);
  }

  // ---------------------------------------------------------------------
  // Nesting depth: the measure that makes loops terminate.

  /** How deeply `steps` lists nest inside a value. */
  function Depth(v: Value): nat
  {
    match v
    case VMap(entries) =>
      if "steps" in entries && entries["steps"].VList? then 1 + MaxDepth(entries["steps"].items) else 0
    case _ => 0
  }

  function MaxDepth(items: seq<Value>): nat
  {
    if items == [] then 0
    else
      var a, b := Depth(items[0]), MaxDepth(items[1..]);
      if a > b then a else b
  }

  function LoopDepth(conf: Decl): nat
  {
    Depth(VMap(conf))
  }

  lemma {:induction false} MaxDepthBounds(items: seq<Value>, j: nat)
    requires j < |items|
    ensures Depth(items[j]) <= MaxDepth(items)
    decreases j
  {
    if j > 0 {
      MaxDepthBounds(items[1..], j - 1);
      assert items[1..][j - 1] == items[j];
    }
  }

  /** Every plan is less deeply nested than `depth`. */
  predicate Shallower(plans: seq<Plan>, depth: nat)
  {
    forall j :: 0 <= j < |plans| ==> LoopDepth(PlanConf(plans[j])) < depth
  }

  // ---------------------------------------------------------------------
  // The on-error policies.

  /** `errorHandler`'s answer to a failure of the rest of the chain. */
  function OnError(conf: Decl, e: Error): Outcome
  {
    var mode := StringAt(conf, "on-error");
    if mode == Some("ignore") || mode == Some("print") then Done
    else if mode == Some("panic") then Panic(ErrorText(e))
    else Err(e)
  }

  /** `errorDiscard`'s answer to whatever the rest of the chain returned:
      the policy applies to a success as well, and `panic(nil)` raises a
      run-time error of its own. */
  function Discarded(conf: Decl, r: Outcome): Outcome
    requires !r.Panic?
  {
    var mode := StringAt(conf, "on-error");
    if mode == Some("ignore") || mode == Some("print") then Done
    else if mode == Some("panic") then Panic(if r.Ok? then PanicNil else ErrorText(r.error))
    else r
  }

  // ---------------------------------------------------------------------
  // The loop.

  /** The `loop` value after expansion, as `evaluateLoop` reads it. */
  function Counted(n: nat): (items: seq<string>)
    ensures |items| == n && forall i :: 0 <= i < n ==> items[i] == IntToString(i)
  {
    seq(n, i requires 0 <= i => IntToString(i))
  }

  /** One element of the decoded JSON array. */
  function JsonItem(lib: Libraries): Json -> Result<string>
  {
    (j: Json) =>
      match j
      case JNumber(x) => Ok(FormatFloat(lib, x))
      case JString(s) => Ok(s)
      case _ => Err(Message("invalid type in JSON array"))
  }

  /** The items of an expanded `loop` value: a number that converts to an
      `int` exactly counts from 0, any other number is refused, and anything
      else must be a JSON array of numbers and strings. On a 64-bit machine
      `int(x)` is exact for integral `x` in [-2^63, 2^63); every other value,
      including infinities and NaN, fails the comparison with the float. */
  function LoopItems(lib: Libraries, text: string): Result<seq<string>>
  {
    match ParseFloat(lib, text)
    case Some(NonFinite) => Err(Message(NonInteger))
    case Some(Finite(x)) =>
      if x != x.Floor as real || x.Floor < MinInt64 || x.Floor > MaxInt64 then Err(Message(NonInteger))
      else if x.Floor < 0 then Panic(MakesliceLen)
      else Ok(Counted(x.Floor))
    case None =>
      match lib.decodeArray(text)
      case Ok(arr) => Utils.MapAll(arr, JsonItem(lib))
      case Err(e) => Err(Wrap("failed to parse JSON: ", e))
      case Panic(x) => Panic(x)
  }

  /** `evaluateLoop` against a store. */
  function LoopValues(lib: Libraries, cond: string, cells: map<string, Cell>): Result<seq<string>>
  {
    match Template.Expand(lib.engine, cond, LiveOf(cells))
    case Ok(text) => LoopItems(lib, text)
    case Err(e) => Err(e)
    case Panic(x) => Panic(x)
  }

  /** The index of the first element of `steps` that is not a map. */
  function FirstNonMap(items: seq<Value>, from: nat): (r: Option<nat>)
    ensures r.None? <==> forall l :: from <= l < |items| ==> items[l].VMap?
    ensures r.Some? ==> from <= r.value < |items| && !items[r.value].VMap? &&
                        forall l :: from <= l < r.value ==> items[l].VMap?
    decreases |items| - from
  {
    if from >= |items| then None
    else if !items[from].VMap? then Some(from)
    else FirstNonMap(items, from + 1)
  }

  function NotAMap(item: Value, i: nat): Error
  {
    Message("each step must be a map, got: " + TypeName(item) + " at index " + IntToString(i))
  }

  /** The nested declarations of a `steps` list, or the error naming the
      first element that is not a map. */
  function StepDecls(items: seq<Value>): (r: Result<seq<Decl>>)
    ensures r.Ok? <==> forall l :: 0 <= l < |items| ==> items[l].VMap?
    ensures r.Ok? ==> |r.value| == |items| && forall l :: 0 <= l < |items| ==> r.value[l] == items[l].entries
    ensures !r.Ok? ==> r == Err(NotAMap(items[FirstNonMap(items, 0).value], FirstNonMap(items, 0).value))
  {
    match FirstNonMap(items, 0)
    case Some(i) => Err(NotAMap(items[i], i))
    case None => Ok(seq(|items|, l requires 0 <= l < |items| => items[l].entries))
  }

  /** The checks `forLoop` makes before it runs anything: the condition,
      and the nested steps, built once. */
  function LoopSetup(lib: Libraries, conf: Decl): (r: Result<(string, seq<Plan>)>)
    requires "loop" in conf
    ensures r.Ok? ==> conf["loop"] == VStr(r.value.0)
  {
    if !conf["loop"].VStr? then Err(Message(""))
    else if "steps" !in conf then Err(Message("steps configuration must be provided"))
    else if !conf["steps"].VList? then Err(Message("steps configuration must be of type []map[string]any"))
    else
      match StepDecls(conf["steps"].items)
      case Err(e) => Err(e)
      case Panic(x) => Panic(x)
      case Ok(ds) =>
        match BuildPlans(lib, ds)
        case Ok(plans) => Ok((conf["loop"].s, plans))
        case Err(e) => Err(e)
        case Panic(x) => Panic(x)
  }

  /** Nested steps are less deeply nested than the loop step holding them. */
  lemma LoopPlansShallower(lib: Libraries, conf: Decl)
    requires "loop" in conf && LoopSetup(lib, conf).Ok?
    ensures Shallower(LoopSetup(lib, conf).value.1, LoopDepth(conf))
  {
    var items := conf["steps"].items;
    var ds := StepDecls(items).value;
    var plans := LoopSetup(lib, conf).value.1;
    assert BuildPlans(lib, ds) == Ok(plans);
    forall j | 0 <= j < |plans|
      ensures LoopDepth(PlanConf(plans[j])) < LoopDepth(conf)
    {
      assert Builder(lib)(ds[j]) == Ok(plans[j]);
      var k := Dispatch(ds[j]).value;
      ConfIsDeclaration(lib, k, ds[j]);
      MaxDepthBounds(items, j);
      assert ds[j] == items[j].entries && items[j] == VMap(ds[j]);
    }
  }

  // ---------------------------------------------------------------------
  // `set-var`.

  datatype Stored = Stored(outcome: Outcome, results: map<string, Value>)

  /** The `set-var` part of `exec`: the first write to a key stores the
      JSON encoding of the value in a one-element list, later writes append
      its `%v` rendering, and an error leaves the results as they were. */
  function SetVar(lib: Libraries, conf: Decl, v: Value, results: map<string, Value>): (s: Stored)
    ensures !s.outcome.Ok? ==> s.results == results
  {
    if "set-var" !in conf then Stored(Done, results)
    else
      match conf["set-var"]
      case VStr(key) =>
        if key in results then
          if results[key].VStrList? then Stored(Done, results[key := VStrList(results[key].strs + [Sprint(lib, v)])])
          else Stored(Err(Message("existing key '" + key + "' is not of type []string")), results)
        else
          (match Marshal(lib, v)
           case Ok(json) => Stored(Done, results[key := VStrList([json])])
           case Err(e) => Stored(Err(e), results)
           case Panic(x) => Stored(Panic(x), results))
      case other => Stored(Err(Message("expected set-var to be a string, got: " + TypeName(other))), results)
  }

  // ---------------------------------------------------------------------
  // The chain as a function of the world.

  /** What handing a step to the chain gives: the error, the world after,
      and the step after. */
  datatype Handled = Handled(outcome: Outcome, world: World, plan: Plan)

  /** The outcome of running every nested step for the remaining items. */
  datatype Looped = Looped(outcome: Outcome, world: World)


  /** `HandleStep`. */
  function Handle(lib: Libraries, pg: Page, chain: seq<Middleware>, p: Plan, w: World): (h: Handled)
    ensures PlanConf(h.plan) == PlanConf(p)
    decreases LoopDepth(PlanConf(p)), |chain| + 1, 0, 0
  {
    if |chain| == 0 then Handled(Err(Message(NoMiddlewares)), w, p)
    else At(lib, pg, chain, 0, p, w)
  }

  /** `middlewareExec(i, ...)`: middleware `i`, whose `next` is
      middleware `i + 1`, or nil for the last. */
  function At(lib: Libraries, pg: Page, chain: seq<Middleware>, i: nat, p: Plan, w: World): (h: Handled)
    ensures PlanConf(h.plan) == PlanConf(p)
    decreases LoopDepth(PlanConf(p)), |chain| - i, 2, 0
  {
    if i >= |chain| then Handled(Err(Message(IndexOutOfRange)), w, p)
    else
      match chain[i]
      case Handler => ThroughHandler(lib, pg, chain, i, p, w)
      case Discarder => ThroughDiscarder(lib, pg, chain, i, p, w)
      case Guard => ThroughGuard(lib, pg, chain, i, p, w)
      case Loop => ThroughLoop(lib, pg, chain, i, p, w)
      case Executor => ThroughExecutor(lib, pg, i + 1 < |chain|, p, w)
  }

  /** `errorHandler`: with no `next` nothing runs; a failure of the rest
      of the chain is judged by the step's `on-error`. */
  function ThroughHandler(lib: Libraries, pg: Page, chain: seq<Middleware>, i: nat, p: Plan, w: World): (h: Handled)
    requires i < |chain|
    ensures PlanConf(h.plan) == PlanConf(p)
    decreases LoopDepth(PlanConf(p)), |chain| - i, 1, 0
  {
    if i + 1 >= |chain| then Handled(Done, w, p)
    else
      var rest := At(lib, pg, chain, i + 1, p, w);
      if rest.outcome.Err? then rest.(outcome := OnError(PlanConf(p), rest.outcome.error)) else rest
  }

  /** `errorDiscard`: `next` is called without a nil check. */
  function ThroughDiscarder(lib: Libraries, pg: Page, chain: seq<Middleware>, i: nat, p: Plan, w: World): (h: Handled)
    requires i < |chain|
    ensures PlanConf(h.plan) == PlanConf(p)
    decreases LoopDepth(PlanConf(p)), |chain| - i, 1, 0
  {
    if i + 1 >= |chain| then Handled(Panic(NilDereference), w, p)
    else
      var rest := At(lib, pg, chain, i + 1, p, w);
      if rest.outcome.Panic? then rest else rest.(outcome := Discarded(PlanConf(p), rest.outcome))
  }

  /** What `conditionCheck`'s pipeline gives: no `if` key, or the
      verdict and the store afterwards. */
  datatype Test = Absent | Evaluated(verdict: Result<bool>, cells: map<string, Cell>)

  /** The `ChainExec` pipeline of `conditionCheck`: the `if` value is
      looked up, expanded, parsed and evaluated against `Snapshot()`, which
      draws every generator once. A failure before the evaluation leaves the
      store as it was. */
  function Condition(lib: Libraries, conf: Decl, cells: map<string, Cell>): (t: Test)
    ensures t.Absent? <==> "if" !in conf
  {
    if "if" !in conf then Absent
    else if !conf["if"].VStr? then Evaluated(Err(Message("invalid condition format")), cells)
    else
      match Template.Expand(lib.engine, conf["if"].s, LiveOf(cells))
      case Err(e) => Evaluated(Err(e), cells)
      case Panic(x) => Evaluated(Panic(x), cells)
      case Ok(text) =>
        match Query.ParseQuery(text)
        case Err(e) => Evaluated(Err(e), cells)
        case Panic(x) => Evaluated(Panic(x), cells)
        case Ok(q) => Evaluated(Query.EvaluateQuery(q, SnapshotOf(cells), lib.regex), AdvanceAll(cells))
  }

  /** `conditionCheck`: without `if`, or with a true condition, `next` is
      called, or nothing happens when there is none; a false condition is
      `errTestFailed`, and every failure is returned as it is. */
  function ThroughGuard(lib: Libraries, pg: Page, chain: seq<Middleware>, i: nat, p: Plan, w: World): (h: Handled)
    requires i < |chain|
    ensures PlanConf(h.plan) == PlanConf(p)
    decreases LoopDepth(PlanConf(p)), |chain| - i, 1, 0
  {
    var t := Condition(lib, PlanConf(p), w.cells);
    var after := if t.Absent? then w else w.(cells := t.cells);
    if t.Evaluated? && !t.verdict.Ok? then Handled(t.verdict.PropagateFailure(), after, p)
    else if t.Evaluated? && !t.verdict.value then Handled(Err(ConditionFailed), after, p)
    else if i + 1 < |chain| then At(lib, pg, chain, i + 1, p, after)
    else Handled(Done, after, p)
  }

  /** `forLoop`: without `loop`, `next` is called with no nil check;
      with it, the step's own action never runs and the nested steps run
      through the whole chain once per item. */
  function ThroughLoop(lib: Libraries, pg: Page, chain: seq<Middleware>, i: nat, p: Plan, w: World): (h: Handled)
    requires i < |chain|
    ensures PlanConf(h.plan) == PlanConf(p)
    decreases LoopDepth(PlanConf(p)), |chain| - i, 1, 0
  {
    var conf := PlanConf(p);
    if "loop" !in conf then
      if i + 1 < |chain| then At(lib, pg, chain, i + 1, p, w) else Handled(Panic(NilDereference), w, p)
    else
      var l := LoopBody(lib, pg, chain, conf, w);
      Handled(l.outcome, l.world, p)
  }

  /** A `loop` step: its nested steps are built, its items computed, and
      the nested steps run once per item. */
  function LoopBody(lib: Libraries, pg: Page, chain: seq<Middleware>, conf: Decl, w: World): Looped
    requires "loop" in conf
    decreases LoopDepth(conf), 1, 0, 0
  {
    match LoopSetup(lib, conf)
    case Err(e) => Looped(Err(e), w)
    case Panic(x) => Looped(Panic(x), w)
    case Ok(setup) =>
      match LoopValues(lib, setup.0, w.cells)
      case Err(e) => Looped(Err(e), w)
      case Panic(x) => Looped(Panic(x), w)
      case Ok(items) =>
        LoopPlansShallower(lib, conf);
        Items(lib, pg, chain, items, 0, setup.1, w, LoopDepth(conf))
  }

  /** The items from `k` on: `item` is set, then every nested step runs. */
  function Items(lib: Libraries, pg: Page, chain: seq<Middleware>, items: seq<string>, k: nat,
                 plans: seq<Plan>, w: World, depth: nat): Looped
    requires k <= |items| && Shallower(plans, depth)
    decreases depth, 0, |items| - k, |plans| + 1
  {
    if k == |items| then Looped(Done, w)
    else Nested(lib, pg, chain, items, k, plans, 0, w.(cells := w.cells["item" := Fixed(items[k])]), depth)
  }

  /** The nested steps from `j` on for item `k`; the first failure ends
      the whole loop. */
  function Nested(lib: Libraries, pg: Page, chain: seq<Middleware>, items: seq<string>, k: nat,
                  plans: seq<Plan>, j: nat, w: World, depth: nat): Looped
    requires k < |items| && j <= |plans| && Shallower(plans, depth)
    decreases depth, 0, |items| - k, |plans| - j
  {
    if j == |plans| then Items(lib, pg, chain, items, k + 1, plans, w, depth)
    else
      var h := Handle(lib, pg, chain, plans[j], w);
      if !h.outcome.Ok? then Looped(h.outcome, h.world)
      else Nested(lib, pg, chain, items, k, plans[j := h.plan], j + 1, h.world, depth)
  }

  /** `exec`: it must be last; the step runs, and its result is stored
      under `set-var`. */
  function ThroughExecutor(lib: Libraries, pg: Page, hasNext: bool, p: Plan, w: World): (h: Handled)
    ensures PlanConf(h.plan) == PlanConf(p)
  {
    if hasNext then Handled(Err(Message(NotLast)), w, p)
    else
      var e := Run(lib, pg, p, w);
      if !e.result.Ok? then Handled(e.result.PropagateFailure(), e.world, e.plan)
      else
        var s := SetVar(lib, PlanConf(p), e.result.value, e.world.results);
        Handled(s.outcome, e.world.(results := s.results), e.plan)
  }

  // ---------------------------------------------------------------------
  // The middlewares as the source runs them.

  /** The steps are, as they are now, the plans. */
  ghost predicate AreNow(steps: seq<Step>, plans: seq<Plan>)
    reads Selects(steps)
  {
    |steps| == |plans| && forall l :: 0 <= l < |steps| ==> Current(steps[l]) == plans[l]
  }

  /** `HandleStep`. */
  method HandleStep(lib: Libraries, chain: seq<Middleware>, s: Step, pg: Page, vars: Vars, res: Results)
    returns (r: Outcome)
    requires Shaped(s)
    modifies pg, vars, res, Objects(s)
    ensures Handled(r, Now(pg, vars, res), Current(s)) == Handle(lib, pg, chain, old(Current(s)), old(Now(pg, vars, res)))
    decreases LoopDepth(ConfOf(s)), |chain| + 1, 0, 0
  {
    if |chain| == 0 {
      return Err(Message(NoMiddlewares));
    }
    r := MiddlewareExec(lib, chain, 0, s, pg, vars, res);
  }

  /** `middlewareExec`. */
  method MiddlewareExec(lib: Libraries, chain: seq<Middleware>, i: nat, s: Step, pg: Page, vars: Vars, res: Results)
    returns (r: Outcome)
    requires Shaped(s)
    modifies pg, vars, res, Objects(s)
    ensures Handled(r, Now(pg, vars, res), Current(s)) == At(lib, pg, chain, i, old(Current(s)), old(Now(pg, vars, res)))
    decreases LoopDepth(ConfOf(s)), |chain| - i, 2, 0
  {
    if i >= |chain| {
      return Err(Message(IndexOutOfRange));
    }
    match chain[i]
    case Handler => r := ErrorHandler(lib, chain, i, s, pg, vars, res);
    case Discarder => r := ErrorDiscard(lib, chain, i, s, pg, vars, res);
    case Guard => r := ConditionCheck(lib, chain, i, s, pg, vars, res);
    case Loop => r := ForLoop(lib, chain, i, s, pg, vars, res);
    case Executor => r := Exec(lib, i + 1 < |chain|, s, pg, vars, res);
  }

  method ErrorHandler(lib: Libraries, chain: seq<Middleware>, i: nat, s: Step, pg: Page, vars: Vars, res: Results)
    returns (r: Outcome)
    requires i < |chain| && Shaped(s)
    modifies pg, vars, res, Objects(s)
    ensures Handled(r, Now(pg, vars, res), Current(s)) == ThroughHandler(lib, pg, chain, i, old(Current(s)), old(Now(pg, vars, res)))
    decreases LoopDepth(ConfOf(s)), |chain| - i, 1, 0
  {
    if i + 1 >= |chain| {
      return Done;
    }
    r := MiddlewareExec(lib, chain, i + 1, s, pg, vars, res);
    if r.Err? {
      r := OnError(ConfOf(s), r.error);
    }
  }

  method ErrorDiscard(lib: Libraries, chain: seq<Middleware>, i: nat, s: Step, pg: Page, vars: Vars, res: Results)
    returns (r: Outcome)
    requires i < |chain| && Shaped(s)
    modifies pg, vars, res, Objects(s)
    ensures Handled(r, Now(pg, vars, res), Current(s)) == ThroughDiscarder(lib, pg, chain, i, old(Current(s)), old(Now(pg, vars, res)))
    decreases LoopDepth(ConfOf(s)), |chain| - i, 1, 0
  {
    if i + 1 >= |chain| {
      return Panic(NilDereference);
    }
    r := MiddlewareExec(lib, chain, i + 1, s, pg, vars, res);
    if !r.Panic? {
      r := Discarded(ConfOf(s), r);
    }
  }

  /** The pipeline of `conditionCheck` as the source runs it. */
  method EvaluateCondition(lib: Libraries, conf: Decl, vars: Vars) returns (t: Test)
    modifies vars
    ensures t == Condition(lib, conf, old(vars.cells))
    ensures vars.cells == if t.Absent? then old(vars.cells) else t.cells
  {
    if "if" !in conf {
      return Absent;
    }
    if !conf["if"].VStr? {
      return Evaluated(Err(Message("invalid condition format")), vars.cells);
    }
    var text := Template.EvaluateTemplate(lib.engine, conf["if"].s, vars);
    if !text.Ok? {
      return Evaluated(text.PropagateFailure(), vars.cells);
    }
    var q := Query.ParseQuery(text.value);
    if !q.Ok? {
      return Evaluated(q.PropagateFailure(), vars.cells);
    }
    var snapshot := vars.Snapshot();
    var verdict := Query.EvaluateQuery(q.value, snapshot, lib.regex);
    t := Evaluated(verdict, vars.cells);
  }

  method ConditionCheck(lib: Libraries, chain: seq<Middleware>, i: nat, s: Step, pg: Page, vars: Vars, res: Results)
    returns (r: Outcome)
    requires i < |chain| && Shaped(s)
    modifies pg, vars, res, Objects(s)
    ensures Handled(r, Now(pg, vars, res), Current(s)) == ThroughGuard(lib, pg, chain, i, old(Current(s)), old(Now(pg, vars, res)))
    decreases LoopDepth(ConfOf(s)), |chain| - i, 1, 0
  {
    var t := EvaluateCondition(lib, ConfOf(s), vars);
    if t.Evaluated? && !t.verdict.Ok? {
      return t.verdict.PropagateFailure();
    }
    if t.Evaluated? && !t.verdict.value {
      return Err(ConditionFailed);
    }
    if i + 1 < |chain| {
      r := MiddlewareExec(lib, chain, i + 1, s, pg, vars, res);
    } else {
      r := Done;
    }
  }

  /** The loop over the `steps` list that checks every element is a map. */
  method CollectDecls(items: seq<Value>) returns (r: Result<seq<Decl>>)
    ensures r == StepDecls(items)
  {
    var inner: seq<Decl> := [];
    for i := 0 to |items|
      invariant |inner| == i
      invariant forall l :: 0 <= l < i ==> items[l].VMap? && inner[l] == items[l].entries
    {
      if !items[i].VMap? {
        assert FirstNonMap(items, 0) == Some(i);
        return Err(NotAMap(items[i], i));
      }
      inner := inner + [items[i].entries];
    }
    assert FirstNonMap(items, 0).None?;
    assert inner == StepDecls(items).value;
    r := Ok(inner);
  }

  /** The counting branch of `evaluateLoop`. */
  method CountItems(n: nat) returns (items: seq<string>)
    ensures items == Counted(n)
  {
    var counted := new string[n];
    for i := 0 to n
      invariant forall l :: 0 <= l < i ==> counted[l] == IntToString(l)
    {
      counted[i] := IntToString(i);
    }
    items := counted[..];
  }

  /** The JSON branch of `evaluateLoop`: numbers are formatted, strings
      kept, and anything else stops the conversion. */
  method JsonItems(lib: Libraries, arr: seq<Json>) returns (r: Result<seq<string>>)
    ensures r == Utils.MapAll(arr, JsonItem(lib))
  {
    r := Utils.MapItems(arr, JsonItem(lib));
  }

  /** `evaluateLoop`. */
  method EvaluateLoop(lib: Libraries, cond: string, vars: Vars) returns (r: Result<seq<string>>)
    ensures r == LoopValues(lib, cond, vars.cells)
  {
    var text := Template.EvaluateTemplate(lib.engine, cond, vars);
    if !text.Ok? {
      return text.PropagateFailure();
    }
    var num := ParseFloat(lib, text.value);
    if num.Some? {
      if num.value.NonFinite? {
        return Err(Message(NonInteger));
      }
      var x := num.value.r;
      if x != x.Floor as real || x.Floor < MinInt64 || x.Floor > MaxInt64 {
        return Err(Message(NonInteger));
      }
      if x.Floor < 0 {
        return Panic(MakesliceLen);
      }
      var counted := CountItems(x.Floor);
      return Ok(counted);
    }
    var arr := lib.decodeArray(text.value);
    if arr.Err? {
      return Err(Wrap("failed to parse JSON: ", arr.error));
    } else if arr.Panic? {
      return Panic(arr.reason);
    }
    r := JsonItems(lib, arr.value);
  }

  /** The checks and the build `forLoop` makes before it runs anything. */
  method PrepareLoop(lib: Libraries, conf: Decl) returns (r: Result<(string, seq<Step>)>, ghost plans: seq<Plan>)
    requires "loop" in conf
    ensures r.Ok? <==> LoopSetup(lib, conf).Ok?
    ensures !r.Ok? ==> r == LoopSetup(lib, conf).PropagateFailure()
    ensures r.Ok? ==> LoopSetup(lib, conf) == Ok((r.value.0, plans))
    ensures r.Ok? ==> fresh(Selects(r.value.1)) && Distinct(r.value.1) && AreNow(r.value.1, plans)
    ensures r.Ok? ==> forall l :: 0 <= l < |r.value.1| ==> Shaped(r.value.1[l])
  {
    plans := [];
    if !conf["loop"].VStr? {
      return Err(Message("")), plans;
    }
    if "steps" !in conf {
      return Err(Message("steps configuration must be provided")), plans;
    }
    if !conf["steps"].VList? {
      return Err(Message("steps configuration must be of type []map[string]any")), plans;
    }
    var decls := CollectDecls(conf["steps"].items);
    if !decls.Ok? {
      return decls.PropagateFailure(), plans;
    }
    var built := BuildSteps(lib, decls.value);
    if !built.Ok? {
      return built.PropagateFailure(), plans;
    }
    plans := BuildPlans(lib, decls.value).value;
    forall l | 0 <= l < |built.value|
      ensures Current(built.value[l]) == plans[l] && Shaped(built.value[l])
    {
      assert Realises(built.value[l], plans[l]) && Untouched(built.value[l]);
    }
    r := Ok((conf["loop"].s, built.value));
  }

  method ForLoop(lib: Libraries, chain: seq<Middleware>, i: nat, s: Step, pg: Page, vars: Vars, res: Results)
    returns (r: Outcome)
    requires i < |chain| && Shaped(s)
    modifies pg, vars, res, Objects(s)
    ensures Handled(r, Now(pg, vars, res), Current(s)) == ThroughLoop(lib, pg, chain, i, old(Current(s)), old(Now(pg, vars, res)))
    decreases LoopDepth(ConfOf(s)), |chain| - i, 1, 0
  {
    var conf := ConfOf(s);
    if "loop" !in conf {
      if i + 1 < |chain| {
        r := MiddlewareExec(lib, chain, i + 1, s, pg, vars, res);
      } else {
        r := Panic(NilDereference);
      }
      return;
    }
    var l := RunLoop(lib, chain, conf, pg, vars, res);
    r := l;
  }

  /** `forLoop` once the step has a `loop` entry. */
  method RunLoop(lib: Libraries, chain: seq<Middleware>, conf: Decl, pg: Page, vars: Vars, res: Results)
    returns (r: Outcome)
    requires "loop" in conf
    modifies pg, vars, res
    ensures Looped(r, Now(pg, vars, res)) == LoopBody(lib, pg, chain, conf, old(Now(pg, vars, res)))
    decreases LoopDepth(conf), 1, 0, 0
  {
    var setup, plans := PrepareLoop(lib, conf);
    if !setup.Ok? {
      return setup.PropagateFailure();
    }
    var items := EvaluateLoop(lib, setup.value.0, vars);
    if !items.Ok? {
      return items.PropagateFailure();
    }
    LoopPlansShallower(lib, conf);
    r := RunItems(lib, chain, items.value, setup.value.1, plans, pg, vars, res, LoopDepth(conf));
  }

  /** The outer loop of `forLoop`: `item` is set for each item in turn
      and the nested steps run; the first failure returns. */
  method RunItems(lib: Libraries, chain: seq<Middleware>, items: seq<string>, nested: seq<Step>, ghost plans: seq<Plan>,
                  pg: Page, vars: Vars, res: Results, ghost depth: nat) returns (r: Outcome)
    requires Distinct(nested) && forall l :: 0 <= l < |nested| ==> Shaped(nested[l])
    requires AreNow(nested, plans) && Shallower(plans, depth)
    modifies pg, vars, res, Selects(nested)
    ensures Looped(r, Now(pg, vars, res)) == Items(lib, pg, chain, items, 0, plans, old(Now(pg, vars, res)), depth)
    decreases depth, 0, 1, 1
  {
    ghost var whole := Items(lib, pg, chain, items, 0, plans, Now(pg, vars, res), depth);
    ghost var now := plans;
    var k := 0;
    while k < |items|
      invariant k <= |items|
      invariant AreNow(nested, now) && Shallower(now, depth)
      invariant Items(lib, pg, chain, items, k, now, Now(pg, vars, res), depth) == whole
    {
      var rr;
      rr, now := RunItem(lib, chain, items, k, nested, now, pg, vars, res, depth);
      if !rr.Ok? {
        return rr;
      }
      k := k + 1;
    }
    r := Done;
  }

  /** One item of `forLoop`: `item` is set, then the nested steps run. */
  method RunItem(lib: Libraries, chain: seq<Middleware>, items: seq<string>, k: nat, nested: seq<Step>, ghost plans: seq<Plan>,
                 pg: Page, vars: Vars, res: Results, ghost depth: nat) returns (r: Outcome, ghost after: seq<Plan>)
    requires k < |items|
    requires Distinct(nested) && forall l :: 0 <= l < |nested| ==> Shaped(nested[l])
    requires AreNow(nested, plans) && Shallower(plans, depth)
    modifies pg, vars, res, Selects(nested)
    ensures AreNow(nested, after) && Shallower(after, depth)
    ensures r.Ok? ==> Items(lib, pg, chain, items, k + 1, after, Now(pg, vars, res), depth) ==
                      Items(lib, pg, chain, items, k, plans, old(Now(pg, vars, res)), depth)
    ensures !r.Ok? ==> Looped(r, Now(pg, vars, res)) == Items(lib, pg, chain, items, k, plans, old(Now(pg, vars, res)), depth)
    decreases depth, 0, 1, 0
  {
    ghost var w := Now(pg, vars, res);
    vars.SetOnce("item", items[k]);
    assert Now(pg, vars, res) == w.(cells := w.cells["item" := Fixed(items[k])]);
    assert AreNow(nested, plans);
    r, after := RunNested(lib, chain, items, k, nested, plans, pg, vars, res, depth);
  }

  /** The inner loop of `forLoop`: every nested step through the chain, in
      order, for item `k`. */
  method RunNested(lib: Libraries, chain: seq<Middleware>, items: seq<string>, k: nat, nested: seq<Step>, ghost plans: seq<Plan>,
                   pg: Page, vars: Vars, res: Results, ghost depth: nat) returns (r: Outcome, ghost after: seq<Plan>)
    requires k < |items|
    requires Distinct(nested) && forall l :: 0 <= l < |nested| ==> Shaped(nested[l])
    requires AreNow(nested, plans) && Shallower(plans, depth)
    modifies pg, vars, res, Selects(nested)
    ensures AreNow(nested, after) && Shallower(after, depth)
    ensures r.Ok? ==> Items(lib, pg, chain, items, k + 1, after, Now(pg, vars, res), depth) ==
                      Nested(lib, pg, chain, items, k, plans, 0, old(Now(pg, vars, res)), depth)
    ensures !r.Ok? ==> Looped(r, Now(pg, vars, res)) == Nested(lib, pg, chain, items, k, plans, 0, old(Now(pg, vars, res)), depth)
    decreases depth, 0, 0, 1
  {
    ghost var whole := Nested(lib, pg, chain, items, k, plans, 0, Now(pg, vars, res), depth);
    after := plans;
    var j := 0;
    while j < |nested|
      invariant j <= |nested|
      invariant AreNow(nested, after) && Shallower(after, depth)
      invariant Nested(lib, pg, chain, items, k, after, j, Now(pg, vars, res), depth) == whole
    {
      r, after := NestedStep(lib, chain, nested, j, after, pg, vars, res, depth);
      if !r.Ok? {
        return;
      }
      j := j + 1;
    }
    r := Done;
  }

  /** One nested step of `forLoop` through the chain; the other nested
      steps are left as they were. */
  method NestedStep(lib: Libraries, chain: seq<Middleware>, nested: seq<Step>, j: nat, ghost plans: seq<Plan>,
                    pg: Page, vars: Vars, res: Results, ghost depth: nat) returns (r: Outcome, ghost after: seq<Plan>)
    requires j < |nested| && Distinct(nested) && Shaped(nested[j])
    requires AreNow(nested, plans) && Shallower(plans, depth)
    modifies pg, vars, res, Objects(nested[j])
    ensures AreNow(nested, after) && after == plans[j := after[j]] && Shallower(after, depth)
    ensures Handled(r, Now(pg, vars, res), after[j]) == Handle(lib, pg, chain, plans[j], old(Now(pg, vars, res)))
    decreases depth, 0, 0, 0
  {
    assert ConfOf(nested[j]) == PlanConf(plans[j]);
    r := HandleStep(lib, chain, nested[j], pg, vars, res);
    after := plans[j := Current(nested[j])];
    forall l | 0 <= l < |nested| && l != j
      ensures Current(nested[l]) == after[l]
    {
      assert nested[l].Stateful? && nested[j].Stateful? ==> nested[l].sel != nested[j].sel;
      assert unchanged(Objects(nested[l]));
    }
  }

  /** The write to the result map `exec` makes. */
  method StoreResult(lib: Libraries, conf: Decl, v: Value, res: Results) returns (r: Outcome)
    modifies res
    ensures Stored(r, res.entries) == SetVar(lib, conf, v, old(res.entries))
  {
    if "set-var" !in conf {
      return Done;
    }
    var key := conf["set-var"];
    if !key.VStr? {
      return Err(Message("expected set-var to be a string, got: " + TypeName(key)));
    }
    if key.s in res.entries {
      var existing := res.entries[key.s];
      if existing.VStrList? {
        res.Put(key.s, VStrList(existing.strs + [Sprint(lib, v)]));
        return Done;
      }
      return Err(Message("existing key '" + key.s + "' is not of type []string"));
    }
    var json := Marshal(lib, v);
    if !json.Ok? {
      return json.PropagateFailure();
    }
    res.Put(key.s, VStrList([json.value]));
    r := Done;
  }

  method Exec(lib: Libraries, hasNext: bool, s: Step, pg: Page, vars: Vars, res: Results) returns (r: Outcome)
    requires Shaped(s)
    modifies pg, vars, res, Objects(s)
    ensures Handled(r, Now(pg, vars, res), Current(s)) == ThroughExecutor(lib, pg, hasNext, old(Current(s)), old(Now(pg, vars, res)))
  {
    if hasNext {
      return Err(Message(NotLast));
    }
    var result := Execute(lib, s, pg, vars, res);
    if !result.Ok? {
      return result.PropagateFailure();
    }
    r := StoreResult(lib, ConfOf(s), result.value, res);
  }
}
