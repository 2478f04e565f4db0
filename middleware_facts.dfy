/** What the middleware chain promises: the on-error policies, the `if`
    guard and the `loop` expansion as the standard chain composes them, the
    loop's items, and the `set-var` accumulation of `exec`. */
module MiddlewareFacts {
  import opened Base
  import opened Text
  import opened Foreign
  import opened Variables
  import opened Steps
  import opened Driver
  import opened StepExec
  import opened Middlewares
  import Utils

  // ---------------------------------------------------------------------
  // The on-error policies.

  /** `errorHandler`: success passes through, `ignore` and `print` turn
      every error into success, `panic` turns it into a panic, and any other
      policy returns it unchanged; what the rest of the chain did to the
      world stays done. */
  lemma HandlerPolicy(lib: Libraries, pg: Page, chain: seq<Middleware>, i: nat, p: Plan, w: World)
    requires i + 1 < |chain| && chain[i] == Handler
    ensures var h, rest := At(lib, pg, chain, i, p, w), At(lib, pg, chain, i + 1, p, w);
            var mode := StringAt(PlanConf(p), "on-error");
            h.world == rest.world && h.plan == rest.plan &&
            (rest.outcome.Ok? ==> h.outcome == rest.outcome) &&
            (rest.outcome.Panic? ==> h.outcome == rest.outcome) &&
            (rest.outcome.Err? && mode in {Some("ignore"), Some("print")} ==> h.outcome == Done) &&
            (rest.outcome.Err? && mode == Some("panic") ==> h.outcome == Panic(ErrorText(rest.outcome.error))) &&
            (mode !in {Some("ignore"), Some("print"), Some("panic")} ==> h.outcome == rest.outcome)
  {
  }

  /** The last middleware has no `next`: an error handler there returns
      success without running anything, and the older policy dereferences
      the nil `next`. */
  lemma PoliciesWithoutNext(lib: Libraries, pg: Page, p: Plan, w: World)
    ensures Handle(lib, pg, [Handler], p, w) == Handled(Done, w, p)
    ensures Handle(lib, pg, [Discarder], p, w) == Handled(Panic(NilDereference), w, p)
  {
    assert Handle(lib, pg, [Handler], p, w) == ThroughHandler(lib, pg, [Handler], 0, p, w);
    assert Handle(lib, pg, [Discarder], p, w) == ThroughDiscarder(lib, pg, [Discarder], 0, p, w);
  }

  /** `errorDiscard`: the policy applies whatever `next` returned, so
      `panic` panics even on success, and `ignore` or `print` hide every
      error. */
  lemma DiscarderPolicy(lib: Libraries, pg: Page, chain: seq<Middleware>, i: nat, p: Plan, w: World)
    requires i + 1 < |chain| && chain[i] == Discarder
    ensures var h, rest := At(lib, pg, chain, i, p, w), At(lib, pg, chain, i + 1, p, w);
            var mode := StringAt(PlanConf(p), "on-error");
            h.world == rest.world && h.plan == rest.plan &&
            (rest.outcome.Panic? ==> h.outcome == rest.outcome) &&
            (!rest.outcome.Panic? && mode in {Some("ignore"), Some("print")} ==> h.outcome == Done) &&
            (rest.outcome.Ok? && mode == Some("panic") ==> h.outcome == Panic(PanicNil)) &&
            (mode !in {Some("ignore"), Some("print"), Some("panic")} ==> h.outcome == rest.outcome)
  {
  }

  // ---------------------------------------------------------------------
  // The standard chain.

  /** The error handler's verdict on what the rest of the chain gave. */
  function Judged(conf: Decl, h: Handled): (j: Handled)
    ensures j.world == h.world && j.plan == h.plan
    ensures h.outcome.Ok? ==> j.outcome == h.outcome
  {
    if h.outcome.Err? then h.(outcome := OnError(conf, h.outcome.error)) else h
  }

  /** The first link of the standard chain is the error handler. */
  lemma StandardFirst(lib: Libraries, pg: Page, p: Plan, w: World)
    ensures Handle(lib, pg, Standard, p, w) == Judged(PlanConf(p), At(lib, pg, Standard, 1, p, w))
  {
    assert |Standard| == 4 && Standard[0] == Handler;
    assert Handle(lib, pg, Standard, p, w) == ThroughHandler(lib, pg, Standard, 0, p, w);
  }

  /** The second is the `if` guard. */
  lemma StandardSecond(lib: Libraries, pg: Page, p: Plan, w: World)
    ensures var t := Condition(lib, PlanConf(p), w.cells);
            var after := if t.Absent? then w else w.(cells := t.cells);
            At(lib, pg, Standard, 1, p, w) ==
              if t.Evaluated? && !t.verdict.Ok? then Handled(t.verdict.PropagateFailure(), after, p)
              else if t.Evaluated? && !t.verdict.value then Handled(Err(ConditionFailed), after, p)
              else At(lib, pg, Standard, 2, p, after)
  {
    assert |Standard| == 4 && Standard[1] == Guard;
    assert At(lib, pg, Standard, 1, p, w) == ThroughGuard(lib, pg, Standard, 1, p, w);
  }

  /** The third is the loop, which hands a plain step to `exec`. */
  lemma StandardThird(lib: Libraries, pg: Page, p: Plan, w: World)
    ensures "loop" !in PlanConf(p) ==> At(lib, pg, Standard, 2, p, w) == ThroughExecutor(lib, pg, false, p, w)
    ensures "loop" in PlanConf(p) ==>
              var l := LoopBody(lib, pg, Standard, PlanConf(p), w);
              At(lib, pg, Standard, 2, p, w) == Handled(l.outcome, l.world, p)
  {
    assert |Standard| == 4 && Standard[2] == Loop && Standard[3] == Executor;
    assert At(lib, pg, Standard, 2, p, w) == ThroughLoop(lib, pg, Standard, 2, p, w);
    assert At(lib, pg, Standard, 3, p, w) == ThroughExecutor(lib, pg, false, p, w);
  }

  /** A step with neither `if` nor `loop` runs exactly once, at `exec`,
      and its failure is judged by its `on-error`. */
  lemma PlainStepRunsOnce(lib: Libraries, pg: Page, p: Plan, w: World)
    requires "if" !in PlanConf(p) && "loop" !in PlanConf(p)
    ensures Handle(lib, pg, Standard, p, w) == Judged(PlanConf(p), ThroughExecutor(lib, pg, false, p, w))
  {
    StandardFirst(lib, pg, p, w);
    StandardSecond(lib, pg, p, w);
    StandardThird(lib, pg, p, w);
  }

  /** A true condition lets the step run, against the store as the
      condition left it. */
  lemma TrueConditionRuns(lib: Libraries, pg: Page, p: Plan, w: World, cells: map<string, Cell>)
    requires Condition(lib, PlanConf(p), w.cells) == Evaluated(Ok(true), cells)
    requires "loop" !in PlanConf(p)
    ensures Handle(lib, pg, Standard, p, w) ==
            Judged(PlanConf(p), ThroughExecutor(lib, pg, false, p, w.(cells := cells)))
  {
    StandardFirst(lib, pg, p, w);
    StandardSecond(lib, pg, p, w);
    StandardThird(lib, pg, p, w.(cells := cells));
  }

  /** A false condition is `errTestFailed`: the step does not run, the page
      sees no call and the results are as they were; only the generators the
      condition drew have moved on. */
  lemma FalseConditionSkips(lib: Libraries, pg: Page, p: Plan, w: World, cells: map<string, Cell>)
    requires Condition(lib, PlanConf(p), w.cells) == Evaluated(Ok(false), cells)
    ensures Handle(lib, pg, Standard, p, w) ==
            Handled(OnError(PlanConf(p), ConditionFailed), w.(cells := cells), p)
  {
    StandardFirst(lib, pg, p, w);
    StandardSecond(lib, pg, p, w);
  }

  /** A condition that cannot be read, expanded, parsed or evaluated stops
      the step like a false one, with its own error. */
  lemma BrokenConditionSkips(lib: Libraries, pg: Page, p: Plan, w: World, cells: map<string, Cell>, e: Error)
    requires Condition(lib, PlanConf(p), w.cells) == Evaluated(Err(e), cells)
    ensures Handle(lib, pg, Standard, p, w) == Handled(OnError(PlanConf(p), e), w.(cells := cells), p)
  {
    StandardFirst(lib, pg, p, w);
    StandardSecond(lib, pg, p, w);
  }

  /** A `loop` step never reaches `exec`: the step itself is left as it
      was, and the world is what the nested steps made of it. */
  lemma LoopStepNeverRuns(lib: Libraries, pg: Page, p: Plan, w: World)
    requires "if" !in PlanConf(p) && "loop" in PlanConf(p)
    ensures var l := LoopBody(lib, pg, Standard, PlanConf(p), w);
            Handle(lib, pg, Standard, p, w) == Judged(PlanConf(p), Handled(l.outcome, l.world, p))
  {
    StandardFirst(lib, pg, p, w);
    StandardSecond(lib, pg, p, w);
    StandardThird(lib, pg, p, w);
  }

  // ---------------------------------------------------------------------
  // The loop.

  lemma {:induction false} NatToStringIsDecimal(n: nat)
    ensures IsDecimalInteger(NatToString(n)) && DecimalIntegerValue(NatToString(n)) == n
    ensures IsDecimalInteger("-" + NatToString(n)) && DecimalIntegerValue("-" + NatToString(n)) == -(n as int)
  {
    var s := NatToString(n);
    assert IsDigit(s[0]);
    assert ("-" + s)[1..] == s;
  }

  /** A count `n` gives the items "0", ..., "n-1". */
  lemma CountFromZero(lib: Libraries, n: nat)
    requires n <= TwoTo53
    ensures LoopItems(lib, IntToString(n)) == Ok(Counted(n))
  {
    NatToStringIsDecimal(n);
  }

  /** A negative count reaches `make` unguarded, which panics. */
  lemma NegativeCountPanics(lib: Libraries, n: nat)
    requires 0 < n <= TwoTo53
    ensures LoopItems(lib, IntToString(-(n as int))) == Panic(MakesliceLen)
  {
    NatToStringIsDecimal(n);
  }

  /** A number that is not integral is refused. */
  lemma FractionRefused(lib: Libraries, text: string, x: real)
    requires ParseFloat(lib, text) == Some(Finite(x)) && x != x.Floor as real
    ensures LoopItems(lib, text) == Err(Message(NonInteger))
  {
  }

  /** Anything that is not a number is a JSON array whose elements are
      all strings or numbers, item for element. */
  lemma JsonArrayItems(lib: Libraries, text: string, arr: seq<Json>)
    requires ParseFloat(lib, text).None? && lib.decodeArray(text) == Ok(arr)
    ensures LoopItems(lib, text).Ok? <==> forall j :: 0 <= j < |arr| ==> arr[j].JNumber? || arr[j].JString?
    ensures LoopItems(lib, text).Ok? ==>
              |LoopItems(lib, text).value| == |arr| &&
              forall j :: 0 <= j < |arr| && arr[j].JString? ==> LoopItems(lib, text).value[j] == arr[j].s
  {
    var r := Utils.MapAll(arr, JsonItem(lib));
    assert LoopItems(lib, text) == r;
    forall j | 0 <= j < |arr|
      ensures JsonItem(lib)(arr[j]).Ok? <==> arr[j].JNumber? || arr[j].JString?
    {
    }
  }

  /** With no nested steps nothing fails, and `item` is left holding the
      last item. */
  lemma {:induction false} EmptyLoopKeepsLastItem(lib: Libraries, pg: Page, chain: seq<Middleware>, items: seq<string>,
                                                  k: nat, w: World, depth: nat)
    requires k < |items|
    ensures Items(lib, pg, chain, items, k, [], w, depth) ==
            Looped(Done, w.(cells := w.cells["item" := Fixed(items[|items| - 1])]))
    decreases |items| - k
  {
    var next := w.(cells := w.cells["item" := Fixed(items[k])]);
    assert Items(lib, pg, chain, items, k, [], w, depth) == Items(lib, pg, chain, items, k + 1, [], next, depth);
    if k + 1 < |items| {
      EmptyLoopKeepsLastItem(lib, pg, chain, items, k + 1, next, depth);
      assert next.cells["item" := Fixed(items[|items| - 1])] == w.cells["item" := Fixed(items[|items| - 1])];
    }
  }

  /** The first nested step that fails ends the loop with its failure,
      whatever items remain. */
  lemma FirstFailureEndsLoop(lib: Libraries, pg: Page, chain: seq<Middleware>, items: seq<string>, k: nat,
                             plans: seq<Plan>, w: World, depth: nat)
    requires k < |items| && 0 < |plans| && Shallower(plans, depth)
    requires !Handle(lib, pg, chain, plans[0], w.(cells := w.cells["item" := Fixed(items[k])])).outcome.Ok?
    ensures var h := Handle(lib, pg, chain, plans[0], w.(cells := w.cells["item" := Fixed(items[k])]));
            Items(lib, pg, chain, items, k, plans, w, depth) == Looped(h.outcome, h.world)
  {
  }

  // ---------------------------------------------------------------------
  // `set-var`.

  /** Without `set-var` nothing is stored. */
  lemma NoSetVarStoresNothing(lib: Libraries, conf: Decl, v: Value, results: map<string, Value>)
    requires "set-var" !in conf
    ensures SetVar(lib, conf, v, results) == Stored(Done, results)
  {
  }

  /** The first write to a key stores a one-element list holding the JSON
      encoding of the value. */
  lemma FirstWriteStoresJson(lib: Libraries, conf: Decl, key: string, v: Value, results: map<string, Value>)
    requires "set-var" in conf && conf["set-var"] == VStr(key) && key !in results
    requires Marshal(lib, v).Ok?
    ensures SetVar(lib, conf, v, results) == Stored(Done, results[key := VStrList([Marshal(lib, v).value])])
  {
  }

  /** A later write appends the value's `%v` rendering. */
  lemma LaterWriteAppends(lib: Libraries, conf: Decl, key: string, v: Value, results: map<string, Value>)
    requires "set-var" in conf && conf["set-var"] == VStr(key)
    requires key in results && results[key].VStrList?
    ensures SetVar(lib, conf, v, results) ==
            Stored(Done, results[key := VStrList(results[key].strs + [Sprint(lib, v)])])
  {
  }

  /** A key that holds anything but a list of strings is refused and left
      as it was, and so is a `set-var` that is not a string. */
  lemma WrongTypesRefused(lib: Libraries, conf: Decl, v: Value, results: map<string, Value>)
    requires "set-var" in conf
    requires !conf["set-var"].VStr? || (conf["set-var"].s in results && !results[conf["set-var"].s].VStrList?)
    ensures SetVar(lib, conf, v, results).outcome.Err?
    ensures SetVar(lib, conf, v, results).results == results
  {
  }

  /** A write touches its own key and no other. */
  lemma SetVarTouchesOnlyItsKey(lib: Libraries, conf: Decl, v: Value, results: map<string, Value>, other: string)
    requires "set-var" in conf ==> conf["set-var"] != VStr(other)
    ensures var after := SetVar(lib, conf, v, results).results;
            (other in after <==> other in results) && (other in results ==> after[other] == results[other])
  {
  }

  /** `exec` run on the same step once per value, in order, until one
      fails. */
  function WriteAll(lib: Libraries, conf: Decl, vs: seq<Value>, results: map<string, Value>): (s: Stored)
    ensures !s.outcome.Ok? ==> |vs| > 0
    decreases |vs|
  {
    if vs == [] then Stored(Done, results)
    else
      var s := WriteAll(lib, conf, vs[..|vs| - 1], results);
      if !s.outcome.Ok? then s else SetVar(lib, conf, vs[|vs| - 1], s.results)
  }

  /** The renderings every write after the first appends. */
  function Renderings(lib: Libraries, vs: seq<Value>): (r: seq<string>)
    ensures |r| == |vs| && forall j :: 0 <= j < |vs| ==> r[j] == Sprint(lib, vs[j])
  {
    seq(|vs|, j requires 0 <= j < |vs| => Sprint(lib, vs[j]))
  }

  /** N writes to a fresh key leave a list of N strings in write order: the
      JSON encoding of the first value, then the `%v` rendering of each
      later one. */
  lemma {:induction false} WritesAccumulate(lib: Libraries, conf: Decl, key: string, vs: seq<Value>,
                                            results: map<string, Value>)
    requires "set-var" in conf && conf["set-var"] == VStr(key) && key !in results
    requires |vs| > 0 && Marshal(lib, vs[0]).Ok?
    ensures var s := WriteAll(lib, conf, vs, results);
            s.outcome == Done && key in s.results &&
            s.results[key] == VStrList([Marshal(lib, vs[0]).value] + Renderings(lib, vs[1..]))
    decreases |vs|
  {
    var n := |vs|;
    if n == 1 {
      assert WriteAll(lib, conf, vs[..0], results) == Stored(Done, results);
      assert Renderings(lib, vs[1..]) == [];
    } else {
      var init := vs[..n - 1];
      assert init[0] == vs[0] && init[1..] == vs[1..n - 1];
      WritesAccumulate(lib, conf, key, init, results);
      var s := WriteAll(lib, conf, init, results);
      assert WriteAll(lib, conf, vs, results) == SetVar(lib, conf, vs[n - 1], s.results);
      LaterWriteAppends(lib, conf, key, vs[n - 1], s.results);
      RenderingsAppend(lib, vs);
    }
  }

  /** One more value, one more rendering at the end. */
  lemma RenderingsAppend(lib: Libraries, vs: seq<Value>)
    requires |vs| >= 2
    ensures Renderings(lib, vs[1..]) == Renderings(lib, vs[1..|vs| - 1]) + [Sprint(lib, vs[|vs| - 1])]
  {
    var a, b := Renderings(lib, vs[1..]), Renderings(lib, vs[1..|vs| - 1]) + [Sprint(lib, vs[|vs| - 1])];
    assert |a| == |b|;
    forall j | 0 <= j < |a| ensures a[j] == b[j] {
      if j < |vs| - 2 {
        assert vs[1..][j] == vs[1..|vs| - 1][j];
      }
    }
  }

  /** Writing "a", "b" and "c" to one key gives ["\"a\"", "b", "c"]. */
  lemma WritesExample(lib: Libraries, conf: Decl, key: string, results: map<string, Value>)
    requires "set-var" in conf && conf["set-var"] == VStr(key) && key !in results
    ensures var s := WriteAll(lib, conf, [VStr("a"), VStr("b"), VStr("c")], results);
            s.outcome == Done && s.results[key] == VStrList(["\"a\"", "b", "c"])
  {
    var vs := [VStr("a"), VStr("b"), VStr("c")];
    assert JsonPlain("a");
    assert Marshal(lib, VStr("a")).value == "\"a\"";
    WritesAccumulate(lib, conf, key, vs, results);
    assert Renderings(lib, vs[1..]) == ["b", "c"];
    assert ["\"a\""] + ["b", "c"] == ["\"a\"", "b", "c"];
  }
}
