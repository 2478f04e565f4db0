/** The two entry points of the engine: a whole pipeline run once, with
    the first failing step ending it, and a stream of step batches run as
    they arrive, each into a result map of its own, with failing steps
    skipped. Playwright itself is an oracle that can only fail. */
module Engine {
  import opened Base
  import opened Foreign
  import opened Variables
  import opened Driver
  import opened Steps
  import opened StepExec
  import opened Middlewares
  import VarInit

  // ---------------------------------------------------------------------
  // The browser.

  datatype Browser = Chromium | Firefox | WebKit

  function BrowserName(b: Browser): string
  {
    match b
    case Chromium => "chromium"
    case Firefox => "firefox"
    case WebKit => "webkit"
  }

  /** `launchBrowser`'s choice of browser type. */
  function LaunchBrowser(browserType: string): (r: Result<Browser>)
    ensures r.Ok? <==> browserType in {"chromium", "firefox", "webkit"}
    ensures r.Ok? ==> BrowserName(r.value) == browserType
    ensures !r.Ok? ==> r == Err(Message("unsupported browser type: " + browserType))
  {
    if browserType == "chromium" then Ok(Chromium)
    else if browserType == "firefox" then Ok(Firefox)
    else if browserType == "webkit" then Ok(WebKit)
    else Err(Message("unsupported browser type: " + browserType))
  }

  /** Every browser is launched by its own name. */
  lemma LaunchByName(b: Browser)
    ensures LaunchBrowser(BrowserName(b)) == Ok(b)
  {
  }

  /** What Playwright answers when it is started, when a browser is
      launched, and when a page is opened. */
  datatype Playwright = Playwright(start: Outcome, launch: Browser -> Outcome, newPage: Outcome)

  /** Starting Playwright, launching the configured browser and opening
      the page, each failure with its own message. */
  function Launched(pw: Playwright, browserType: string): (r: Outcome)
    ensures LaunchBrowser(browserType).Err? && pw.start.Ok? ==> r == LaunchBrowser(browserType).PropagateFailure()
    ensures r.Ok? ==> pw.start.Ok? && LaunchBrowser(browserType).Ok? && pw.newPage.Ok?
  {
    if pw.start.Err? then Err(Wrap("playwright startup failed: ", pw.start.error))
    else if pw.start.Panic? then pw.start
    else
      match LaunchBrowser(browserType)
      case Err(e) => Err(e)
      case Panic(x) => Panic(x)
      case Ok(b) =>
        if !pw.launch(b).Ok? then pw.launch(b)
        else if pw.newPage.Err? then Err(Wrap("page creation failed: ", pw.newPage.error))
        else pw.newPage
  }

  /** The parts of an execution configuration the engine reads. */
  datatype Pipeline = Pipeline(vars: seq<VarInit.Variable>, steps: seq<Decl>, browser: string)

  // ---------------------------------------------------------------------
  // Running a list of steps.

  /** The world after the first `j` steps, each handed the world the one
      before it left, whatever their outcomes. */
  function Stage(lib: Libraries, pg: Page, plans: seq<Plan>, j: nat, w: World): World
    requires j <= |plans|
    decreases j
  {
    if j == 0 then w else Handle(lib, pg, Standard, plans[j - 1], Stage(lib, pg, plans, j - 1, w)).world
  }

  /** Batch mode: the steps from `j` on, in order; the first failure
      ends the run. */
  function RunAll(lib: Libraries, pg: Page, plans: seq<Plan>, j: nat, w: World): Looped
    requires j <= |plans|
    decreases |plans| - j
  {
    if j == |plans| then Looped(Done, w)
    else
      var h := Handle(lib, pg, Standard, plans[j], w);
      if !h.outcome.Ok? then Looped(h.outcome, h.world) else RunAll(lib, pg, plans, j + 1, h.world)
  }

  /** Streaming mode: every step runs and a failing one is passed over;
      only a panic, which ends the process, stops the rest. */
  function RunBatch(lib: Libraries, pg: Page, plans: seq<Plan>, j: nat, w: World): Looped
    requires j <= |plans|
    decreases |plans| - j
  {
    if j == |plans| then Looped(Done, w)
    else
      var h := Handle(lib, pg, Standard, plans[j], w);
      if h.outcome.Panic? then Looped(h.outcome, h.world) else RunBatch(lib, pg, plans, j + 1, h.world)
  }

  /** What a run of `ExecuteConfig` ends with: its result and the calls the
      page saw. */
  datatype Finished = Finished(result: Result<map<string, Value>>, trace: seq<Call>)

  /** `ExecuteConfig`: the variables are declared first, an empty pipeline
      is refused, the browser is launched, all steps are built before any
      runs, and the steps run with a result map of their own. */
  function Configured(lib: Libraries, pw: Playwright, pg: Page, config: Pipeline,
                      rnd: VarInit.RandomString, trace: seq<Call>): Finished
  {
    match VarInit.Declare(config.vars, rnd)
    case Err(e) => Finished(Err(Wrap("preflight check failed: ", e)), trace)
    case Panic(x) => Finished(Panic(x), trace)
    case Ok(cells) =>
      if |config.steps| == 0 then Finished(Err(Message("pipeline has no steps, preflight check failed")), trace)
      else
        var launched := Launched(pw, config.browser);
        if !launched.Ok? then Finished(launched.PropagateFailure(), trace)
        else Executed(lib, pg, config.steps, cells, trace)
  }

  /** The part of `ExecuteConfig` after the launch: every step is built
      before any runs, then they run over a result map of their own. */
  function Executed(lib: Libraries, pg: Page, ds: seq<Decl>, cells: map<string, Cell>, trace: seq<Call>): Finished
  {
    match BuildPlans(lib, ds)
    case Err(e) => Finished(Err(e), trace)
    case Panic(x) => Finished(Panic(x), trace)
    case Ok(plans) => Completed(lib, pg, plans, cells, trace)
  }

  /** Built plans run from an empty result map: the map on success, the
      first failure otherwise. */
  function Completed(lib: Libraries, pg: Page, plans: seq<Plan>, cells: map<string, Cell>, trace: seq<Call>): Finished
  {
    var l := RunAll(lib, pg, plans, 0, World(cells, map[], trace));
    Finished(if l.outcome.Ok? then Ok(l.world.results) else l.outcome.PropagateFailure(), l.world.trace)
  }

  /** What a stream has produced: the result maps sent, in order, and
      whether a panic ended it; the store and the page are shared by every
      batch. */
  datatype Emitted = Emitted(outcome: Outcome, maps: seq<map<string, Value>>, cells: map<string, Cell>, trace: seq<Call>)

  /** What one streamed batch gives: whether it panicked, the result map
      it sent, if any, and the store and page after it. */
  datatype BatchResult = BatchResult(outcome: Outcome, sent: Option<map<string, Value>>,
                                     cells: map<string, Cell>, trace: seq<Call>)

  /** One batch: one that fails to build is passed over without a result;
      otherwise it runs into an empty result map, which is then sent. */
  function OneBatch(lib: Libraries, pg: Page, batch: seq<Decl>, cells: map<string, Cell>, trace: seq<Call>): BatchResult
  {
    match BuildPlans(lib, batch)
    case Err(_) => BatchResult(Done, None, cells, trace)
    case Panic(x) => BatchResult(Panic(x), None, cells, trace)
    case Ok(plans) => BatchRun(lib, pg, plans, cells, trace)
  }

  /** A built batch runs into an empty result map, which is sent unless a
      step panicked. */
  function BatchRun(lib: Libraries, pg: Page, plans: seq<Plan>, cells: map<string, Cell>, trace: seq<Call>): BatchResult
  {
    var l := RunBatch(lib, pg, plans, 0, World(cells, map[], trace));
    if l.outcome.Panic? then BatchResult(l.outcome, None, l.world.cells, l.world.trace)
    else BatchResult(Done, Some(l.world.results), l.world.cells, l.world.trace)
  }

  /** The batches from `k` on, in order, each with the store and page the
      one before left. */
  function Emit(lib: Libraries, pg: Page, batches: seq<seq<Decl>>, k: nat, cells: map<string, Cell>, trace: seq<Call>): Emitted
    requires k <= |batches|
    decreases |batches| - k
  {
    if k == |batches| then Emitted(Done, [], cells, trace)
    else
      var b := OneBatch(lib, pg, batches[k], cells, trace);
      if b.outcome.Panic? then Emitted(b.outcome, [], b.cells, b.trace)
      else
        var rest := Emit(lib, pg, batches, k + 1, b.cells, b.trace);
        rest.(maps := (if b.sent.Some? then [b.sent.value] else []) + rest.maps)
  }

  /** `ExecuteStream`: the same preflight, without the check for an empty
      pipeline, then the batches in the order they arrive. */
  function Streamed(lib: Libraries, pw: Playwright, pg: Page, config: Pipeline, batches: seq<seq<Decl>>,
                    rnd: VarInit.RandomString, trace: seq<Call>): Emitted
  {
    match VarInit.Declare(config.vars, rnd)
    case Err(e) => Emitted(Err(Wrap("preflight check failed: ", e)), [], map[], trace)
    case Panic(x) => Emitted(Panic(x), [], map[], trace)
    case Ok(cells) =>
      var launched := Launched(pw, config.browser);
      if !launched.Ok? then Emitted(launched, [], cells, trace)
      else Emit(lib, pg, batches, 0, cells, trace)
  }

  // ---------------------------------------------------------------------
  // The engine as the source runs it.

  /** A bound on the nesting of a list of steps. */
  function DepthBound(plans: seq<Plan>): (d: nat)
    ensures Shallower(plans, d)
  {
    if plans == [] then 0
    else
      var rest, own := DepthBound(plans[1..]), LoopDepth(PlanConf(plans[0])) + 1;
      assert forall j :: 1 <= j < |plans| ==> plans[j] == plans[1..][j - 1];
      if rest > own then rest else own
  }

  /** Freshly built steps are the plans they were built from. */
  method Prepare(lib: Libraries, ds: seq<Decl>) returns (r: Result<seq<Step>>, ghost plans: seq<Plan>)
    ensures r.Ok? <==> BuildPlans(lib, ds).Ok?
    ensures !r.Ok? ==> r == BuildPlans(lib, ds).PropagateFailure()
    ensures r.Ok? ==> plans == BuildPlans(lib, ds).value
    ensures r.Ok? ==> fresh(Selects(r.value)) && Distinct(r.value) && AreNow(r.value, plans)
    ensures r.Ok? ==> forall l :: 0 <= l < |r.value| ==> Shaped(r.value[l])
  {
    plans := [];
    r := BuildSteps(lib, ds);
    if r.Ok? {
      plans := BuildPlans(lib, ds).value;
      forall l | 0 <= l < |r.value|
        ensures Current(r.value[l]) == plans[l] && Shaped(r.value[l])
      {
        assert Realises(r.value[l], plans[l]) && Untouched(r.value[l]);
      }
    }
  }

  /** The step loop of `ExecuteConfig`. */
  method RunSteps(lib: Libraries, steps: seq<Step>, ghost plans: seq<Plan>, pg: Page, vars: Vars, res: Results)
    returns (r: Outcome)
    requires Distinct(steps) && AreNow(steps, plans) && forall l :: 0 <= l < |steps| ==> Shaped(steps[l])
    modifies pg, vars, res, Selects(steps)
    ensures Looped(r, Now(pg, vars, res)) == RunAll(lib, pg, plans, 0, old(Now(pg, vars, res)))
  {
    ghost var whole := RunAll(lib, pg, plans, 0, Now(pg, vars, res));
    ghost var cur := plans;
    ghost var depth := DepthBound(plans);
    var j := 0;
    while j < |steps|
      invariant j <= |steps|
      invariant AreNow(steps, cur) && Shallower(cur, depth)
      invariant |cur| == |plans| && forall l :: j <= l < |plans| ==> cur[l] == plans[l]
      invariant RunAll(lib, pg, plans, j, Now(pg, vars, res)) == whole
    {
      ghost var before := Now(pg, vars, res);
      r, cur := NestedStep(lib, Standard, steps, j, cur, pg, vars, res, depth);
      if !r.Ok? {
        return;
      }
      assert RunAll(lib, pg, plans, j, before) == RunAll(lib, pg, plans, j + 1, Now(pg, vars, res));
      j := j + 1;
    }
    r := Done;
  }

  /** The step loop of one streamed batch. */
  method RunBatchSteps(lib: Libraries, steps: seq<Step>, ghost plans: seq<Plan>, pg: Page, vars: Vars, res: Results)
    returns (r: Outcome)
    requires Distinct(steps) && AreNow(steps, plans) && forall l :: 0 <= l < |steps| ==> Shaped(steps[l])
    modifies pg, vars, res, Selects(steps)
    ensures Looped(r, Now(pg, vars, res)) == RunBatch(lib, pg, plans, 0, old(Now(pg, vars, res)))
  {
    ghost var whole := RunBatch(lib, pg, plans, 0, Now(pg, vars, res));
    ghost var cur := plans;
    ghost var depth := DepthBound(plans);
    var j := 0;
    while j < |steps|
      invariant j <= |steps|
      invariant AreNow(steps, cur) && Shallower(cur, depth)
      invariant |cur| == |plans| && forall l :: j <= l < |plans| ==> cur[l] == plans[l]
      invariant RunBatch(lib, pg, plans, j, Now(pg, vars, res)) == whole
    {
      ghost var before := Now(pg, vars, res);
      r, cur := NestedStep(lib, Standard, steps, j, cur, pg, vars, res, depth);
      if r.Panic? {
        return;
      }
      assert RunBatch(lib, pg, plans, j, before) == RunBatch(lib, pg, plans, j + 1, Now(pg, vars, res));
      j := j + 1;
    }
    r := Done;
  }

  /** `ExecuteConfig`. */
  method ExecuteConfig(lib: Libraries, pw: Playwright, config: Pipeline, rnd: VarInit.RandomString, pg: Page)
    returns (r: Result<map<string, Value>>)
    modifies pg
    ensures Finished(r, pg.trace) == Configured(lib, pw, pg, config, rnd, old(pg.trace))
  {
    var vars := VarInit.InitializeVariables(config.vars, rnd);
    if vars.Err? {
      return Err(Wrap("preflight check failed: ", vars.error));
    }
    if |config.steps| == 0 {
      return Err(Message("pipeline has no steps, preflight check failed"));
    }
    var launched := Launched(pw, config.browser);
    if !launched.Ok? {
      return launched.PropagateFailure();
    }
    r := BuildAndRun(lib, config.steps, pg, vars.value);
  }

  /** The steps of `ExecuteConfig`, built and then run in order. */
  method BuildAndRun(lib: Libraries, ds: seq<Decl>, pg: Page, vars: Vars)
    returns (r: Result<map<string, Value>>)
    modifies pg, vars
    ensures Finished(r, pg.trace) == Executed(lib, pg, ds, old(vars.cells), old(pg.trace))
  {
    var steps, plans := Prepare(lib, ds);
    if !steps.Ok? {
      return steps.PropagateFailure();
    }
    r := RunBuilt(lib, steps.value, plans, pg, vars);
  }

  /** Built steps of `Execute`, run into a fresh result map. */
  method RunBuilt(lib: Libraries, steps: seq<Step>, ghost plans: seq<Plan>, pg: Page, vars: Vars)
    returns (r: Result<map<string, Value>>)
    requires Distinct(steps) && AreNow(steps, plans) && forall l :: 0 <= l < |steps| ==> Shaped(steps[l])
    modifies pg, vars, Selects(steps)
    ensures Finished(r, pg.trace) == Completed(lib, pg, plans, old(vars.cells), old(pg.trace))
  {
    var res := new Results();
    var outcome := RunSteps(lib, steps, plans, pg, vars, res);
    if !outcome.Ok? {
      return outcome.PropagateFailure();
    }
    r := Ok(res.entries);
  }

  /** One batch of `ExecuteStream`. */
  method StreamBatch(lib: Libraries, batch: seq<Decl>, pg: Page, vars: Vars)
    returns (r: Outcome, sent: Option<map<string, Value>>)
    modifies pg, vars
    ensures BatchResult(r, sent, vars.cells, pg.trace) == OneBatch(lib, pg, batch, old(vars.cells), old(pg.trace))
  {
    var steps, plans := Prepare(lib, batch);
    if steps.Panic? {
      return steps.PropagateFailure(), None;
    } else if steps.Err? {
      return Done, None;
    }
    r, sent := RunBuiltBatch(lib, steps.value, plans, pg, vars);
  }

  /** A built batch of `ExecuteStream`, run into a result map of its own. */
  method RunBuiltBatch(lib: Libraries, steps: seq<Step>, ghost plans: seq<Plan>, pg: Page, vars: Vars)
    returns (r: Outcome, sent: Option<map<string, Value>>)
    requires Distinct(steps) && AreNow(steps, plans) && forall l :: 0 <= l < |steps| ==> Shaped(steps[l])
    modifies pg, vars, Selects(steps)
    ensures BatchResult(r, sent, vars.cells, pg.trace) == BatchRun(lib, pg, plans, old(vars.cells), old(pg.trace))
  {
    var res := new Results();
    r := RunBatchSteps(lib, steps, plans, pg, vars, res);
    if r.Panic? {
      return r, None;
    }
    r, sent := Done, Some(res.entries);
  }

  /** `ExecuteStream`, with the batches that arrive on the channel given
      as a list. */
  method ExecuteStream(lib: Libraries, pw: Playwright, config: Pipeline, batches: seq<seq<Decl>>,
                       rnd: VarInit.RandomString, pg: Page)
    returns (r: Outcome, sent: seq<map<string, Value>>)
    modifies pg
    ensures Emitted(r, sent, Streamed(lib, pw, pg, config, batches, rnd, old(pg.trace)).cells, pg.trace) ==
            Streamed(lib, pw, pg, config, batches, rnd, old(pg.trace))
  {
    sent := [];
    var vars := VarInit.InitializeVariables(config.vars, rnd);
    if vars.Err? {
      return Err(Wrap("preflight check failed: ", vars.error)), sent;
    }
    var launched := Launched(pw, config.browser);
    if !launched.Ok? {
      return launched, sent;
    }
    r, sent := StreamAll(lib, batches, pg, vars.value);
  }

  /** `whole` is what was sent so far followed by `rest`. */
  ghost predicate Continues(whole: Emitted, sent: seq<map<string, Value>>, rest: Emitted)
  {
    whole.outcome == rest.outcome && whole.maps == sent + rest.maps &&
    whole.cells == rest.cells && whole.trace == rest.trace
  }

  lemma ContinuesFurther(whole: Emitted, sent: seq<map<string, Value>>, e: Emitted, more: seq<map<string, Value>>, rest: Emitted)
    requires Continues(whole, sent, e) && Continues(e, more, rest)
    ensures Continues(whole, sent + more, rest)
  {
    assert sent + (more + rest.maps) == (sent + more) + rest.maps;
  }

  /** The worker of `ExecuteStream`: the batches in turn, with one store
      and one page. */
  method StreamAll(lib: Libraries, batches: seq<seq<Decl>>, pg: Page, vars: Vars)
    returns (r: Outcome, sent: seq<map<string, Value>>)
    modifies pg, vars
    ensures Emitted(r, sent, vars.cells, pg.trace) == Emit(lib, pg, batches, 0, old(vars.cells), old(pg.trace))
  {
    sent := [];
    ghost var whole := Emit(lib, pg, batches, 0, vars.cells, pg.trace);
    var k := 0;
    while k < |batches|
      invariant k <= |batches|
      invariant Continues(whole, sent, Emit(lib, pg, batches, k, vars.cells, pg.trace))
    {
      ghost var e := Emit(lib, pg, batches, k, vars.cells, pg.trace);
      ghost var b := OneBatch(lib, pg, batches[k], vars.cells, pg.trace);
      var one;
      r, one := StreamBatch(lib, batches[k], pg, vars);
      if r.Panic? {
        assert e == Emitted(r, [], vars.cells, pg.trace);
        return;
      }
      ghost var rest := Emit(lib, pg, batches, k + 1, vars.cells, pg.trace);
      ghost var x: seq<map<string, Value>> := if one.Some? then [one.value] else [];
      assert Continues(e, x, rest);
      ContinuesFurther(whole, sent, e, x, rest);
      if one.Some? {
        sent := sent + [one.value];
      } else {
        assert sent + x == sent;
      }
      assert Continues(whole, sent, rest);
      k := k + 1;
      assert rest == Emit(lib, pg, batches, k, vars.cells, pg.trace);
    }
    r := Done;
  }
}
