/** What the two engine entry points promise: a configured pipeline runs
    its steps all or nothing, a stream passes failing steps and unbuildable
    batches over, and the preflight decides before anything reaches the
    browser. */
module EngineFacts {
  import opened Base
  import opened Foreign
  import opened Variables
  import opened Driver
  import opened Steps
  import opened StepExec
  import opened Middlewares
  import opened Engine
  import VarInit

  // ---------------------------------------------------------------------
  // A list of steps, step by step.

  /** Step `i` run on the world the steps before it left. */
  function StepRun(lib: Libraries, pg: Page, plans: seq<Plan>, i: nat, w: World): Handled
    requires i < |plans|
  {
    Handle(lib, pg, Standard, plans[i], Stage(lib, pg, plans, i, w))
  }

  /** Each of the first `n` steps succeeds on the world it is handed. */
  predicate AllSucceed(lib: Libraries, pg: Page, plans: seq<Plan>, n: nat, w: World)
    requires n <= |plans|
  {
    forall i :: 0 <= i < n ==> StepRun(lib, pg, plans, i, w).outcome.Ok?
  }

  /** None of the first `n` steps panics on the world it is handed. */
  predicate NonePanics(lib: Libraries, pg: Page, plans: seq<Plan>, n: nat, w: World)
    requires n <= |plans|
  {
    forall i :: 0 <= i < n ==> !StepRun(lib, pg, plans, i, w).outcome.Panic?
  }

  /** While every step succeeds, batch mode goes on from where they left
      the world. */
  lemma {:induction false} RunAllReaches(lib: Libraries, pg: Page, plans: seq<Plan>, n: nat, w: World)
    requires n <= |plans| && AllSucceed(lib, pg, plans, n, w)
    ensures RunAll(lib, pg, plans, 0, w) == RunAll(lib, pg, plans, n, Stage(lib, pg, plans, n, w))
  {
    if n > 0 {
      assert StepRun(lib, pg, plans, n - 1, w).outcome.Ok?;
      RunAllReaches(lib, pg, plans, n - 1, w);
    }
  }

  /** The first step that does not succeed, when there is one. */
  lemma {:induction false} FirstFailing(lib: Libraries, pg: Page, plans: seq<Plan>, n: nat, w: World) returns (i: nat)
    requires n <= |plans| && !AllSucceed(lib, pg, plans, n, w)
    ensures i < n && AllSucceed(lib, pg, plans, i, w) && !StepRun(lib, pg, plans, i, w).outcome.Ok?
  {
    if AllSucceed(lib, pg, plans, n - 1, w) {
      i := n - 1;
    } else {
      i := FirstFailing(lib, pg, plans, n - 1, w);
    }
  }

  /** The first step that fails ends a configured run, with its own
      outcome and the world it left. */
  lemma FirstFailureEndsRun(lib: Libraries, pg: Page, plans: seq<Plan>, i: nat, w: World)
    requires i < |plans| && AllSucceed(lib, pg, plans, i, w) && !StepRun(lib, pg, plans, i, w).outcome.Ok?
    ensures RunAll(lib, pg, plans, 0, w) == Looped(StepRun(lib, pg, plans, i, w).outcome, StepRun(lib, pg, plans, i, w).world)
  {
    RunAllReaches(lib, pg, plans, i, w);
  }

  /** A configured run succeeds exactly when every step does, and then
      ends on the world the last step left. */
  lemma AllOrNothing(lib: Libraries, pg: Page, plans: seq<Plan>, w: World)
    ensures RunAll(lib, pg, plans, 0, w).outcome.Ok? <==> AllSucceed(lib, pg, plans, |plans|, w)
    ensures AllSucceed(lib, pg, plans, |plans|, w) ==>
              RunAll(lib, pg, plans, 0, w) == Looped(Done, Stage(lib, pg, plans, |plans|, w))
  {
    if AllSucceed(lib, pg, plans, |plans|, w) {
      RunAllReaches(lib, pg, plans, |plans|, w);
    } else {
      var i := FirstFailing(lib, pg, plans, |plans|, w);
      FirstFailureEndsRun(lib, pg, plans, i, w);
    }
  }

  /** While no step panics, streaming mode goes on from where they left
      the world, failures included. */
  lemma {:induction false} RunBatchReaches(lib: Libraries, pg: Page, plans: seq<Plan>, n: nat, w: World)
    requires n <= |plans| && NonePanics(lib, pg, plans, n, w)
    ensures RunBatch(lib, pg, plans, 0, w) == RunBatch(lib, pg, plans, n, Stage(lib, pg, plans, n, w))
  {
    if n > 0 {
      assert !StepRun(lib, pg, plans, n - 1, w).outcome.Panic?;
      RunBatchReaches(lib, pg, plans, n - 1, w);
    }
  }

  /** The first step that panics, when there is one. */
  lemma {:induction false} FirstPanicking(lib: Libraries, pg: Page, plans: seq<Plan>, n: nat, w: World) returns (i: nat)
    requires n <= |plans| && !NonePanics(lib, pg, plans, n, w)
    ensures i < n && NonePanics(lib, pg, plans, i, w) && StepRun(lib, pg, plans, i, w).outcome.Panic?
  {
    if NonePanics(lib, pg, plans, n - 1, w) {
      i := n - 1;
    } else {
      i := FirstPanicking(lib, pg, plans, n - 1, w);
    }
  }

  /** A batch runs every step, failing ones included, unless one panics;
      it never ends in an error. */
  lemma BatchRunsEveryStep(lib: Libraries, pg: Page, plans: seq<Plan>, w: World)
    ensures RunBatch(lib, pg, plans, 0, w).outcome.Panic? <==> !NonePanics(lib, pg, plans, |plans|, w)
    ensures NonePanics(lib, pg, plans, |plans|, w) ==>
              RunBatch(lib, pg, plans, 0, w) == Looped(Done, Stage(lib, pg, plans, |plans|, w))
    ensures !NonePanics(lib, pg, plans, |plans|, w) ==>
              exists i :: 0 <= i < |plans| && NonePanics(lib, pg, plans, i, w) &&
                RunBatch(lib, pg, plans, 0, w) == Looped(StepRun(lib, pg, plans, i, w).outcome, StepRun(lib, pg, plans, i, w).world)
  {
    if NonePanics(lib, pg, plans, |plans|, w) {
      RunBatchReaches(lib, pg, plans, |plans|, w);
    } else {
      var i := FirstPanicking(lib, pg, plans, |plans|, w);
      RunBatchReaches(lib, pg, plans, i, w);
    }
  }

  // ---------------------------------------------------------------------
  // ExecuteConfig.

  /** Bad variables are reported before the browser is started, by both
      entry points, and nothing reaches the page. */
  lemma PreflightComesFirst(lib: Libraries, pw: Playwright, pg: Page, config: Pipeline,
                            batches: seq<seq<Decl>>, rnd: VarInit.RandomString, trace: seq<Call>)
    requires VarInit.Declare(config.vars, rnd).Err?
    ensures Configured(lib, pw, pg, config, rnd, trace) ==
            Finished(Err(Wrap("preflight check failed: ", VarInit.Declare(config.vars, rnd).error)), trace)
    ensures Streamed(lib, pw, pg, config, batches, rnd, trace) ==
            Emitted(Err(Wrap("preflight check failed: ", VarInit.Declare(config.vars, rnd).error)), [], map[], trace)
  {
  }

  /** A configuration without steps is refused whatever Playwright would
      do, while a stream does not look at the configured steps at all. */
  lemma NoStepsRefused(lib: Libraries, pw: Playwright, pg: Page, config: Pipeline,
                       batches: seq<seq<Decl>>, rnd: VarInit.RandomString, trace: seq<Call>)
    requires VarInit.Declare(config.vars, rnd).Ok? && |config.steps| == 0
    ensures Configured(lib, pw, pg, config, rnd, trace) ==
            Finished(Err(Message("pipeline has no steps, preflight check failed")), trace)
    ensures Launched(pw, config.browser).Ok? ==>
              Streamed(lib, pw, pg, config, batches, rnd, trace) ==
              Emit(lib, pg, batches, 0, VarInit.Declare(config.vars, rnd).value, trace)
  {
  }

  /** A browser that cannot be had ends both entry points with
      Playwright's failure, before any step. */
  lemma LaunchFailureStops(lib: Libraries, pw: Playwright, pg: Page, config: Pipeline,
                           batches: seq<seq<Decl>>, rnd: VarInit.RandomString, trace: seq<Call>)
    requires VarInit.Declare(config.vars, rnd).Ok? && !Launched(pw, config.browser).Ok?
    ensures |config.steps| > 0 ==>
              Configured(lib, pw, pg, config, rnd, trace) ==
              Finished(Launched(pw, config.browser).PropagateFailure(), trace)
    ensures Streamed(lib, pw, pg, config, batches, rnd, trace) ==
            Emitted(Launched(pw, config.browser), [], VarInit.Declare(config.vars, rnd).value, trace)
  {
  }

  /** An unsupported browser type is named in the failure. */
  lemma UnsupportedBrowser(pw: Playwright, browserType: string)
    requires pw.start.Ok? && browserType !in {"chromium", "firefox", "webkit"}
    ensures Launched(pw, browserType) == Err(Message("unsupported browser type: " + browserType))
  {
  }

  /** Once everything is in place, a configured run returns the results of
      its steps exactly when every step succeeds, and no step runs unless
      all were built. */
  lemma ConfiguredAllOrNothing(lib: Libraries, pw: Playwright, pg: Page, config: Pipeline,
                               rnd: VarInit.RandomString, trace: seq<Call>)
    requires VarInit.Declare(config.vars, rnd).Ok? && |config.steps| > 0 && Launched(pw, config.browser).Ok?
    ensures !BuildPlans(lib, config.steps).Ok? ==>
              Configured(lib, pw, pg, config, rnd, trace) ==
              Finished(BuildPlans(lib, config.steps).PropagateFailure(), trace)
    ensures BuildPlans(lib, config.steps).Ok? ==>
              var plans, w := BuildPlans(lib, config.steps).value, World(VarInit.Declare(config.vars, rnd).value, map[], trace);
              (Configured(lib, pw, pg, config, rnd, trace).result.Ok? <==> AllSucceed(lib, pg, plans, |plans|, w)) &&
              (AllSucceed(lib, pg, plans, |plans|, w) ==>
                 Configured(lib, pw, pg, config, rnd, trace) ==
                 Finished(Ok(Stage(lib, pg, plans, |plans|, w).results), Stage(lib, pg, plans, |plans|, w).trace))
  {
    if BuildPlans(lib, config.steps).Ok? {
      var plans, w := BuildPlans(lib, config.steps).value, World(VarInit.Declare(config.vars, rnd).value, map[], trace);
      AllOrNothing(lib, pg, plans, w);
    }
  }

  // ---------------------------------------------------------------------
  // ExecuteStream.

  /** How many of the batches from `k` on build. */
  function Buildable(lib: Libraries, batches: seq<seq<Decl>>, k: nat): (n: nat)
    requires k <= |batches|
    ensures n <= |batches| - k
    decreases |batches| - k
  {
    if k == |batches| then 0
    else (if BuildPlans(lib, batches[k]).Ok? then 1 else 0) + Buildable(lib, batches, k + 1)
  }

  /** A stream ends either when its batches run out or on a panic: a
      failing step or batch never ends it. */
  lemma {:induction false} StreamEndsOnlyOnPanic(lib: Libraries, pg: Page, batches: seq<seq<Decl>>, k: nat,
                                                 cells: map<string, Cell>, trace: seq<Call>)
    requires k <= |batches|
    ensures Emit(lib, pg, batches, k, cells, trace).outcome == Done || Emit(lib, pg, batches, k, cells, trace).outcome.Panic?
    decreases |batches| - k
  {
    if k < |batches| {
      var b := OneBatch(lib, pg, batches[k], cells, trace);
      if !b.outcome.Panic? {
        StreamEndsOnlyOnPanic(lib, pg, batches, k + 1, b.cells, b.trace);
      }
    }
  }

  /** A stream that does not panic sends one result map for every batch
      that builds, and none for the others. */
  lemma {:induction false} OneMapPerBuiltBatch(lib: Libraries, pg: Page, batches: seq<seq<Decl>>, k: nat,
                                               cells: map<string, Cell>, trace: seq<Call>)
    requires k <= |batches| && !Emit(lib, pg, batches, k, cells, trace).outcome.Panic?
    ensures |Emit(lib, pg, batches, k, cells, trace).maps| == Buildable(lib, batches, k)
    decreases |batches| - k
  {
    if k < |batches| {
      var b := OneBatch(lib, pg, batches[k], cells, trace);
      assert !b.outcome.Panic?;
      OneMapPerBuiltBatch(lib, pg, batches, k + 1, b.cells, b.trace);
    }
  }

  /** A batch that does not build is passed over: no map is sent and the
      store and the page are as they were. */
  lemma UnbuildableBatchSkipped(lib: Libraries, pg: Page, batches: seq<seq<Decl>>, k: nat,
                                cells: map<string, Cell>, trace: seq<Call>)
    requires k < |batches| && BuildPlans(lib, batches[k]).Err?
    ensures Emit(lib, pg, batches, k, cells, trace) == Emit(lib, pg, batches, k + 1, cells, trace)
  {
    assert OneBatch(lib, pg, batches[k], cells, trace) == BatchResult(Done, None, cells, trace);
  }

  /** An empty batch sends an empty result map and changes nothing. */
  lemma EmptyBatchSendsEmptyMap(lib: Libraries, pg: Page, batches: seq<seq<Decl>>, k: nat,
                                cells: map<string, Cell>, trace: seq<Call>)
    requires k < |batches| && batches[k] == []
    ensures Emit(lib, pg, batches, k, cells, trace) ==
            Emit(lib, pg, batches, k + 1, cells, trace).(maps := [map[]] + Emit(lib, pg, batches, k + 1, cells, trace).maps)
  {
    assert BuildPlans(lib, batches[k]) == Ok([]);
    assert OneBatch(lib, pg, batches[k], cells, trace) == BatchResult(Done, Some(map[]), cells, trace);
  }
}
