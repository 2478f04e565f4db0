/** The step registry of engine/steps: one selector per step kind, each a
    `CanHandle` test and a builder, consulted in registration order by
    `BuildSteps`. A builder reads and validates every key it needs up front;
    what it produces is a `Plan`, and only the select step, whose option
    lists its execution rewrites, becomes an object. */
module Steps {
  import opened Base
  import opened Text
  import opened Foreign
  import Utils

  // ---------------------------------------------------------------------
  // The registry.

  /** The step kinds, one per file of engine/steps. */
  datatype Kind =
    | Click | Config | Debug | Eval | Fill | Element | Goto
    | Mouse | Nop | Omit | Screenshot | Select | Sleep

  /** The order in which the `init` functions append to `stepSelectors`:
      Go runs them in file-name order. */
  const Registry: seq<Kind> :=
    [Click, Config, Debug, Eval, Fill, Element, Goto, Mouse, Nop, Omit, Screenshot, Select, Sleep]

  /** The key a kind is recognised by. */
  function KeyOf(k: Kind): string
  {
    match k
    case Click => "click"
    case Config => "config"
    case Debug => "debug"
    case Eval => "eval"
    case Fill => "fill"
    case Element => "element"
    case Goto => "goto"
    case Mouse => "mouse"
    case Nop => "nop"
    case Omit => "omit"
    case Screenshot => "screenshot"
    case Select => "select"
    case Sleep => "sleep"
  }

  /** A selector's `CanHandle`: the kind's key holds a string, or a map for
      `config`; the nop selector also takes a string `loop`, which is what
      lets a bare loop step through the registry. */
  predicate CanHandle(k: Kind, d: Decl)
  {
    match k
    case Config => "config" in d && d["config"].VMap?
    case Nop => StringAt(d, "nop").Some? || StringAt(d, "loop").Some?
    case _ => StringAt(d, KeyOf(k)).Some?
  }

  /** The first selector at or after position `from` that accepts `d`. */
  function FirstHandler(d: Decl, from: nat): (r: Option<nat>)
    ensures r.Some? ==> from <= r.value < |Registry| && CanHandle(Registry[r.value], d)
    ensures r.Some? ==> forall j :: from <= j < r.value ==> !CanHandle(Registry[j], d)
    ensures r.None? ==> forall j :: from <= j < |Registry| ==> !CanHandle(Registry[j], d)
    decreases |Registry| - from
  {
    if from >= |Registry| then None
    else if CanHandle(Registry[from], d) then Some(from)
    else FirstHandler(d, from + 1)
  }

  /** The kind `BuildSteps` hands a declaration to, if any. */
  function Dispatch(d: Decl): Option<Kind>
  {
    match FirstHandler(d, 0)
    case Some(i) => Some(Registry[i])
    case None => None
  }

  // ---------------------------------------------------------------------
  // What the builders produce.

  /** `GetTextMode`. */
  datatype Mode = HtmlMode | ValueMode | TextMode | TableMode

  /** `validModes`. */
  function ModeOf(name: string): (m: Option<Mode>)
    ensures m.Some? <==> name in {"html", "value", "text", "table"}
  {
    if name == "html" then Some(HtmlMode)
    else if name == "value" then Some(ValueMode)
    else if name == "text" then Some(TextMode)
    else if name == "table" then Some(TableMode)
    else None
  }

  /** The four option lists of a select step. */
  datatype OptionLists = OptionLists(
    values: seq<string>,
    valuesOrLabels: seq<string>,
    labels: seq<string>,
    indexes: seq<string>)
  {
    predicate IsEmpty()
    {
      values == [] && valuesOrLabels == [] && labels == [] && indexes == []
    }
  }

  /** A built step: the fields of the Go struct. `conf` is what
      `GetConfig` returns; the omit and element steps keep none. */
  datatype Plan =
    | ClickPlan(locator: string, opts: Options, conf: Decl)
    | ConfigPlan(params: map<string, Value>, conf: Decl)
    | DebugPlan(text: string, conf: Decl)
    | EvalPlan(locator: string, code: string, opts: Options, conf: Decl)
    | FillPlan(locator: string, value: string, opts: Options, conf: Decl)
    | ElementPlan(locator: string, mode: Mode, opts: Options)
    | GotoPlan(url: string, opts: Options, conf: Decl)
    | MousePlan(x: Number, y: Number, action: string, conf: Decl)
    | NopPlan(text: string, conf: Decl)
    | OmitPlan(variable: string)
    | ScreenshotPlan(locator: string, opts: Options, conf: Decl)
    | SelectPlan(locator: string, lists: OptionLists, opts: Options, conf: Decl)
    | SleepPlan(duration: string, conf: Decl)

  /** `GetConfig()`: a nil map, which reads as empty, for the omit and
      element steps. */
  function PlanConf(p: Plan): Decl
  {
    match p
    case ElementPlan(_, _, _) => map[]
    case OmitPlan(_) => map[]
    case ClickPlan(_, _, conf) => conf
    case ConfigPlan(_, conf) => conf
    case DebugPlan(_, conf) => conf
    case EvalPlan(_, _, _, conf) => conf
    case FillPlan(_, _, _, conf) => conf
    case GotoPlan(_, _, conf) => conf
    case MousePlan(_, _, _, conf) => conf
    case NopPlan(_, conf) => conf
    case ScreenshotPlan(_, _, conf) => conf
    case SelectPlan(_, _, _, conf) => conf
    case SleepPlan(_, conf) => conf
  }

  // ---------------------------------------------------------------------
  // The builders.

  /** `%v` of the declaration, as error messages print it. */
  function Show(lib: Libraries, d: Decl): string
  {
    Sprint(lib, VMap(d))
  }

  function BuildClick(lib: Libraries, d: Decl): (r: Result<Plan>)
    ensures r.Ok? ==> r.value.ClickPlan? && r.value.conf == d
  {
    match StringAt(d, "click")
    case None => Err(Message("expected 'click' key to be a string, got: " + TypeAt(d, "click")))
    case Some(locator) =>
      var opts :- LoadParams(lib, ClickOptions, d);
      Ok(ClickPlan(locator, opts, d))
  }

  function BuildConfig(lib: Libraries, d: Decl): (r: Result<Plan>)
    ensures r.Ok? ==> r.value.ConfigPlan? && r.value.conf == d
  {
    if "config" in d && d["config"].VMap? then Ok(ConfigPlan(d["config"].entries, d))
    else Err(Message("field to build config node"))
  }

  function BuildDebug(lib: Libraries, d: Decl): (r: Result<Plan>)
    ensures r.Ok? ==> r.value.DebugPlan? && r.value.conf == d
  {
    match StringAt(d, "debug")
    case None => Err(Message("field to build debug node"))
    case Some(text) => Ok(DebugPlan(text, d))
  }

  function BuildEval(lib: Libraries, d: Decl): (r: Result<Plan>)
    ensures r.Ok? ==> r.value.EvalPlan? && r.value.conf == d
  {
    var locator := match StringAt(d, "locator") case Some(l) => l case None => "";
    match StringAt(d, "eval")
    case None => Err(Message("eval step must have a string input for 'eval' key, got: " + TypeAt(d, "eval")))
    case Some(code) =>
      var opts :- LoadParams(lib, EvaluateOptions, d);
      Ok(EvalPlan(locator, code, opts, d))
  }

  function BuildFill(lib: Libraries, d: Decl): (r: Result<Plan>)
    ensures r.Ok? ==> r.value.FillPlan? && r.value.conf == d
  {
    match StringAt(d, "fill")
    case None => Err(Message("expected 'fill' to be a string, got: " + TypeAt(d, "fill")))
    case Some(locator) =>
      match StringAt(d, "value")
      case None => Err(Message("expected 'value' to be a string, got: " + TypeAt(d, "value")))
      case Some(value) =>
        var opts :- LoadParams(lib, FillOptions, d);
        Ok(FillPlan(locator, value, opts, d))
  }

  /** `BuildElementSelector`. */
  function BuildElement(lib: Libraries, d: Decl): (r: Result<Plan>)
    ensures r.Ok? ==> r.value.ElementPlan?
  {
    var locator := match StringAt(d, "element") case Some(l) => l case None => "";
    var mode :-
      match StringAt(d, "mode")
      case Some(name) =>
        if name == "" then Ok(HtmlMode)
        else if ModeOf(name).Some? then Ok(ModeOf(name).value)
        else Err(Message("selected mode is not in valid modes"))
      case None => Ok(HtmlMode);
    var opts :- LoadParams(lib, EvaluateOptions, d);
    Ok(ElementPlan(locator, mode, opts))
  }

  function BuildGoto(lib: Libraries, d: Decl): (r: Result<Plan>)
    ensures r.Ok? ==> r.value.GotoPlan? && r.value.conf == d
  {
    match StringAt(d, "goto")
    case None => Err(Message("goto must have a string url field, got: " + Show(lib, d)))
    case Some(url) =>
      var opts :- LoadParams(lib, GotoOptions, d);
      Ok(GotoPlan(url, opts, d))
  }

  /** `buildMouse`: `"x,y"` split at the comma, each half parsed as a
      float with nothing trimmed; an `action` that is present must be a
      string (the type assertion panics otherwise) and defaults to click. */
  function BuildMouse(lib: Libraries, d: Decl): (r: Result<Plan>)
    ensures r.Ok? ==> r.value.MousePlan? && r.value.conf == d
  {
    match StringAt(d, "mouse")
    case None => Err(Message("expected 'click' key to be a string, got: " + TypeAt(d, "click")))
    case Some(location) =>
      var points := Split(location, ',');
      if |points| != 2 then
        Err(Message("expected 'mouse' key to be a string with 2 points, got: " + TypeAt(d, "mouse")))
      else
        match (ParseFloat(lib, points[0]), ParseFloat(lib, points[1]))
        case (Some(x), Some(y)) =>
          if "action" !in d then Ok(MousePlan(x, y, "click", d))
          else if d["action"].VStr? then Ok(MousePlan(x, y, d["action"].s, d))
          else Panic("interface conversion: interface {} is " + AssertedType(d["action"]) + ", not string")
        case _ =>
          Err(Message("expected 'mouse' key to be a string with 2 int points, got: " + TypeAt(d, "mouse")))
  }

  /** The dynamic type a failed type assertion names: unlike `%T`, the
      runtime calls a nil interface "nil". */
  function AssertedType(v: Value): string
  {
    if v.VNull? then "nil" else TypeName(v)
  }

  /** `buildNop`: the text of `nop`, else of `loop`. */
  function BuildNop(lib: Libraries, d: Decl): (r: Result<Plan>)
    ensures r.Ok? ==> r.value.NopPlan? && r.value.conf == d
  {
    match StringAt(d, "nop")
    case Some(text) => Ok(NopPlan(text, d))
    case None =>
      match StringAt(d, "loop")
      case Some(text) => Ok(NopPlan(text, d))
      case None => Err(Message("field to build nop node"))
  }

  /** `buildOmit`: the declaration itself is not kept. */
  function BuildOmit(lib: Libraries, d: Decl): (r: Result<Plan>)
    ensures r.Ok? ==> r.value.OmitPlan?
  {
    match StringAt(d, "omit")
    case None => Err(Message("expected 'click' key to be a string, got: " + TypeAt(d, "click")))
    case Some(variable) => Ok(OmitPlan(variable))
  }

  function BuildScreenshot(lib: Libraries, d: Decl): (r: Result<Plan>)
    ensures r.Ok? ==> r.value.ScreenshotPlan? && r.value.conf == d
  {
    match StringAt(d, "screenshot")
    case None => Err(Message("screenshot must have a string input, got: " + Show(lib, d)))
    case Some(locator) =>
      var opts :- LoadParams(lib, ScreenshotOptions, d);
      Ok(ScreenshotPlan(locator, opts, d))
  }

  /** `SingleOrMulti[string](d, key)`. */
  function Strings(d: Decl, key: string): seq<string>
  {
    Utils.ValuesAt(d, key, Utils.AsString, Utils.AsStrings) + Utils.ValuesAt(d, key + "s", Utils.AsString, Utils.AsStrings)
  }

  /** The option lists `buildSelect` collects. */
  function CollectLists(d: Decl): OptionLists
  {
    OptionLists(
      Strings(d, "value"),
      Strings(d, "value_or_label") + Strings(d, "values_or_label"),
      Strings(d, "label"),
      Strings(d, "index"))
  }

  function BuildSelect(lib: Libraries, d: Decl): (r: Result<Plan>)
    ensures r.Ok? ==> r.value.SelectPlan? && r.value.conf == d
  {
    match StringAt(d, "select")
    case None => Err(Message("select must have a string input, got: " + Show(lib, d)))
    case Some(locator) =>
      var lists := CollectLists(d);
      if lists.IsEmpty() then Err(Message("no valid selection options found, step: " + Show(lib, d)))
      else
        var opts :- LoadParams(lib, SelectOptions, d);
        Ok(SelectPlan(locator, lists, opts, d))
  }

  function BuildSleep(lib: Libraries, d: Decl): (r: Result<Plan>)
    ensures r.Ok? ==> r.value.SleepPlan? && r.value.conf == d
  {
    match StringAt(d, "sleep")
    case None => Err(Message("sleep must have a string input, got: " + Show(lib, d)))
    case Some(duration) => Ok(SleepPlan(duration, d))
  }

  /** A selector's `Generator` field. */
  function GeneratorOf(k: Kind): (Libraries, Decl) -> Result<Plan>
  {
    match k
    case Click => BuildClick
    case Config => BuildConfig
    case Debug => BuildDebug
    case Eval => BuildEval
    case Fill => BuildFill
    case Element => BuildElement
    case Goto => BuildGoto
    case Mouse => BuildMouse
    case Nop => BuildNop
    case Omit => BuildOmit
    case Screenshot => BuildScreenshot
    case Select => BuildSelect
    case Sleep => BuildSleep
  }

  function Generator(lib: Libraries, k: Kind, d: Decl): Result<Plan>
  {
    GeneratorOf(k)(lib, d)
  }

  /** One declaration through the registry: the first accepting selector
      builds it, and its error is wrapped. */
  function BuildPlan(lib: Libraries, d: Decl): (r: Result<Plan>)
    ensures Dispatch(d).None? ==> r == Err(Message("no handler found for step: " + Show(lib, d)))
    ensures r.Ok? ==> Dispatch(d).Some? && Generator(lib, Dispatch(d).value, d) == r
  {
    match Dispatch(d)
    case None => Err(Message("no handler found for step: " + Show(lib, d)))
    case Some(k) =>
      match Generator(lib, k, d)
      case Ok(p) => Ok(p)
      case Err(e) => Err(Wrap("error generating step: ", e))
      case Panic(p) => Panic(p)
  }

  /** The first `n` declarations built in order by `build`, or the failure
      of the first one that does not build: no partial list. */
  function BuildAll<T>(build: Decl -> Result<T>, ds: seq<Decl>, n: nat): (r: Result<seq<T>>)
    requires n <= |ds|
    ensures r.Ok? <==> forall i :: 0 <= i < n ==> build(ds[i]).Ok?
    ensures r.Ok? ==> |r.value| == n && forall i :: 0 <= i < n ==> build(ds[i]) == Ok(r.value[i])
  {
    if n == 0 then Ok([])
    else
      match BuildAll(build, ds, n - 1)
      case Ok(prev) =>
        (match build(ds[n - 1])
         case Ok(p) => Ok(prev + [p])
         case Err(e) => Err(e)
         case Panic(p) => Panic(p))
      case Err(e) => Err(e)
      case Panic(p) => Panic(p)
  }

  function Builder(lib: Libraries): Decl -> Result<Plan>
  {
    d => BuildPlan(lib, d)
  }

  function BuildPlans(lib: Libraries, ds: seq<Decl>): Result<seq<Plan>>
  {
    BuildAll(Builder(lib), ds, |ds|)
  }

  // ---------------------------------------------------------------------
  // Built steps.

  /** `selectStep`: the option lists are rewritten by every execution;
      `built` remembers the lists the builder gave it. */
  class SelectStep {
    const locator: string
    ghost const built: OptionLists
    var values: seq<string>
    var valuesOrLabels: seq<string>
    var labels: seq<string>
    var indexes: seq<string>
    const opts: Options
    const conf: Decl

    constructor(locator: string, lists: OptionLists, opts: Options, conf: Decl)
      ensures this.locator == locator && built == lists && this.opts == opts && this.conf == conf
      ensures Lists() == built
    {
      this.locator := locator;
      built := lists;
      values := lists.values;
      valuesOrLabels := lists.valuesOrLabels;
      labels := lists.labels;
      indexes := lists.indexes;
      this.opts := opts;
      this.conf := conf;
    }

    function Lists(): OptionLists
      reads this
    {
      OptionLists(values, valuesOrLabels, labels, indexes)
    }
  }

  /** A value of the `Step` interface. */
  datatype Step = Plain(plan: Plan) | Stateful(sel: SelectStep)

  function Objects(s: Step): set<object>
  {
    if s.Stateful? then {s.sel} else {}
  }

  /** The objects among a list of steps. */
  function Selects(steps: seq<Step>): set<SelectStep>
  {
    set i | 0 <= i < |steps| && steps[i].Stateful? :: steps[i].sel
  }

  function ConfOf(s: Step): Decl
  {
    if s.Stateful? then s.sel.conf else PlanConf(s.plan)
  }

  /** A select step still holds the lists it was built with. */
  ghost predicate Untouched(s: Step)
    reads Objects(s)
  {
    s.Stateful? ==> s.sel.Lists() == s.sel.built
  }

  /** No select object appears twice in a list of steps. */
  predicate Distinct(steps: seq<Step>)
  {
    forall i, j :: 0 <= i < j < |steps| && steps[i].Stateful? && steps[j].Stateful? ==> steps[i].sel != steps[j].sel
  }

  lemma SelectsAppend(steps: seq<Step>, s: Step)
    ensures Selects(steps + [s]) == Selects(steps) + Objects(s)
  {
    var t := steps + [s];
    assert forall i :: 0 <= i < |steps| ==> t[i] == steps[i];
    assert t[|steps|] == s;
  }

  /** Steps built so far: each realises its plan and still holds the lists
      it was built with, and no object appears twice. */
  ghost predicate Built(steps: seq<Step>, plans: seq<Plan>)
    reads Selects(steps)
  {
    |steps| == |plans| && Distinct(steps) &&
    forall i :: 0 <= i < |steps| ==> Realises(steps[i], plans[i]) && Untouched(steps[i])
  }

  /** A new step built from the next plan extends what was built. */
  lemma BuiltAppend(steps: seq<Step>, plans: seq<Plan>, s: Step, p: Plan)
    requires Built(steps, plans) && Realises(s, p) && Untouched(s) && Objects(s) !! Selects(steps)
    ensures Built(steps + [s], plans + [p])
  {
    var t, q := steps + [s], plans + [p];
    forall i, j | 0 <= i < j < |t| && t[i].Stateful? && t[j].Stateful?
      ensures t[i].sel != t[j].sel
    {
      if j == |steps| {
        assert t[i] == steps[i] && steps[i].sel in Selects(steps);
      }
    }
    forall i | 0 <= i < |t|
      ensures Realises(t[i], q[i]) && Untouched(t[i])
    {
      if i < |steps| {
        assert t[i] == steps[i] && q[i] == plans[i];
      }
    }
  }

  /** The step is the plan; a select step was built with the plan's lists. */
  ghost predicate Realises(s: Step, p: Plan)
  {
    match s
    case Plain(q) => q == p && !p.SelectPlan?
    case Stateful(sel) =>
      p.SelectPlan? && sel.locator == p.locator && sel.built == p.lists && sel.opts == p.opts && sel.conf == p.conf
  }

  lemma RealisedConf(s: Step, p: Plan)
    requires Realises(s, p)
    ensures ConfOf(s) == PlanConf(p)
  {
  }

  /** `buildSelect` as the source runs it: the option lists are gathered
      with `SingleOrMulti`, and the step is a fresh object. */
  method NewSelect(lib: Libraries, d: Decl) returns (r: Result<Step>)
    ensures r.Ok? <==> BuildSelect(lib, d).Ok?
    ensures !r.Ok? ==> r == BuildSelect(lib, d).PropagateFailure()
    ensures r.Ok? ==> r.value.Stateful? && fresh(r.value.sel) && r.value.sel.Lists() == r.value.sel.built
    ensures r.Ok? ==> Realises(r.value, BuildSelect(lib, d).value)
  {
    var locator := StringAt(d, "select");
    if locator.None? {
      return Err(Message("select must have a string input, got: " + Show(lib, d)));
    }
    var values := Utils.SingleOrMulti(d, "value", Utils.AsString, Utils.AsStrings);
    var valuesOrLabels := Utils.SingleOrMulti(d, "value_or_label", Utils.AsString, Utils.AsStrings);
    var more := Utils.SingleOrMulti(d, "values_or_label", Utils.AsString, Utils.AsStrings);
    valuesOrLabels := valuesOrLabels + more;
    var labels := Utils.SingleOrMulti(d, "label", Utils.AsString, Utils.AsStrings);
    var indexes := Utils.SingleOrMulti(d, "index", Utils.AsString, Utils.AsStrings);
    var lists := OptionLists(values, valuesOrLabels, labels, indexes);
    assert lists == CollectLists(d);
    if |values| + |valuesOrLabels| + |labels| + |indexes| == 0 {
      return Err(Message("no valid selection options found, step: " + Show(lib, d)));
    }
    var opts := LoadParams(lib, SelectOptions, d);
    if !opts.Ok? {
      return opts.PropagateFailure();
    }
    var sel := new SelectStep(locator.value, lists, opts.value, d);
    r := Ok(Stateful(sel));
  }

  /** A selector's `Generator` call. */
  method Generate(lib: Libraries, k: Kind, d: Decl) returns (r: Result<Step>)
    ensures r.Ok? <==> Generator(lib, k, d).Ok?
    ensures r.Ok? ==> Realises(r.value, Generator(lib, k, d).value)
    ensures r.Ok? ==> fresh(Objects(r.value)) && Untouched(r.value)
    ensures !r.Ok? ==> r == Generator(lib, k, d).PropagateFailure()
  {
    if k == Select {
      r := NewSelect(lib, d);
    } else {
      var p := Generator(lib, k, d);
      if p.Ok? {
        GeneratorShape(lib, k, d);
      }
      if p.Ok? {
        r := Ok(Plain(p.value));
      } else {
        r := p.PropagateFailure();
      }
    }
  }

  /** The body of `BuildSteps`' outer loop: the selectors are tried in
      registration order until one accepts, and its builder runs. */
  method BuildStep(lib: Libraries, d: Decl) returns (r: Result<Step>)
    ensures r.Ok? <==> BuildPlan(lib, d).Ok?
    ensures !r.Ok? ==> r == BuildPlan(lib, d).PropagateFailure()
    ensures r.Ok? ==> Realises(r.value, BuildPlan(lib, d).value)
    ensures r.Ok? ==> fresh(Objects(r.value)) && Untouched(r.value)
  {
    var j := 0;
    while j < |Registry|
      invariant 0 <= j <= |Registry|
      invariant forall l :: 0 <= l < j ==> !CanHandle(Registry[l], d)
    {
      if CanHandle(Registry[j], d) {
        FirstHandlerIs(d, j);
        var step := Generate(lib, Registry[j], d);
        if step.Err? {
          return Err(Wrap("error generating step: ", step.error));
        }
        return step;
      }
      j := j + 1;
    }
    assert FirstHandler(d, 0).None?;
    return Err(Message("no handler found for step: " + Show(lib, d)));
  }

  /** `BuildSteps`: every declaration is built in order, and the first
      that fails, because its builder fails or no selector accepts it,
      fails the whole build. */
  method BuildSteps(lib: Libraries, ds: seq<Decl>) returns (r: Result<seq<Step>>)
    ensures r.Ok? <==> BuildPlans(lib, ds).Ok?
    ensures r.Ok? ==> |r.value| == |ds|
    ensures r.Ok? ==> Built(r.value, BuildPlans(lib, ds).value) && fresh(Selects(r.value))
    ensures !r.Ok? ==> r == BuildPlans(lib, ds).PropagateFailure()
  {
    var output: seq<Step> := [];
    ghost var plans: seq<Plan> := [];
    while |output| < |ds|
      invariant Progress(lib, ds, output, plans) && fresh(Selects(output))
      decreases |ds| - |output|
    {
      var next;
      next, plans := BuildNext(lib, ds, output, plans);
      if !next.Ok? {
        return next;
      }
      output := next.value;
    }
    ProgressComplete(lib, ds, output, plans);
    r := Ok(output);
  }

  // ---------------------------------------------------------------------
  // Properties.

  /** What `BuildSteps`' loop keeps: the steps built so far realise the
      plans of the declarations before them. */
  ghost predicate Progress(lib: Libraries, ds: seq<Decl>, output: seq<Step>, plans: seq<Plan>)
    reads Selects(output)
  {
    |output| <= |ds| && BuildAll(Builder(lib), ds, |output|) == Ok(plans) && Built(output, plans)
  }

  /** Once every declaration is built, the plans are those of the whole list. */
  lemma ProgressComplete(lib: Libraries, ds: seq<Decl>, output: seq<Step>, plans: seq<Plan>)
    requires Progress(lib, ds, output, plans) && |output| >= |ds|
    ensures BuildPlans(lib, ds) == Ok(plans) && |output| == |ds| && Built(output, plans)
  {
  }

  /** One round of `BuildSteps`' loop: the next declaration is built and
      its step appended. */
  method BuildNext(lib: Libraries, ds: seq<Decl>, output: seq<Step>, ghost plans: seq<Plan>)
    returns (r: Result<seq<Step>>, ghost more: seq<Plan>)
    requires |output| < |ds| && Progress(lib, ds, output, plans)
    ensures !r.Ok? ==> !BuildPlans(lib, ds).Ok? && r == BuildPlans(lib, ds).PropagateFailure()
    ensures r.Ok? ==> Progress(lib, ds, r.value, more) && |r.value| == |output| + 1
    ensures r.Ok? ==> fresh(Selects(r.value) - Selects(output))
  {
    more := plans;
    var step := BuildStep(lib, ds[|output|]);
    if !step.Ok? {
      FailureStops(Builder(lib), ds, |output| + 1, |ds|);
      return step.PropagateFailure(), more;
    }
    ghost var p := BuildPlan(lib, ds[|output|]).value;
    SelectsAppend(output, step.value);
    BuiltAppend(output, plans, step.value, p);
    BuildAllNext(lib, ds, |output|, plans);
    r, more := Ok(output + [step.value]), plans + [p];
  }

  /** One more declaration that builds extends the built prefix. */
  lemma BuildAllNext(lib: Libraries, ds: seq<Decl>, n: nat, plans: seq<Plan>)
    requires n < |ds| && BuildAll(Builder(lib), ds, n) == Ok(plans) && BuildPlan(lib, ds[n]).Ok?
    ensures BuildAll(Builder(lib), ds, n + 1) == Ok(plans + [BuildPlan(lib, ds[n]).value])
  {
    assert Builder(lib)(ds[n]) == BuildPlan(lib, ds[n]);
  }

  /** A selector that accepts, with none before it accepting, is the one
      chosen: later selectors are not consulted. */
  lemma FirstHandlerIs(d: Decl, j: nat)
    requires j < |Registry| && CanHandle(Registry[j], d)
    requires forall l :: 0 <= l < j ==> !CanHandle(Registry[l], d)
    ensures FirstHandler(d, 0) == Some(j)
    ensures Dispatch(d) == Some(Registry[j])
  {
  }

  /** Once a declaration fails to build, every longer prefix fails the same
      way: no partial list is returned. */
  lemma {:induction false} FailureStops<T>(build: Decl -> Result<T>, ds: seq<Decl>, n: nat, m: nat)
    requires n <= m <= |ds|
    requires !BuildAll(build, ds, n).Ok?
    ensures BuildAll(build, ds, m) == BuildAll(build, ds, n)
    decreases m - n
  {
    if m > n {
      FailureStops(build, ds, n, m - 1);
    }
  }

  /** A declaration no selector accepts fails the whole build with the
      "no handler" error. */
  lemma UnhandledFailsBuild(lib: Libraries, ds: seq<Decl>, j: nat)
    requires j < |ds| && Dispatch(ds[j]).None?
    requires forall i :: 0 <= i < j ==> BuildPlan(lib, ds[i]).Ok?
    ensures BuildPlans(lib, ds) == Err(Message("no handler found for step: " + Show(lib, ds[j])))
  {
    assert BuildAll(Builder(lib), ds, j).Ok?;
    assert BuildAll(Builder(lib), ds, j + 1) == Err(Message("no handler found for step: " + Show(lib, ds[j])));
    FailureStops(Builder(lib), ds, j + 1, |ds|);
  }

  /** A step with a string `loop` and none of the other kinds' keys is a
      nop whose text is the loop expression. */
  lemma BareLoopIsNop(lib: Libraries, d: Decl, loop: string)
    requires "loop" in d && d["loop"] == VStr(loop)
    requires forall k :: k in Registry && k != Nop ==> !CanHandle(k, d)
    requires StringAt(d, "nop").None?
    ensures Dispatch(d) == Some(Nop)
    ensures BuildPlan(lib, d) == Ok(NopPlan(loop, d))
  {
    assert Registry[8] == Nop;
    forall l | 0 <= l < 8 ensures !CanHandle(Registry[l], d) {
      assert Registry[l] in Registry;
    }
    FirstHandlerIs(d, 8);
  }

  /** Keys are tried in registration order: a step carrying both a
      `click` string and a `goto` string is a click. */
  lemma ClickBeforeGoto(lib: Libraries, d: Decl)
    requires StringAt(d, "click").Some? && StringAt(d, "goto").Some?
    ensures Dispatch(d) == Some(Click)
  {
    FirstHandlerIs(d, 0);
  }

  /** The declaration is what `GetConfig` returns, except for the omit and
      element steps, whose `if`, `loop`, `on-error` and `set-var` keys are
      therefore never seen. */
  lemma ConfIsDeclaration(lib: Libraries, k: Kind, d: Decl)
    requires Generator(lib, k, d).Ok?
    ensures PlanConf(Generator(lib, k, d).value) == if k == Omit || k == Element then map[] else d
  {
    GeneratorShape(lib, k, d);
  }

  /** Each kind builds its own plan, and only the select kind a select
      plan. */
  lemma GeneratorShape(lib: Libraries, k: Kind, d: Decl)
    requires Generator(lib, k, d).Ok?
    ensures Generator(lib, k, d).value.SelectPlan? <==> k == Select
    ensures Generator(lib, k, d).value.OmitPlan? <==> k == Omit
    ensures Generator(lib, k, d).value.ElementPlan? <==> k == Element
    ensures k != Omit && k != Element ==> PlanConf(Generator(lib, k, d).value) == d
  {
    match k
    case Click =>
    case Config =>
    case Debug =>
    case Eval =>
    case Fill =>
    case Element =>
    case Goto =>
    case Mouse =>
    case Nop =>
    case Omit =>
    case Screenshot =>
    case Select =>
    case Sleep =>
  }

  /** What one key of a declaration contributes to a select list: a
      string is one entry, a `[]string` its entries, anything else or a
      missing key nothing. */
  function KeyStrings(d: Decl, key: string): seq<string>
  {
    if key !in d then []
    else match d[key]
      case VStr(s) => [s]
      case VStrList(strs) => strs
      case _ => []
  }

  /** The select lists are read from `value`/`values`, then
      `value_or_label`/`value_or_labels` and `values_or_label`/
      `values_or_labels`, then `label`/`labels`, then `index`/`indexs`, a
      single string or a `[]string` each; entries of any other type are
      skipped. */
  lemma SelectListOrder(d: Decl)
    ensures CollectLists(d).values == KeyStrings(d, "value") + KeyStrings(d, "values")
    ensures CollectLists(d).valuesOrLabels ==
              KeyStrings(d, "value_or_label") + KeyStrings(d, "value_or_labels") +
              KeyStrings(d, "values_or_label") + KeyStrings(d, "values_or_labels")
    ensures CollectLists(d).labels == KeyStrings(d, "label") + KeyStrings(d, "labels")
    ensures CollectLists(d).indexes == KeyStrings(d, "index") + KeyStrings(d, "indexs")
  {
    StringsOfKey(d, "value");
    StringsOfKey(d, "value_or_label");
    StringsOfKey(d, "values_or_label");
    StringsOfKey(d, "label");
    StringsOfKey(d, "index");
    assert "value" + "s" == "values" && "label" + "s" == "labels" && "index" + "s" == "indexs";
    assert "value_or_label" + "s" == "value_or_labels" && "values_or_label" + "s" == "values_or_labels";
  }

  lemma StringsOfKey(d: Decl, key: string)
    ensures Strings(d, key) == KeyStrings(d, key) + KeyStrings(d, key + "s")
  {
    Utils.SingleOrMultiStrings(d, key);
    Utils.SingleOrMultiStrings(d, key + "s");
  }

  /** One declaration mixing singular and plural keys, a wrongly typed
      entry and a missing key. */
  lemma SelectListExample(d: Decl, a: string, b: string)
    requires d == map["value" := VStr(a), "values" := VStrList([b]), "indexs" := VStr(b), "index" := VNum(1)]
    ensures CollectLists(d) == OptionLists([a, b], [], [], [b])
  {
    ValueStrings(d, a, b);
    IndexStrings(d, b);
    assert "value_or_label" + "s" == "value_or_labels" && "values_or_label" + "s" == "values_or_labels";
    assert "label" + "s" == "labels";
    NoKeys(d, "value_or_label");
    NoKeys(d, "values_or_label");
    NoKeys(d, "label");
  }

  lemma ValueStrings(d: Decl, a: string, b: string)
    requires "value" in d && d["value"] == VStr(a) && "values" in d && d["values"] == VStrList([b])
    ensures Strings(d, "value") == [a, b]
  {
    assert "value" + "s" == "values";
    Utils.SingleOrMultiStrings(d, "value");
    Utils.SingleOrMultiStrings(d, "values");
  }

  lemma IndexStrings(d: Decl, b: string)
    requires "index" in d && d["index"].VNum? && "indexs" in d && d["indexs"] == VStr(b)
    ensures Strings(d, "index") == [b]
  {
    assert "index" + "s" == "indexs";
    Utils.SingleOrMultiStrings(d, "index");
    Utils.SingleOrMultiStrings(d, "indexs");
  }

  lemma NoKeys(d: Decl, key: string)
    requires key !in d && key + "s" !in d
    ensures Strings(d, key) == []
  {
  }

  /** A select step with no option at all does not build. */
  lemma EmptySelectFails(lib: Libraries, d: Decl)
    requires StringAt(d, "select").Some? && CollectLists(d).IsEmpty()
    ensures BuildSelect(lib, d) == Err(Message("no valid selection options found, step: " + Show(lib, d)))
  {
  }

  /** `"10,20"` is a point and a missing action is a click. */
  lemma MousePoint(lib: Libraries)
    ensures BuildMouse(lib, map["mouse" := VStr("10,20")]) ==
      Ok(MousePlan(Finite(10.0), Finite(20.0), "click", map["mouse" := VStr("10,20")]))
  {
    var d := map["mouse" := VStr("10,20")];
    SplitPair();
    ParseTen(lib);
    SpaceDoesNotParse(lib);
    MouseParsed(lib, d, "10,20", "10", "20", Finite(10.0), Finite(20.0));
  }

  lemma MouseParsed(lib: Libraries, d: Decl, location: string, a: string, b: string, x: Number, y: Number)
    requires StringAt(d, "mouse") == Some(location) && Split(location, ',') == [a, b]
    requires ParseFloat(lib, a) == Some(x) && ParseFloat(lib, b) == Some(y) && "action" !in d
    ensures BuildMouse(lib, d) == Ok(MousePlan(x, y, "click", d))
  {
  }

  /** `"10, 20"` is not a point: the second half keeps its space. */
  lemma MouseSpaceFails(lib: Libraries)
    ensures BuildMouse(lib, map["mouse" := VStr("10, 20")]).Err?
  {
    SplitSpaced();
    SpaceDoesNotParse(lib);
  }

  /** A location that does not split into exactly two parts at commas is
      refused before either half is parsed. */
  lemma MouseNeedsTwoParts(lib: Libraries, d: Decl, location: string)
    requires StringAt(d, "mouse") == Some(location) && |Split(location, ',')| != 2
    ensures BuildMouse(lib, d) == Err(Message("expected 'mouse' key to be a string with 2 points, got: " + TypeAt(d, "mouse")))
  {
  }

  /** Three coordinates are not a point. */
  lemma MouseThreePartsFail(lib: Libraries)
    ensures BuildMouse(lib, map["mouse" := VStr("1,2,3")]).Err?
  {
    SplitTriple();
  }

  lemma SplitPair()
    ensures Split("10,20", ',') == ["10", "20"]
  {
    assert IndexOf("20", ',') == 2;
    assert Split("20", ',') == ["20"];
    assert IndexOf("10,20", ',') == 2;
    assert "10,20"[..2] == "10" && "10,20"[3..] == "20";
  }

  lemma SplitSpaced()
    ensures Split("10, 20", ',') == ["10", " 20"]
  {
    assert IndexOf(" 20", ',') == 3;
    assert Split(" 20", ',') == [" 20"];
    assert IndexOf("10, 20", ',') == 2;
    assert "10, 20"[..2] == "10" && "10, 20"[3..] == " 20";
  }

  lemma SplitTriple()
    ensures |Split("1,2,3", ',')| == 3
  {
    assert IndexOf("3", ',') == 1;
    assert |Split("3", ',')| == 1;
    assert IndexOf("2,3", ',') == 1;
    assert "2,3"[2..] == "3";
    assert |Split("2,3", ',')| == 2;
    assert IndexOf("1,2,3", ',') == 1;
    assert "1,2,3"[2..] == "2,3";
  }

  lemma ParseTen(lib: Libraries)
    ensures ParseFloat(lib, "10") == Some(Finite(10.0))
  {
    assert "10"[1..] == "0" && "10"[..1] == "1" && "1"[..0] == [];
    assert DigitsValue("1") == 1;
    assert DigitsValue("10") == 10;
    assert IsDecimalInteger("10") && DecimalIntegerValue("10") == 10;
  }

  /** An empty or missing mode is html, and any other name outside the
      four modes does not build. */
  lemma ElementModes(lib: Libraries, d: Decl)
    requires LoadParams(lib, EvaluateOptions, d).Ok?
    ensures StringAt(d, "mode").None? || StringAt(d, "mode") == Some("") ==>
      BuildElement(lib, d).Ok? && BuildElement(lib, d).value.mode == HtmlMode
    ensures StringAt(d, "mode").Some? && StringAt(d, "mode").value != "" && ModeOf(StringAt(d, "mode").value).None? ==>
      BuildElement(lib, d) == Err(Message("selected mode is not in valid modes"))
  {
  }
}
