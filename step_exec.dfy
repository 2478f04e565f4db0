/** The `Execute` methods of engine/steps: what a built step does to the
    page, the variable store and the result map when the middleware chain
    reaches it. Each kind has a specification function from the world
    before to its result and the world after, and a method that makes the
    same calls one at a time and is proved to agree with it. */
module StepExec {
  import opened Base
  import opened Text
  import opened Foreign
  import opened Variables
  import Template
  import Utils
  import HtmlTable
  import Base64
  import opened Driver
  import opened Steps

  /** The result map of a run (`map[string]any`), shared by every step and
      middleware. */
  class Results {
    var entries: map<string, Value>

    constructor()
      ensures entries == map[]
    {
      entries := map[];
    }

    method Put(key: string, v: Value)
      modifies this
      ensures entries == old(entries)[key := v]
    {
      entries := entries[key := v];
    }

    method Delete(key: string)
      modifies this
      ensures entries == old(entries) - {key}
    {
      entries := entries - {key};
    }
  }

  /** What a step may change besides its own option lists: the variable
      store, the result map and the calls made on the page. */
  datatype World = World(cells: map<string, Cell>, results: map<string, Value>, trace: seq<Call>)

  function Now(pg: Page, vars: Vars, res: Results): World
    reads pg, vars, res
  {
    World(vars.cells, res.entries, pg.trace)
  }

  /** What running a step gives: its `(interface{}, error)`, the world
      afterwards, and the step afterwards (only a select step changes). */
  datatype Effect = Effect(result: Result<Value>, world: World, plan: Plan)

  /** The step as it is now: a select step's lists are read from the
      object. */
  function Current(s: Step): Plan
    reads Objects(s)
  {
    match s
    case Plain(p) => p
    case Stateful(sel) => SelectPlan(sel.locator, sel.Lists(), sel.opts, sel.conf)
  }

  /** `utils.EvaluateTemplate` against the store of the world. */
  function Expanded(lib: Libraries, text: string, w: World): Result<string>
  {
    Template.Expand(lib.engine, text, LiveOf(w.cells))
  }

  function Called(w: World, c: Call): World
  {
    w.(trace := w.trace + [c])
  }

  /** `return nil, err` after a call whose value is dropped. */
  function Dropped(r: Result<Value>): (d: Result<Value>)
    ensures d.Ok? <==> r.Ok?
    ensures d.Ok? ==> d.value == VNull
    ensures !r.Ok? ==> d == r
  {
    match r
    case Ok(_) => Ok(VNull)
    case Err(e) => Err(e)
    case Panic(x) => Panic(x)
  }

  /** A string result as an `interface{}`. */
  function Textual(r: Result<string>): (v: Result<Value>)
    ensures v.Ok? <==> r.Ok?
    ensures r.Ok? ==> v.value == VStr(r.value)
  {
    match r
    case Ok(s) => Ok(VStr(s))
    case Err(e) => Err(e)
    case Panic(x) => Panic(x)
  }

  /** The world after a step that deletes nothing: the same store and
      results, and the calls made before still first. */
  ghost predicate Appended(w: World, after: World)
  {
    after.cells == w.cells && after.results == w.results &&
    |after.trace| >= |w.trace| && after.trace[..|w.trace|] == w.trace
  }

  /** A failed template expansion: returned before any call is made. */
  function Stopped(r: Result<string>, w: World, p: Plan): (e: Effect)
    requires !r.Ok?
    ensures e.world == w && e.plan == p && !e.result.Ok?
  {
    Effect(r.PropagateFailure(), w, p)
  }

  // ---------------------------------------------------------------------
  // What each kind does.

  function RunClick(lib: Libraries, pg: Page, p: Plan, w: World): (e: Effect)
    requires p.ClickPlan?
    ensures e.plan == p && Appended(w, e.world)
  {
    var loc := Expanded(lib, p.locator, w);
    if !loc.Ok? then Stopped(loc, w, p)
    else
      var c := LocatorClick(loc.value, p.opts);
      Effect(Dropped(pg.answer(w.trace, c)), Called(w, c), p)
  }

  function RunConfig(lib: Libraries, p: Plan, w: World): (e: Effect)
    requires p.ConfigPlan?
    ensures e.plan == p && Appended(w, e.world)
  {
    var timeout := if "timeout" in p.params then [SetDefaultTimeout(ToFloat64(lib, p.params["timeout"]))] else [];
    var nav := if "nav_timeout" in p.params then [SetDefaultNavigationTimeout(ToFloat64(lib, p.params["nav_timeout"]))] else [];
    Effect(Ok(VNull), w.(trace := w.trace + timeout + nav), p)
  }

  /** A template error is logged and swallowed; a panic is not. */
  function RunDebug(lib: Libraries, p: Plan, w: World): (e: Effect)
    requires p.DebugPlan?
    ensures e.plan == p && Appended(w, e.world)
  {
    match Expanded(lib, p.text, w)
    case Ok(s) => Effect(Ok(VStr(s)), w, p)
    case Err(_) => Effect(Ok(VNull), w, p)
    case Panic(x) => Effect(Panic(x), w, p)
  }

  /** The call `eval` makes: on the page for an empty locator, on the
      locator otherwise. */
  function EvalCall(locator: string, code: string, opts: Options): Call
  {
    if locator == "" then PageEvaluate(code, opts) else LocatorEvaluate(locator, code, opts)
  }

  function RunEval(lib: Libraries, pg: Page, p: Plan, w: World): (e: Effect)
    requires p.EvalPlan?
    ensures e.plan == p && Appended(w, e.world)
  {
    var loc := Expanded(lib, p.locator, w);
    if !loc.Ok? then Stopped(loc, w, p)
    else
      var code := Expanded(lib, p.code, w);
      if !code.Ok? then Stopped(code, w, p)
      else
        var c := EvalCall(loc.value, code.value, p.opts);
        Effect(pg.answer(w.trace, c), Called(w, c), p)
  }

  function RunFill(lib: Libraries, pg: Page, p: Plan, w: World): (e: Effect)
    requires p.FillPlan?
    ensures e.plan == p && Appended(w, e.world)
  {
    var loc := Expanded(lib, p.locator, w);
    if !loc.Ok? then Stopped(loc, w, p)
    else
      var value := Expanded(lib, p.value, w);
      if !value.Ok? then Stopped(value, w, p)
      else
        var c := LocatorFill(loc.value, value.value, p.opts);
        Effect(Dropped(pg.answer(w.trace, c)), Called(w, c), p)
  }

  /** A parsed table as `[]map[string]any`: one map of strings per record. */
  function RecordsValue(records: seq<HtmlTable.Record>): (v: Value)
    ensures v.VList? && |v.items| == |records|
  {
    VList(seq(|records|, i requires 0 <= i < |records| =>
      VMap(map k | k in records[i] :: VStr(records[i][k]))))
  }

  /** `utils.ParseTable` on a document. */
  function TableValue(lib: Libraries, html: string): Result<Value>
  {
    match lib.htmlRows(html)
    case Ok(rows) => Ok(RecordsValue(HtmlTable.TableRecords(rows)))
    case Err(e) => Err(e)
    case Panic(x) => Panic(x)
  }

  /** The table mode as the source writes it: the table is parsed only
      when reading the element FAILED, from the empty body the failed read
      leaves; a successful read gives `(nil, nil)`. */
  function TableAsWritten(lib: Libraries, read: Result<string>): Result<Value>
  {
    match read
    case Ok(_) => Ok(VNull)
    case Err(_) => TableValue(lib, "<table></table>")
    case Panic(x) => Panic(x)
  }

  /** The table mode as intended: a read error is returned, a successful
      read is wrapped in a `table` element and parsed. */
  function TableCorrected(lib: Libraries, read: Result<string>): Result<Value>
  {
    match read
    case Ok(body) => TableValue(lib, "<table>" + body + "</table>")
    case Err(e) => Err(e)
    case Panic(x) => Panic(x)
  }

  /** The call the element step makes for each mode. */
  function ReadCall(mode: Mode, locator: string): Call
  {
    match mode
    case HtmlMode => InnerHTML(locator)
    case ValueMode => InputValue(locator)
    case TextMode => TextContent(locator)
    case TableMode => InnerHTML(locator)
  }

  function RunElement(lib: Libraries, pg: Page, p: Plan, w: World): (e: Effect)
    requires p.ElementPlan?
    ensures e.plan == p && Appended(w, e.world)
  {
    var loc := Expanded(lib, p.locator, w);
    if !loc.Ok? then Stopped(loc, w, p)
    else
      var c := ReadCall(p.mode, loc.value);
      var read := pg.read(w.trace, c);
      Effect(if p.mode == TableMode then TableCorrected(lib, read) else Textual(read), Called(w, c), p)
  }

  function RunGoto(lib: Libraries, pg: Page, p: Plan, w: World): (e: Effect)
    requires p.GotoPlan?
    ensures e.plan == p && Appended(w, e.world)
  {
    var url := Expanded(lib, p.url, w);
    if !url.Ok? then Stopped(url, w, p)
    else if url.value == "" then Effect(Err(Message("evaluated URL is empty for goto step")), w, p)
    else
      var c := PageGoto(url.value, p.opts);
      Effect(pg.answer(w.trace, c), Called(w, c), p)
  }

  /** The mouse call for an action name, if it is one of the six. */
  function MouseCall(action: string, x: Number, y: Number): Option<Call>
  {
    if action == "click" then Some(MouseClick(x, y))
    else if action == "double-click" then Some(MouseDblclick(x, y))
    else if action == "move" then Some(MouseMove(x, y))
    else if action == "scroll" then Some(MouseWheel(x, y))
    else if action == "down" then Some(MouseDown)
    else if action == "up" then Some(MouseUp)
    else None
  }

  /** The mouse step expands no template. */
  function RunMouse(pg: Page, p: Plan, w: World): (e: Effect)
    requires p.MousePlan?
    ensures e.plan == p && Appended(w, e.world)
  {
    match MouseCall(p.action, p.x, p.y)
    case Some(c) => Effect(Dropped(pg.answer(w.trace, c)), Called(w, c), p)
    case None => Effect(Err(Message("unknown mouse action: " + p.action)), w, p)
  }

  function RunNop(lib: Libraries, p: Plan, w: World): (e: Effect)
    requires p.NopPlan?
    ensures e.plan == p && Appended(w, e.world)
  {
    var text := Expanded(lib, p.text, w);
    if !text.Ok? then Stopped(text, w, p) else Effect(Ok(VStr(text.value)), w, p)
  }

  /** The expanded name is removed from both the store and the results. */
  function RunOmit(lib: Libraries, p: Plan, w: World): (e: Effect)
    requires p.OmitPlan?
    ensures e.plan == p && e.world.trace == w.trace
  {
    var name := Expanded(lib, p.variable, w);
    if !name.Ok? then Stopped(name, w, p)
    else Effect(Ok(VNull), w.(cells := w.cells - {name.value}, results := w.results - {name.value}), p)
  }

  function RunScreenshot(lib: Libraries, pg: Page, p: Plan, w: World): (e: Effect)
    requires p.ScreenshotPlan?
    ensures e.plan == p && Appended(w, e.world)
  {
    var loc := Expanded(lib, p.locator, w);
    if !loc.Ok? then Stopped(loc, w, p)
    else if loc.value == "" then Effect(Err(Message("evaluated locator is empty")), w, p)
    else
      var c := LocatorScreenshot(loc.value, p.opts);
      match pg.capture(w.trace, c)
      case Ok(data) => Effect(Ok(VStr(Base64.Encode(data))), Called(w, c), p)
      case Err(e) => Effect(Err(e), Called(w, c), p)
      case Panic(x) => Effect(Panic(x), Called(w, c), p)
  }

  /** The pause is a call on the world like any other. */
  function RunSleep(lib: Libraries, p: Plan, w: World): (e: Effect)
    requires p.SleepPlan?
    ensures e.plan == p && Appended(w, e.world)
  {
    var text := Expanded(lib, p.duration, w);
    if !text.Ok? then Stopped(text, w, p)
    else
      match lib.parseDuration(text.value)
      case Ok(ns) => Effect(Ok(VNull), Called(w, TimeSleep(ns)), p)
      case Err(e) => Effect(Err(e), w, p)
      case Panic(x) => Effect(Panic(x), w, p)
  }

  // ---------------------------------------------------------------------
  // The select step.

  /** `strconv.Atoi` with its error. The quoting of `strconv.Quote` is
      written as plain quotes. */
  function AtoiResult(s: string): (r: Result<int>)
    ensures r.Ok? <==> Atoi(s).Some?
    ensures r.Ok? ==> r.value == Atoi(s).value
  {
    match Atoi(s)
    case Some(n) => Ok(n)
    case None =>
      Err(Message("strconv.Atoi: parsing \"" + s + "\": " +
        (if IsDecimalInteger(s) then "value out of range" else "invalid syntax")))
  }

  /** Each entry of `after` is the expansion of the entry of `before` in
      its place. */
  predicate ExpandedFrom(lib: Libraries, before: seq<string>, after: seq<string>, live: map<string, Live>)
  {
    |after| == |before| && forall j :: 0 <= j < |before| ==> Template.Expand(lib.engine, before[j], live) == Ok(after[j])
  }

  predicate SameLengths(a: OptionLists, b: OptionLists)
  {
    |a.values| == |b.values| && |a.valuesOrLabels| == |b.valuesOrLabels| &&
    |a.labels| == |b.labels| && |a.indexes| == |b.indexes|
  }

  /** The four lists after the in-place expansion, and whether it got
      through all four. */
  datatype Rewritten = Rewritten(outcome: Outcome, lists: OptionLists)

  /** The four `setValuesOrLabels` calls: each list is expanded and stored
      back in turn, so a failure leaves the earlier lists rewritten and the
      later ones as they were. Lengths never change, and once all four are
      through each holds the expansion of what it held. */
  function Rewrite(lib: Libraries, lists: OptionLists, live: map<string, Live>): (r: Rewritten)
    ensures SameLengths(lists, r.lists)
    ensures r.outcome.Ok? ==>
      ExpandedFrom(lib, lists.values, r.lists.values, live) &&
      ExpandedFrom(lib, lists.valuesOrLabels, r.lists.valuesOrLabels, live) &&
      ExpandedFrom(lib, lists.labels, r.lists.labels, live) &&
      ExpandedFrom(lib, lists.indexes, r.lists.indexes, live)
  {
    var values := Template.ExpandAll(lib.engine, lists.values, live);
    if !values.Ok? then Rewritten(values.PropagateFailure(), lists)
    else
      var l1 := lists.(values := values.value);
      var vl := Template.ExpandAll(lib.engine, l1.valuesOrLabels, live);
      if !vl.Ok? then Rewritten(vl.PropagateFailure(), l1)
      else
        var l2 := l1.(valuesOrLabels := vl.value);
        var labels := Template.ExpandAll(lib.engine, l2.labels, live);
        if !labels.Ok? then Rewritten(labels.PropagateFailure(), l2)
        else
          var l3 := l2.(labels := labels.value);
          var ix := Template.ExpandAll(lib.engine, l3.indexes, live);
          if !ix.Ok? then Rewritten(ix.PropagateFailure(), l3)
          else Rewritten(Done, l3.(indexes := ix.value))
  }

  /** How far the select step gets before it picks options: the lists as
      rewritten in place so far, and either the failure that stopped it or
      the expanded locator and the integer indexes. */
  datatype Prepared = Prepared(outcome: Result<(string, seq<int>)>, lists: OptionLists)

  /** The select step up to its emptiness check: the locator, the four
      lists, then the indexes expanded a second time and converted. */
  function PrepareSelect(lib: Libraries, locator: string, lists: OptionLists, w: World): (r: Prepared)
    ensures SameLengths(lists, r.lists)
    ensures !Expanded(lib, locator, w).Ok? ==> r.lists == lists
  {
    var live := LiveOf(w.cells);
    var loc := Expanded(lib, locator, w);
    if !loc.Ok? then Prepared(loc.PropagateFailure(), lists)
    else
      var rw := Rewrite(lib, lists, live);
      if !rw.outcome.Ok? then Prepared(rw.outcome.PropagateFailure(), rw.lists)
      else
        var again := Template.ExpandAll(lib.engine, rw.lists.indexes, live);
        if !again.Ok? then Prepared(again.PropagateFailure(), rw.lists)
        else
          var numbers := Utils.MapAll(again.value, AtoiResult);
          if !numbers.Ok? then Prepared(numbers.PropagateFailure(), rw.lists)
          else Prepared(Ok((loc.value, numbers.value)), rw.lists)
  }

  const NilDereference := "runtime error: invalid memory address or nil pointer dereference"

  /** The select step as the source writes it: the emptiness check reads
      `Values`, which nothing has set, so every run that gets that far
      panics. */
  function RunSelectAsWritten(lib: Libraries, p: Plan, w: World): Effect
    requires p.SelectPlan?
  {
    var prep := PrepareSelect(lib, p.locator, p.lists, w);
    var q := p.(lists := prep.lists);
    if !prep.outcome.Ok? then Effect(prep.outcome.PropagateFailure(), w, q)
    else Effect(Panic(NilDereference), w, q)
  }

  /** The options handed to `SelectOption`: all four lists. */
  function Selection(lists: OptionLists, indexes: seq<int>): SelectValues
  {
    SelectValues(lists.values, lists.valuesOrLabels, lists.labels, indexes)
  }

  predicate NoSelection(v: SelectValues)
  {
    v.values == [] && v.valuesOrLabels == [] && v.labels == [] && v.indexes == []
  }

  /** The select step as intended: the four lists are set, checked for
      emptiness and handed to the locator. */
  function RunSelect(lib: Libraries, pg: Page, p: Plan, w: World): (e: Effect)
    requires p.SelectPlan?
    ensures e.plan == p.(lists := PrepareSelect(lib, p.locator, p.lists, w).lists) && Appended(w, e.world)
  {
    var prep := PrepareSelect(lib, p.locator, p.lists, w);
    var q := p.(lists := prep.lists);
    if !prep.outcome.Ok? then Effect(prep.outcome.PropagateFailure(), w, q)
    else
      var sv := Selection(prep.lists, prep.outcome.value.1);
      if NoSelection(sv) then
        Effect(Err(Message("no valid select option values found for step: " + Show(lib, p.conf))), w, q)
      else
        var c := SelectOption(prep.outcome.value.0, sv, p.opts);
        Effect(pg.answer(w.trace, c), Called(w, c), q)
  }

  // ---------------------------------------------------------------------
  // Any step.

  /** `step.Execute(page, vars, result)`. Only the omit step touches the
      store or the results, no step takes back a call already made, and a
      step keeps its kind and its `GetConfig`: only a select step's lists
      change. */
  function Run(lib: Libraries, pg: Page, p: Plan, w: World): (e: Effect)
    ensures !p.OmitPlan? ==> Appended(w, e.world)
    ensures p.OmitPlan? ==> e.world.trace == w.trace
    ensures !p.SelectPlan? ==> e.plan == p
    ensures p.SelectPlan? ==> e.plan == p.(lists := PrepareSelect(lib, p.locator, p.lists, w).lists)
    ensures PlanConf(e.plan) == PlanConf(p)
  {
    match p
    case ClickPlan(_, _, _) => RunClick(lib, pg, p, w)
    case ConfigPlan(_, _) => RunConfig(lib, p, w)
    case DebugPlan(_, _) => RunDebug(lib, p, w)
    case EvalPlan(_, _, _, _) => RunEval(lib, pg, p, w)
    case FillPlan(_, _, _, _) => RunFill(lib, pg, p, w)
    case ElementPlan(_, _, _) => RunElement(lib, pg, p, w)
    case GotoPlan(_, _, _) => RunGoto(lib, pg, p, w)
    case MousePlan(_, _, _, _) => RunMouse(pg, p, w)
    case NopPlan(_, _) => RunNop(lib, p, w)
    case OmitPlan(_) => RunOmit(lib, p, w)
    case ScreenshotPlan(_, _, _) => RunScreenshot(lib, pg, p, w)
    case SelectPlan(_, _, _, _) => RunSelect(lib, pg, p, w)
    case SleepPlan(_, _) => RunSleep(lib, p, w)
  }

  // ---------------------------------------------------------------------
  // The `Execute` methods.

  method ExecClick(lib: Libraries, p: Plan, pg: Page, vars: Vars, res: Results) returns (r: Result<Value>)
    requires p.ClickPlan?
    modifies pg
    ensures Effect(r, Now(pg, vars, res), p) == RunClick(lib, pg, p, old(Now(pg, vars, res)))
  {
    var locator := Template.EvaluateTemplate(lib.engine, p.locator, vars);
    if !locator.Ok? {
      return locator.PropagateFailure();
    }
    var clicked := pg.Perform(LocatorClick(locator.value, p.opts));
    r := Dropped(clicked);
  }

  method ExecConfig(lib: Libraries, p: Plan, pg: Page, vars: Vars, res: Results) returns (r: Result<Value>)
    requires p.ConfigPlan?
    modifies pg
    ensures Effect(r, Now(pg, vars, res), p) == RunConfig(lib, p, old(Now(pg, vars, res)))
  {
    if "timeout" in p.params {
      pg.Apply(SetDefaultTimeout(ToFloat64(lib, p.params["timeout"])));
    }
    if "nav_timeout" in p.params {
      pg.Apply(SetDefaultNavigationTimeout(ToFloat64(lib, p.params["nav_timeout"])));
    }
    r := Ok(VNull);
  }

  method ExecDebug(lib: Libraries, p: Plan, pg: Page, vars: Vars, res: Results) returns (r: Result<Value>)
    requires p.DebugPlan?
    ensures Effect(r, Now(pg, vars, res), p) == RunDebug(lib, p, Now(pg, vars, res))
  {
    var text := Template.EvaluateTemplate(lib.engine, p.text, vars);
    if text.Err? {
      return Ok(VNull);
    } else if text.Panic? {
      return Panic(text.reason);
    }
    r := Ok(VStr(text.value));
  }

  method ExecEval(lib: Libraries, p: Plan, pg: Page, vars: Vars, res: Results) returns (r: Result<Value>)
    requires p.EvalPlan?
    modifies pg
    ensures Effect(r, Now(pg, vars, res), p) == RunEval(lib, pg, p, old(Now(pg, vars, res)))
  {
    var locator := Template.EvaluateTemplate(lib.engine, p.locator, vars);
    if !locator.Ok? {
      return locator.PropagateFailure();
    }
    var code := Template.EvaluateTemplate(lib.engine, p.code, vars);
    if !code.Ok? {
      return code.PropagateFailure();
    }
    if locator.value == "" {
      r := pg.Perform(PageEvaluate(code.value, p.opts));
    } else {
      r := pg.Perform(LocatorEvaluate(locator.value, code.value, p.opts));
    }
  }

  method ExecFill(lib: Libraries, p: Plan, pg: Page, vars: Vars, res: Results) returns (r: Result<Value>)
    requires p.FillPlan?
    modifies pg
    ensures Effect(r, Now(pg, vars, res), p) == RunFill(lib, pg, p, old(Now(pg, vars, res)))
  {
    var locator := Template.EvaluateTemplate(lib.engine, p.locator, vars);
    if !locator.Ok? {
      return locator.PropagateFailure();
    }
    var value := Template.EvaluateTemplate(lib.engine, p.value, vars);
    if !value.Ok? {
      return value.PropagateFailure();
    }
    var filled := pg.Perform(LocatorFill(locator.value, value.value, p.opts));
    r := Dropped(filled);
  }

  /** `utils.ParseTable`: the parser's rows through `HtmlTable.ParseTable`. */
  method ParseTable(lib: Libraries, html: string) returns (r: Result<Value>)
    ensures r == TableValue(lib, html)
  {
    var rows := lib.htmlRows(html);
    if !rows.Ok? {
      return rows.PropagateFailure();
    }
    var records := HtmlTable.ParseTable(rows.value);
    assert records == HtmlTable.TableRecords(rows.value);
    r := Ok(RecordsValue(records));
  }

  method ExecElement(lib: Libraries, p: Plan, pg: Page, vars: Vars, res: Results) returns (r: Result<Value>)
    requires p.ElementPlan?
    modifies pg
    ensures Effect(r, Now(pg, vars, res), p) == RunElement(lib, pg, p, old(Now(pg, vars, res)))
  {
    var locator := Template.EvaluateTemplate(lib.engine, p.locator, vars);
    if !locator.Ok? {
      return locator.PropagateFailure();
    }
    match p.mode
    case HtmlMode =>
      var text := pg.Read(InnerHTML(locator.value));
      r := Textual(text);
    case ValueMode =>
      var text := pg.Read(InputValue(locator.value));
      r := Textual(text);
    case TextMode =>
      var text := pg.Read(TextContent(locator.value));
      r := Textual(text);
    case TableMode =>
      var body := pg.Read(InnerHTML(locator.value));
      if body.Ok? {
        r := ParseTable(lib, "<table>" + body.value + "</table>");
      } else {
        r := body.PropagateFailure();
      }
  }

  method ExecGoto(lib: Libraries, p: Plan, pg: Page, vars: Vars, res: Results) returns (r: Result<Value>)
    requires p.GotoPlan?
    modifies pg
    ensures Effect(r, Now(pg, vars, res), p) == RunGoto(lib, pg, p, old(Now(pg, vars, res)))
  {
    var url := Template.EvaluateTemplate(lib.engine, p.url, vars);
    if !url.Ok? {
      return url.PropagateFailure();
    }
    if url.value == "" {
      return Err(Message("evaluated URL is empty for goto step"));
    }
    r := pg.Perform(PageGoto(url.value, p.opts));
  }

  method ExecMouse(p: Plan, pg: Page, vars: Vars, res: Results) returns (r: Result<Value>)
    requires p.MousePlan?
    modifies pg
    ensures Effect(r, Now(pg, vars, res), p) == RunMouse(pg, p, old(Now(pg, vars, res)))
  {
    var reply: Result<Value>;
    if p.action == "click" {
      reply := pg.Perform(MouseClick(p.x, p.y));
    } else if p.action == "double-click" {
      reply := pg.Perform(MouseDblclick(p.x, p.y));
    } else if p.action == "move" {
      reply := pg.Perform(MouseMove(p.x, p.y));
    } else if p.action == "scroll" {
      reply := pg.Perform(MouseWheel(p.x, p.y));
    } else if p.action == "down" {
      reply := pg.Perform(MouseDown);
    } else if p.action == "up" {
      reply := pg.Perform(MouseUp);
    } else {
      return Err(Message("unknown mouse action: " + p.action));
    }
    r := Dropped(reply);
  }

  method ExecNop(lib: Libraries, p: Plan, pg: Page, vars: Vars, res: Results) returns (r: Result<Value>)
    requires p.NopPlan?
    ensures Effect(r, Now(pg, vars, res), p) == RunNop(lib, p, Now(pg, vars, res))
  {
    var text := Template.EvaluateTemplate(lib.engine, p.text, vars);
    if !text.Ok? {
      return text.PropagateFailure();
    }
    r := Ok(VStr(text.value));
  }

  method ExecOmit(lib: Libraries, p: Plan, pg: Page, vars: Vars, res: Results) returns (r: Result<Value>)
    requires p.OmitPlan?
    modifies vars, res
    ensures Effect(r, Now(pg, vars, res), p) == RunOmit(lib, p, old(Now(pg, vars, res)))
  {
    var name := Template.EvaluateTemplate(lib.engine, p.variable, vars);
    if !name.Ok? {
      return name.PropagateFailure();
    }
    vars.Delete(name.value);
    res.Delete(name.value);
    r := Ok(VNull);
  }

  method ExecScreenshot(lib: Libraries, p: Plan, pg: Page, vars: Vars, res: Results) returns (r: Result<Value>)
    requires p.ScreenshotPlan?
    modifies pg
    ensures Effect(r, Now(pg, vars, res), p) == RunScreenshot(lib, pg, p, old(Now(pg, vars, res)))
  {
    var locator := Template.EvaluateTemplate(lib.engine, p.locator, vars);
    if !locator.Ok? {
      return locator.PropagateFailure();
    }
    if locator.value == "" {
      return Err(Message("evaluated locator is empty"));
    }
    var data := pg.Capture(LocatorScreenshot(locator.value, p.opts));
    if !data.Ok? {
      return data.PropagateFailure();
    }
    r := Ok(VStr(Base64.Encode(data.value)));
  }

  method ExecSleep(lib: Libraries, p: Plan, pg: Page, vars: Vars, res: Results) returns (r: Result<Value>)
    requires p.SleepPlan?
    modifies pg
    ensures Effect(r, Now(pg, vars, res), p) == RunSleep(lib, p, old(Now(pg, vars, res)))
  {
    var text := Template.EvaluateTemplate(lib.engine, p.duration, vars);
    if !text.Ok? {
      return text.PropagateFailure();
    }
    var duration := lib.parseDuration(text.value);
    if !duration.Ok? {
      return duration.PropagateFailure();
    }
    pg.Apply(TimeSleep(duration.value));
    r := Ok(VNull);
  }

  /** The four `setValuesOrLabels` calls on the step's own fields. */
  method RewriteLists(lib: Libraries, sel: SelectStep, vars: Vars) returns (r: Outcome)
    modifies sel
    ensures Rewritten(r, sel.Lists()) == Rewrite(lib, old(sel.Lists()), LiveOf(vars.cells))
  {
    var values := Template.EvaluateTemplates(lib.engine, sel.values, vars);
    if !values.Ok? {
      return values.PropagateFailure();
    }
    sel.values := values.value;
    var valuesOrLabels := Template.EvaluateTemplates(lib.engine, sel.valuesOrLabels, vars);
    if !valuesOrLabels.Ok? {
      return valuesOrLabels.PropagateFailure();
    }
    sel.valuesOrLabels := valuesOrLabels.value;
    var labels := Template.EvaluateTemplates(lib.engine, sel.labels, vars);
    if !labels.Ok? {
      return labels.PropagateFailure();
    }
    sel.labels := labels.value;
    var indexes := Template.EvaluateTemplates(lib.engine, sel.indexes, vars);
    if !indexes.Ok? {
      return indexes.PropagateFailure();
    }
    sel.indexes := indexes.value;
    r := Done;
  }

  /** The select step's `Execute`: each list is rewritten in place as soon
      as it is expanded. */
  method ExecSelect(lib: Libraries, sel: SelectStep, pg: Page, vars: Vars, res: Results) returns (r: Result<Value>)
    modifies sel, pg
    ensures Effect(r, Now(pg, vars, res), Current(Stateful(sel))) ==
      RunSelect(lib, pg, old(Current(Stateful(sel))), old(Now(pg, vars, res)))
  {
    var locator := Template.EvaluateTemplate(lib.engine, sel.locator, vars);
    if !locator.Ok? {
      return locator.PropagateFailure();
    }
    var rewritten := RewriteLists(lib, sel, vars);
    if !rewritten.Ok? {
      return rewritten.PropagateFailure();
    }
    var again := Template.EvaluateTemplates(lib.engine, sel.indexes, vars);
    if !again.Ok? {
      return again.PropagateFailure();
    }
    var numbers := Utils.MapItems(again.value, AtoiResult);
    if !numbers.Ok? {
      return numbers.PropagateFailure();
    }
    var selection := SelectValues(sel.values, sel.valuesOrLabels, sel.labels, numbers.value);
    if NoSelection(selection) {
      return Err(Message("no valid select option values found for step: " + Show(lib, sel.conf)));
    }
    r := pg.Perform(SelectOption(locator.value, selection, sel.opts));
  }

  /** Select steps are objects and every other step a plain value, as
      `BuildSteps` makes them. */
  predicate Shaped(s: Step)
  {
    s.Plain? ==> !s.plan.SelectPlan?
  }

  /** `step.Execute(page, vars, result)` for a step that is a value. */
  method ExecPlain(lib: Libraries, p: Plan, pg: Page, vars: Vars, res: Results) returns (r: Result<Value>)
    requires !p.SelectPlan?
    modifies pg, vars, res
    ensures Effect(r, Now(pg, vars, res), p) == Run(lib, pg, p, old(Now(pg, vars, res)))
  {
    match p
    case ClickPlan(_, _, _) => r := ExecClick(lib, p, pg, vars, res);
    case ConfigPlan(_, _) => r := ExecConfig(lib, p, pg, vars, res);
    case DebugPlan(_, _) => r := ExecDebug(lib, p, pg, vars, res);
    case EvalPlan(_, _, _, _) => r := ExecEval(lib, p, pg, vars, res);
    case FillPlan(_, _, _, _) => r := ExecFill(lib, p, pg, vars, res);
    case ElementPlan(_, _, _) => r := ExecElement(lib, p, pg, vars, res);
    case GotoPlan(_, _, _) => r := ExecGoto(lib, p, pg, vars, res);
    case MousePlan(_, _, _, _) => r := ExecMouse(p, pg, vars, res);
    case NopPlan(_, _) => r := ExecNop(lib, p, pg, vars, res);
    case OmitPlan(_) => r := ExecOmit(lib, p, pg, vars, res);
    case ScreenshotPlan(_, _, _) => r := ExecScreenshot(lib, p, pg, vars, res);
    case SleepPlan(_, _) => r := ExecSleep(lib, p, pg, vars, res);
  }

  /** `step.Execute(page, vars, result)` for any step. */
  method Execute(lib: Libraries, s: Step, pg: Page, vars: Vars, res: Results) returns (r: Result<Value>)
    requires Shaped(s)
    modifies pg, vars, res, Objects(s)
    ensures Effect(r, Now(pg, vars, res), Current(s)) == Run(lib, pg, old(Current(s)), old(Now(pg, vars, res)))
  {
    if s.Stateful? {
      r := ExecSelect(lib, s.sel, pg, vars, res);
    } else {
      r := ExecPlain(lib, s.plan, pg, vars, res);
    }
  }

  // ---------------------------------------------------------------------
  // Properties.

  /** The template a step expands first, if it expands any. */
  function FirstTemplate(p: Plan): Option<string>
  {
    match p
    case ClickPlan(locator, _, _) => Some(locator)
    case ConfigPlan(_, _) => None
    case DebugPlan(text, _) => Some(text)
    case EvalPlan(locator, _, _, _) => Some(locator)
    case FillPlan(locator, _, _, _) => Some(locator)
    case ElementPlan(locator, _, _) => Some(locator)
    case GotoPlan(url, _, _) => Some(url)
    case MousePlan(_, _, _, _) => None
    case NopPlan(text, _) => Some(text)
    case OmitPlan(variable) => Some(variable)
    case ScreenshotPlan(locator, _, _) => Some(locator)
    case SelectPlan(locator, _, _, _) => Some(locator)
    case SleepPlan(duration, _) => Some(duration)
  }

  /** A failure to expand the first template ends the step before any
      call on the page and before anything is deleted or rewritten; the
      failure is the result, except that the debug step swallows an
      error. */
  lemma TemplateFailureStops(lib: Libraries, pg: Page, p: Plan, w: World)
    requires FirstTemplate(p).Some? && !Expanded(lib, FirstTemplate(p).value, w).Ok?
    ensures Run(lib, pg, p, w).world == w && Run(lib, pg, p, w).plan == p
    ensures !p.DebugPlan? || Expanded(lib, FirstTemplate(p).value, w).Panic? ==>
      Run(lib, pg, p, w).result == Expanded(lib, FirstTemplate(p).value, w).PropagateFailure()
    ensures p.DebugPlan? && Expanded(lib, FirstTemplate(p).value, w).Err? ==> Run(lib, pg, p, w).result == Ok(VNull)
  {
    if p.SelectPlan? {
      assert PrepareSelect(lib, p.locator, p.lists, w).lists == p.lists;
      assert p.(lists := p.lists) == p;
    }
  }

  /** The config step sets each timeout exactly when its key is present,
      the default before the navigation one, and always returns
      `(nil, nil)`. */
  lemma ConfigSetsTimeouts(lib: Libraries, p: Plan, w: World)
    requires p.ConfigPlan?
    ensures RunConfig(lib, p, w).result == Ok(VNull)
    ensures RunConfig(lib, p, w).world.cells == w.cells && RunConfig(lib, p, w).world.results == w.results
    ensures var calls := RunConfig(lib, p, w).world.trace[|w.trace|..];
      (exists c :: c in calls && c.SetDefaultTimeout?) <==> "timeout" in p.params
    ensures var calls := RunConfig(lib, p, w).world.trace[|w.trace|..];
      (exists c :: c in calls && c.SetDefaultNavigationTimeout?) <==> "nav_timeout" in p.params
    ensures "timeout" in p.params && "nav_timeout" in p.params ==>
      RunConfig(lib, p, w).world.trace[|w.trace|..] ==
        [SetDefaultTimeout(ToFloat64(lib, p.params["timeout"])), SetDefaultNavigationTimeout(ToFloat64(lib, p.params["nav_timeout"]))]
  {
    var calls := RunConfig(lib, p, w).world.trace[|w.trace|..];
    if "timeout" in p.params {
      assert calls[0].SetDefaultTimeout?;
    }
    if "nav_timeout" in p.params {
      assert calls[|calls| - 1].SetDefaultNavigationTimeout?;
    }
  }

  /** The debug step fails only by a panic: an expansion error gives
      `(nil, nil)` and a success the expanded text. */
  lemma DebugNeverFails(lib: Libraries, p: Plan, w: World)
    requires p.DebugPlan?
    ensures !RunDebug(lib, p, w).result.Err?
    ensures Expanded(lib, p.text, w).Ok? ==> RunDebug(lib, p, w).result == Ok(VStr(Expanded(lib, p.text, w).value))
    ensures RunDebug(lib, p, w).world == w
  {
  }

  /** `eval` runs on the page exactly when the expanded locator is empty,
      and hands back the driver's reply unchanged. */
  lemma EvalScope(lib: Libraries, pg: Page, p: Plan, w: World)
    requires p.EvalPlan? && Expanded(lib, p.locator, w).Ok? && Expanded(lib, p.code, w).Ok?
    ensures var c := RunEval(lib, pg, p, w).world.trace[|w.trace|..];
      |c| == 1 && (c[0].PageEvaluate? <==> Expanded(lib, p.locator, w).value == "")
    ensures RunEval(lib, pg, p, w).result ==
      pg.answer(w.trace, EvalCall(Expanded(lib, p.locator, w).value, Expanded(lib, p.code, w).value, p.opts))
  {
  }

  /** The fill step expands the locator, then the value: a failure of the
      second also ends the step before the page is touched. */
  lemma FillValueFailureStops(lib: Libraries, pg: Page, p: Plan, w: World)
    requires p.FillPlan? && Expanded(lib, p.locator, w).Ok? && !Expanded(lib, p.value, w).Ok?
    ensures RunFill(lib, pg, p, w).world == w
    ensures RunFill(lib, pg, p, w).result == Expanded(lib, p.value, w).PropagateFailure()
  {
  }

  /** An empty URL is refused without navigating. */
  lemma GotoEmptyUrl(lib: Libraries, pg: Page, p: Plan, w: World)
    requires p.GotoPlan? && Expanded(lib, p.url, w) == Ok("")
    ensures RunGoto(lib, pg, p, w) == Effect(Err(Message("evaluated URL is empty for goto step")), w, p)
  {
  }

  /** Once its locator expands, the click step makes one click on that
      locator and returns `nil` or the driver's error. */
  lemma ClickCalls(lib: Libraries, pg: Page, p: Plan, w: World, l: string)
    requires p.ClickPlan? && Expanded(lib, p.locator, w) == Ok(l)
    ensures RunClick(lib, pg, p, w).world == w.(trace := w.trace + [LocatorClick(l, p.opts)])
    ensures RunClick(lib, pg, p, w).result == Dropped(pg.answer(w.trace, LocatorClick(l, p.opts)))
  {
  }

  /** Once both templates expand, the fill step makes one fill of the
      expanded value into the expanded locator, and returns `nil` or the
      driver's error. */
  lemma FillCalls(lib: Libraries, pg: Page, p: Plan, w: World, l: string, v: string)
    requires p.FillPlan? && Expanded(lib, p.locator, w) == Ok(l) && Expanded(lib, p.value, w) == Ok(v)
    ensures RunFill(lib, pg, p, w).world == w.(trace := w.trace + [LocatorFill(l, v, p.opts)])
    ensures RunFill(lib, pg, p, w).result == Dropped(pg.answer(w.trace, LocatorFill(l, v, p.opts)))
  {
  }

  /** A URL that expands to a non-empty text is navigated to once, and the
      driver's reply is the step's result. */
  lemma GotoNavigates(lib: Libraries, pg: Page, p: Plan, w: World, url: string)
    requires p.GotoPlan? && Expanded(lib, p.url, w) == Ok(url) && url != ""
    ensures RunGoto(lib, pg, p, w).world == w.(trace := w.trace + [PageGoto(url, p.opts)])
    ensures RunGoto(lib, pg, p, w).result == pg.answer(w.trace, PageGoto(url, p.opts))
  {
  }

  /** The nop step returns its expanded text and touches nothing. */
  lemma NopReturnsText(lib: Libraries, p: Plan, w: World)
    requires p.NopPlan?
    ensures Expanded(lib, p.text, w).Ok? ==> RunNop(lib, p, w) == Effect(Ok(VStr(Expanded(lib, p.text, w).value)), w, p)
    ensures !Expanded(lib, p.text, w).Ok? ==> RunNop(lib, p, w) == Effect(Expanded(lib, p.text, w).PropagateFailure(), w, p)
  {
  }

  /** A successful screenshot is the padded base64 text of the captured
      bytes: four symbols per three bytes, and it decodes back to them. */
  lemma ScreenshotIsBase64(lib: Libraries, pg: Page, p: Plan, w: World)
    requires p.ScreenshotPlan? && RunScreenshot(lib, pg, p, w).result.Ok?
    ensures var loc := Expanded(lib, p.locator, w).value;
      var data := pg.capture(w.trace, LocatorScreenshot(loc, p.opts));
      data.Ok? && loc != "" &&
      RunScreenshot(lib, pg, p, w).result == Ok(VStr(Base64.Encode(data.value))) &&
      |RunScreenshot(lib, pg, p, w).result.value.s| == 4 * ((|data.value| + 2) / 3) &&
      Base64.Decode(RunScreenshot(lib, pg, p, w).result.value.s) == Some(data.value)
  {
    var loc := Expanded(lib, p.locator, w).value;
    var data := pg.capture(w.trace, LocatorScreenshot(loc, p.opts));
    Base64.DecodeEncode(data.value);
    Base64.EncodeLength(data.value);
  }

  /** An empty locator is refused without capturing. */
  lemma ScreenshotEmptyLocator(lib: Libraries, pg: Page, p: Plan, w: World)
    requires p.ScreenshotPlan? && Expanded(lib, p.locator, w) == Ok("")
    ensures RunScreenshot(lib, pg, p, w) == Effect(Err(Message("evaluated locator is empty")), w, p)
  {
  }

  /** An action outside the six is refused when the step runs; `up` and
      `down` do not look at the coordinates. */
  lemma MouseActions(pg: Page, p: Plan, w: World, x: Number, y: Number)
    requires p.MousePlan?
    ensures p.action !in {"click", "double-click", "move", "scroll", "down", "up"} ==>
      RunMouse(pg, p, w) == Effect(Err(Message("unknown mouse action: " + p.action)), w, p)
    ensures p.action in {"down", "up"} ==>
      RunMouse(pg, p.(x := x, y := y), w).result == RunMouse(pg, p, w).result &&
      RunMouse(pg, p.(x := x, y := y), w).world == RunMouse(pg, p, w).world
    ensures p.action == "click" ==> RunMouse(pg, p, w).world.trace == w.trace + [MouseClick(p.x, p.y)]
  {
  }

  /** The omit step deletes the expanded name from the store and the
      results and changes nothing else; an absent name changes nothing. */
  lemma OmitDeletes(lib: Libraries, pg: Page, p: Plan, w: World)
    requires p.OmitPlan? && Expanded(lib, p.variable, w).Ok?
    ensures var name := Expanded(lib, p.variable, w).value;
      RunOmit(lib, p, w) == Effect(Ok(VNull), World(w.cells - {name}, w.results - {name}, w.trace), p)
    ensures var name := Expanded(lib, p.variable, w).value;
      name !in w.cells && name !in w.results ==> RunOmit(lib, p, w).world == w
  {
    var name := Expanded(lib, p.variable, w).value;
    if name !in w.cells && name !in w.results {
      assert w.cells - {name} == w.cells;
      assert w.results - {name} == w.results;
    }
  }

  /** A duration that does not parse is returned and nothing sleeps; a
      parsed one is slept and the step returns `(nil, nil)`. */
  lemma SleepOutcomes(lib: Libraries, p: Plan, w: World)
    requires p.SleepPlan? && Expanded(lib, p.duration, w).Ok?
    ensures var d := lib.parseDuration(Expanded(lib, p.duration, w).value);
      (d.Err? ==> RunSleep(lib, p, w) == Effect(Err(d.error), w, p)) &&
      (d.Ok? ==> RunSleep(lib, p, w) == Effect(Ok(VNull), Called(w, TimeSleep(d.value)), p))
  {
  }

  /** The three reading modes return what the driver reads from the
      element, as a string. */
  lemma ElementReads(lib: Libraries, pg: Page, p: Plan, w: World)
    requires p.ElementPlan? && p.mode != TableMode && Expanded(lib, p.locator, w).Ok?
    ensures var loc := Expanded(lib, p.locator, w).value;
      var c := if p.mode == HtmlMode then InnerHTML(loc) else if p.mode == ValueMode then InputValue(loc) else TextContent(loc);
      RunElement(lib, pg, p, w) == Effect(Textual(pg.read(w.trace, c)), Called(w, c), p)
  {
  }

  /** FINDING, as written: the table mode turns a successful read into
      `(nil, nil)` and parses a table only after a failed read, from the
      empty body. */
  lemma TableModeAsWritten(lib: Libraries, read: Result<string>)
    ensures read.Ok? ==> TableAsWritten(lib, read) == Ok(VNull)
    ensures read.Err? ==> TableAsWritten(lib, read) == TableValue(lib, "<table></table>")
    ensures read.Err? && lib.htmlRows("<table></table>") == Ok([]) ==> TableAsWritten(lib, read) == Ok(VList([]))
  {
  }

  /** Corrected: a successful read is parsed as a table and a failed read
      is the error; the read value is never dropped. */
  lemma TableModeCorrected(lib: Libraries, pg: Page, p: Plan, w: World, rows: seq<HtmlTable.Row>)
    requires p.ElementPlan? && p.mode == TableMode && Expanded(lib, p.locator, w).Ok?
    ensures var c := InnerHTML(Expanded(lib, p.locator, w).value);
      var read := pg.read(w.trace, c);
      (read.Err? ==> RunElement(lib, pg, p, w).result == Err(read.error)) &&
      (read.Ok? && lib.htmlRows("<table>" + read.value + "</table>") == Ok(rows) ==>
        RunElement(lib, pg, p, w).result == Ok(RecordsValue(HtmlTable.TableRecords(rows))) &&
        |RunElement(lib, pg, p, w).result.value.items| == if rows == [] then 0 else |rows| - 1)
  {
  }

  /** After a run that gets past the index conversion, every list of the
      step holds its expansion; the integer indexes come from expanding
      the index texts a SECOND time. */
  lemma SelectRewritesLists(lib: Libraries, p: Plan, w: World)
    requires p.SelectPlan? && PrepareSelect(lib, p.locator, p.lists, w).outcome.Ok?
    ensures var after := PrepareSelect(lib, p.locator, p.lists, w).lists;
      var live := LiveOf(w.cells);
      ExpandedFrom(lib, p.lists.values, after.values, live) &&
      ExpandedFrom(lib, p.lists.valuesOrLabels, after.valuesOrLabels, live) &&
      ExpandedFrom(lib, p.lists.labels, after.labels, live) &&
      ExpandedFrom(lib, p.lists.indexes, after.indexes, live)
    ensures var prep := PrepareSelect(lib, p.locator, p.lists, w);
      |prep.outcome.value.1| == |p.lists.indexes| &&
      forall j :: 0 <= j < |p.lists.indexes| ==>
        Expanded(lib, prep.lists.indexes[j], w).Ok? &&
        Atoi(Expanded(lib, prep.lists.indexes[j], w).value) == Some(prep.outcome.value.1[j])
  {
    var live := LiveOf(w.cells);
    var rw := Rewrite(lib, p.lists, live);
    assert rw.outcome.Ok?;
  }

  /** An index that is not an integer after its second expansion fails the
      step with the lists left rewritten, and nothing is selected. */
  lemma SelectBadIndex(lib: Libraries, pg: Page, p: Plan, w: World, j: nat)
    requires p.SelectPlan? && Expanded(lib, p.locator, w).Ok?
    requires var rw := Rewrite(lib, p.lists, LiveOf(w.cells));
      var again := Template.ExpandAll(lib.engine, rw.lists.indexes, LiveOf(w.cells));
      rw.outcome.Ok? && again.Ok? && j < |again.value| && Atoi(again.value[j]).None?
    ensures !RunSelect(lib, pg, p, w).result.Ok? && RunSelect(lib, pg, p, w).world == w
    ensures RunSelect(lib, pg, p, w).plan.lists == Rewrite(lib, p.lists, LiveOf(w.cells)).lists
  {
  }

  /** FINDING, as written: every run that expands and converts all lists
      panics on the unset `Values` of the driver options. */
  lemma SelectAsWrittenPanics(lib: Libraries, p: Plan, w: World)
    requires p.SelectPlan? && PrepareSelect(lib, p.locator, p.lists, w).outcome.Ok?
    ensures RunSelectAsWritten(lib, p, w).result == Panic(NilDereference)
    ensures RunSelectAsWritten(lib, p, w).world == w
  {
  }

  /** Corrected: a step that was built, so has some option, always
      reaches the driver once its lists expand, because expansion keeps
      the lengths; the emptiness check is a guard that never fires. */
  lemma SelectReachesDriver(lib: Libraries, pg: Page, p: Plan, w: World)
    requires p.SelectPlan? && !p.lists.IsEmpty()
    requires PrepareSelect(lib, p.locator, p.lists, w).outcome.Ok?
    ensures var prep := PrepareSelect(lib, p.locator, p.lists, w);
      var c := SelectOption(prep.outcome.value.0, Selection(prep.lists, prep.outcome.value.1), p.opts);
      RunSelect(lib, pg, p, w) == Effect(pg.answer(w.trace, c), Called(w, c), p.(lists := prep.lists))
  {
    SelectRewritesLists(lib, p, w);
  }

  /** The lists of a built step never become all empty by running it, so
      the guarantee holds on every later run of the same step. */
  lemma SelectKeepsOptions(lib: Libraries, pg: Page, p: Plan, w: World)
    requires p.SelectPlan? && !p.lists.IsEmpty()
    ensures !Run(lib, pg, p, w).plan.lists.IsEmpty()
  {
  }
}
