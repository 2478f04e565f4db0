/** Template expansion of utils/template.go. The Go `text/template` engine
    is not part of this model: it is a pair of fallible functions, and what
    is modelled is the environment prepared for it. */
module Template {
  import opened Base
  import opened Variables
  import Utils

  /** A name the template can refer to: a variable of the live snapshot,
      the injected `eval` function (the page's script evaluation), or the
      page object. */
  datatype Binding =
    | Var(live: Live)
    | EvalFunction
    | PageObject

  type Env = map<string, Binding>

  /** A template that parsed. */
  datatype Parsed = Parsed(source: string, funcs: Env)

  /** `template.New(..).Funcs(env).Parse(text)` and `Execute(out, data)`. */
  datatype Engine = Engine(
    parse: (string, Env) -> Result<Parsed>,
    execute: (Parsed, Env) -> Result<string>)

  // ---------------------------------------------------------------------
  // The underscore chain of `unShadow`.

  /** `key` with `i` underscores in front. */
  function Chain(key: string, i: nat): (k: string)
    ensures |k| == |key| + i
  {
    if i == 0 then key else "_" + Chain(key, i - 1)
  }

  lemma {:induction false} ChainShift(key: string, i: nat)
    ensures Chain("_" + key, i) == Chain(key, i + 1)
    decreases i
  {
    if i > 0 {
      ChainShift(key, i - 1);
    }
  }

  /** The keys at least as long as `len`: each recursive step of `unShadow`
      lengthens its key, so this set shrinks. */
  function LongKeys(data: Env, len: nat): set<string>
  {
    set k | k in data && |k| >= len
  }

  lemma LongKeysShrink(data: Env, key: string)
    requires key in data
    ensures |LongKeys(data, |key| + 1)| < |LongKeys(data, |key|)|
  {
    var longer := LongKeys(data, |key| + 1);
    var long := LongKeys(data, |key|);
    assert longer <= long - {key};
    SubsetSize(longer, long - {key});
  }

  lemma {:induction false} SubsetSize(a: set<string>, b: set<string>)
    requires a <= b
    ensures |a| <= |b|
    decreases b
  {
    if b != {} {
      var x :| x in b;
      SubsetSize(a - {x}, b - {x});
    }
  }

  /** How many of `key`, `_key`, `__key`, … are present in a row. */
  function ChainLength(data: Env, key: string): nat
    decreases |LongKeys(data, |key|)|
  {
    if key !in data then 0
    else
      LongKeysShrink(data, key);
      1 + ChainLength(data, "_" + key)
  }

  /** The map `unShadow(data, key)` leaves: each occupant of the chain moved
      one underscore further, starting from the far end. */
  function UnShadowed(data: Env, key: string): (r: Env)
    ensures data.Keys <= r.Keys
    ensures forall k :: k in data && |k| <= |key| ==> r[k] == data[k]
    decreases |LongKeys(data, |key|)|
  {
    if key !in data then data
    else
      LongKeysShrink(data, key);
      var d := UnShadowed(data, "_" + key);
      d["_" + key := d[key]]
  }

  /** The Go map of `EvaluateTemplate`, updated in place. */
  class TemplateVars {
    var data: Env

    constructor(data: Env)
      ensures this.data == data
    {
      this.data := data;
    }

    /** `unShadow`. */
    method UnShadow(key: string)
      modifies this
      ensures data == UnShadowed(old(data), key)
      decreases |LongKeys(data, |key|)|
    {
      if key in data {
        var newKey := "_" + key;
        LongKeysShrink(data, key);
        UnShadow(newKey);
        data := data[newKey := data[key]];
      }
    }

    method Bind(key: string, b: Binding)
      modifies this
      ensures data == old(data)[key := b]
    {
      data := data[key := b];
    }
  }

  /** The chain shift: after `unShadow(data, key)`, key number `i + 1` of the
      chain holds what key number `i` held, for every occupied position. */
  lemma {:induction false} UnShadowShift(data: Env, key: string, i: nat)
    requires i < ChainLength(data, key)
    ensures Chain(key, i + 1) in UnShadowed(data, key)
    ensures Chain(key, i) in data
    ensures UnShadowed(data, key)[Chain(key, i + 1)] == data[Chain(key, i)]
    decreases i
  {
    LongKeysShrink(data, key);
    var d := UnShadowed(data, "_" + key);
    if i == 0 {
      assert Chain(key, 1) == "_" + key;
    } else {
      UnShadowShift(data, "_" + key, i - 1);
      ChainShift(key, i - 1);
      ChainShift(key, i);
    }
  }

  /** The key itself is never deleted or changed, and a key off the chain is
      untouched. */
  lemma {:induction false} UnShadowKeepsOthers(data: Env, key: string, k: string)
    requires k in data
    requires forall i :: 1 <= i <= ChainLength(data, key) ==> k != Chain(key, i)
    ensures k in UnShadowed(data, key) && UnShadowed(data, key)[k] == data[k]
    decreases |LongKeys(data, |key|)|
  {
    if key in data {
      LongKeysShrink(data, key);
      assert k != Chain(key, 1);
      forall i | 1 <= i <= ChainLength(data, "_" + key)
        ensures k != Chain("_" + key, i)
      {
        ChainShift(key, i);
      }
      UnShadowKeepsOthers(data, "_" + key, k);
    }
  }

  /** The only key added is the first free slot of the chain. */
  lemma {:induction false} UnShadowKeys(data: Env, key: string)
    ensures key in data ==> UnShadowed(data, key).Keys == data.Keys + {Chain(key, ChainLength(data, key))}
    ensures key !in data ==> UnShadowed(data, key) == data
    decreases |LongKeys(data, |key|)|
  {
    if key in data {
      LongKeysShrink(data, key);
      UnShadowKeys(data, "_" + key);
      ChainShift(key, ChainLength(data, "_" + key));
    }
  }

  // ---------------------------------------------------------------------
  // The environment and the expansion.

  function LiveEnv(live: map<string, Live>): (env: Env)
    ensures env.Keys == live.Keys
  {
    map k | k in live :: Var(live[k])
  }

  /** The `variables` map of `EvaluateTemplate` before `page` is set: the
      live snapshot, with a user `eval` moved along the underscore chain,
      and `eval` bound to the page. */
  function TemplateMap(live: map<string, Live>): Env
  {
    var env := LiveEnv(live);
    (if "eval" in env then UnShadowed(env, "eval") else env)["eval" := EvalFunction]
  }

  /** A value `Funcs` accepts: the page's `eval` and a generator's getter
      are functions, a fixed value is a string. */
  predicate IsFunction(b: Binding)
  {
    b.EvalFunction? || (b.Var? && b.live.LiveGetter?)
  }

  /** The entries of a map that are functions. */
  function Functions(env: Env): Env
  {
    map k | k in env && IsFunction(env[k]) :: env[k]
  }

  /** The functions given to `Funcs`, as intended: only the function
      entries of the map, so that `Funcs` has nothing to refuse. */
  function FuncEnv(live: map<string, Live>): Env
  {
    Functions(TemplateMap(live))
  }

  /** The data given to `Execute`: the whole map, with `page` set after
      parsing and without any rename. */
  function DataEnv(live: map<string, Live>): Env
  {
    TemplateMap(live)["page" := PageObject]
  }

  /** Parse with the functions, then execute with the data. */
  function ParseAndExecute(engine: Engine, text: string, funcs: Env, data: Env): Result<string>
  {
    match engine.parse(text, funcs)
    case Err(e) => Err(Message("failed to parse template: " + ErrorText(e)))
    case Panic(p) => Panic(p)
    case Ok(t) =>
      match engine.execute(t, data)
      case Err(e) => Err(Message("failed to execute template using vars snapshot: " + ErrorText(e)))
      case Panic(p) => Panic(p)
      case Ok(s) => Ok(s)
  }

  /** `EvaluateTemplate` as a function of the live snapshot, with the
      function map restricted to functions. */
  function Expand(engine: Engine, text: string, live: map<string, Live>): (r: Result<string>)
  {
    ParseAndExecute(engine, text, FuncEnv(live), DataEnv(live))
  }

  /** The panic of `text/template`'s `Funcs` on a value that is not a
      function. Go names the entry, whichever its map order meets first. */
  const NotAFunction := "value for a variable not a function"

  /** `EvaluateTemplate` as the source writes it: the whole map goes to
      `Funcs`, which panics on any entry that is not a function before the
      text is parsed. */
  function ExpandAsWritten(engine: Engine, text: string, live: map<string, Live>): (r: Result<string>)
  {
    var funcs := TemplateMap(live);
    if exists k :: k in funcs && !IsFunction(funcs[k]) then Panic(NotAFunction)
    else ParseAndExecute(engine, text, funcs, DataEnv(live))
  }

  /** `EvaluateTemplate`: builds the environment in a fresh map, renames
      a user `eval`, installs `eval`, parses, installs `page`, executes. */
  method EvaluateTemplate(engine: Engine, text: string, vars: Vars) returns (r: Result<string>)
    ensures r == Expand(engine, text, LiveOf(vars.cells))
  {
    var live := vars.LiveSnapshot();
    var variables := new TemplateVars(LiveEnv(live));
    if "eval" in variables.data {
      variables.UnShadow("eval");
    }
    variables.Bind("eval", EvalFunction);
    r := Render(engine, text, variables, live);
  }

  /** The second half of `EvaluateTemplate`: parse with the functions,
      install `page`, execute with the data. */
  method Render(engine: Engine, text: string, variables: TemplateVars, ghost live: map<string, Live>)
    returns (r: Result<string>)
    requires variables.data == TemplateMap(live)
    modifies variables
    ensures r == Expand(engine, text, live)
  {
    var parsed := engine.parse(text, Functions(variables.data));
    if parsed.Err? {
      return Err(Message("failed to parse template: " + ErrorText(parsed.error)));
    } else if parsed.Panic? {
      return Panic(parsed.reason);
    }
    variables.Bind("page", PageObject);
    var output := engine.execute(parsed.value, variables.data);
    if output.Err? {
      return Err(Message("failed to execute template using vars snapshot: " + ErrorText(output.error)));
    }
    r := output;
  }

  /** `TemplateEvalMapper`: the expansion of one text against a fixed live
      snapshot. */
  function Expander(engine: Engine, live: map<string, Live>): string -> Result<string>
  {
    (t: string) => Expand(engine, t, live)
  }

  /** `EvaluateTemplates` as a function of the live snapshot: every text
      expanded against the same snapshot, or the first failure. */
  function ExpandAll(engine: Engine, texts: seq<string>, live: map<string, Live>): (r: Result<seq<string>>)
    ensures r.Ok? <==> forall j :: 0 <= j < |texts| ==> Expand(engine, texts[j], live).Ok?
    ensures r.Ok? ==> |r.value| == |texts| && forall j :: 0 <= j < |texts| ==> r.value[j] == Expand(engine, texts[j], live).value
  {
    Utils.MapAll(texts, Expander(engine, live))
  }

  /** `EvaluateTemplates`: `MapItems` over the texts with one expansion per
      text; the first failure is the result. */
  method EvaluateTemplates(engine: Engine, texts: seq<string>, vars: Vars) returns (r: Result<seq<string>>)
    ensures r == ExpandAll(engine, texts, LiveOf(vars.cells))
    ensures !r.Ok? ==>
      exists j :: Utils.FirstFailure(texts, Expander(engine, LiveOf(vars.cells)), j) &&
                  r == Expand(engine, texts[j], LiveOf(vars.cells)).PropagateFailure()
  {
    var live := vars.LiveSnapshot();
    r := Utils.MapItems(texts, Expander(engine, live));
  }

  // ---------------------------------------------------------------------
  // Properties.

  /** `eval` always names the page's evaluation, and a user variable called
      `eval` is still reachable as `_eval`. */
  lemma EvalBinding(live: map<string, Live>)
    ensures "eval" in FuncEnv(live) && FuncEnv(live)["eval"] == EvalFunction
    ensures DataEnv(live)["eval"] == EvalFunction
    ensures "eval" in live ==> "_eval" in TemplateMap(live) && TemplateMap(live)["_eval"] == Var(live["eval"])
    ensures "eval" in live ==> "_eval" in DataEnv(live) && DataEnv(live)["_eval"] == Var(live["eval"])
  {
    if "eval" in live {
      var env := LiveEnv(live);
      UnShadowShift(env, "eval", 0);
      assert Chain("eval", 1) == "_eval";
    }
  }

  /** A variable off the `eval` chain is in the map as it is. */
  lemma InTemplateMap(live: map<string, Live>, k: string)
    requires k in live && k != "eval"
    requires forall i: nat :: 1 <= i ==> k != Chain("eval", i)
    ensures k in TemplateMap(live) && TemplateMap(live)[k] == Var(live[k])
  {
    var env := LiveEnv(live);
    if "eval" in env {
      UnShadowKeepsOthers(env, "eval", k);
    }
  }

  /** `page` is set without a rename: a user variable of that name is
      overwritten in the data, and stays among the functions only when it
      is a getter. */
  lemma PageOverwritesUserVariable(live: map<string, Live>)
    requires "page" in live
    ensures DataEnv(live)["page"] == PageObject
    ensures "page" in TemplateMap(live) && TemplateMap(live)["page"] == Var(live["page"])
    ensures "page" in FuncEnv(live) <==> live["page"].LiveGetter?
  {
    var env := LiveEnv(live);
    if "eval" in env {
      assert |"page"| <= |"eval"|;
    }
  }

  /** Every other user variable is in the data handed to `Execute` as it
      is, and among the functions exactly when it is a getter. */
  lemma OtherVariablesReachTemplate(live: map<string, Live>, k: string)
    requires k in live && k != "page" && k != "eval"
    requires forall i: nat :: 1 <= i ==> k != Chain("eval", i)
    ensures k in DataEnv(live) && DataEnv(live)[k] == Var(live[k])
    ensures k in FuncEnv(live) <==> live[k].LiveGetter?
  {
    InTemplateMap(live, k);
  }

  /** As written, a fixed variable anywhere in the store makes every
      expansion panic, whatever the text. */
  lemma FixedVariablePanics(engine: Engine, text: string, live: map<string, Live>, k: string)
    requires k in live && live[k].LiveValue?
    requires k == "eval" || forall i: nat :: 1 <= i ==> k != Chain("eval", i)
    ensures ExpandAsWritten(engine, text, live) == Panic(NotAFunction)
  {
    var funcs := TemplateMap(live);
    if k == "eval" {
      EvalBinding(live);
      assert "_eval" in funcs && !IsFunction(funcs["_eval"]);
    } else {
      InTemplateMap(live, k);
      assert k in funcs && !IsFunction(funcs[k]);
    }
  }

  /** The loop binds `item` with `SetOnce`: as written, every template of a
      nested step then panics. */
  lemma LoopItemPanicsAsWritten(engine: Engine, text: string, live: map<string, Live>, item: string)
    ensures ExpandAsWritten(engine, text, live["item" := LiveValue(item)]) == Panic(NotAFunction)
  {
    forall i: nat | 1 <= i
      ensures "item" != Chain("eval", i)
    {
      assert |Chain("eval", i)| > |"item"|;
    }
    FixedVariablePanics(engine, text, live["item" := LiveValue(item)], "item");
  }

  /** Renaming along the chain moves values but makes none up. */
  lemma {:induction false} UnShadowedFunctions(data: Env, key: string)
    requires forall k :: k in data ==> IsFunction(data[k])
    ensures forall k :: k in UnShadowed(data, key) ==> IsFunction(UnShadowed(data, key)[k])
    decreases |LongKeys(data, |key|)|
  {
    if key in data {
      LongKeysShrink(data, key);
      UnShadowedFunctions(data, "_" + key);
    }
  }

  /** With only generated variables the source and the correction agree:
      the correction changes nothing but the panic. */
  lemma AsWrittenAgreesWithoutFixed(engine: Engine, text: string, live: map<string, Live>)
    requires forall k :: k in live ==> live[k].LiveGetter?
    ensures ExpandAsWritten(engine, text, live) == Expand(engine, text, live)
  {
    var env := LiveEnv(live);
    if "eval" in env {
      UnShadowedFunctions(env, "eval");
    }
    var funcs := TemplateMap(live);
    assert forall k :: k in funcs ==> IsFunction(funcs[k]);
    assert Functions(funcs) == funcs;
  }

  /** As intended, `Funcs` is handed functions only, so the expansion
      panics only where the parse or the execution itself does. */
  lemma CorrectedFuncsAccepted(engine: Engine, text: string, live: map<string, Live>)
    ensures forall k :: k in FuncEnv(live) ==> IsFunction(FuncEnv(live)[k])
    ensures Expand(engine, text, live).Panic? ==>
      engine.parse(text, FuncEnv(live)).Panic? ||
      (engine.parse(text, FuncEnv(live)).Ok? && engine.execute(engine.parse(text, FuncEnv(live)).value, DataEnv(live)).Panic?)
  {
  }

  /** The two failures are told apart by their messages, and success needs
      both the parse and the execution to succeed. */
  lemma ExpandOutcomes(engine: Engine, text: string, live: map<string, Live>)
    ensures engine.parse(text, FuncEnv(live)).Err? ==>
      Expand(engine, text, live) == Err(Message("failed to parse template: " + ErrorText(engine.parse(text, FuncEnv(live)).error)))
    ensures engine.parse(text, FuncEnv(live)).Ok? && engine.execute(engine.parse(text, FuncEnv(live)).value, DataEnv(live)).Err? ==>
      Expand(engine, text, live).Err? &&
      Expand(engine, text, live).error.text[..|"failed to execute"|] == "failed to execute"
    ensures Expand(engine, text, live).Ok? <==>
      engine.parse(text, FuncEnv(live)).Ok? && engine.execute(engine.parse(text, FuncEnv(live)).value, DataEnv(live)).Ok?
  {
    ParseAndExecuteOutcomes(engine, text, FuncEnv(live), DataEnv(live));
  }

  /** The outcomes of parsing and executing, for any functions and data. */
  lemma ParseAndExecuteOutcomes(engine: Engine, text: string, funcs: Env, data: Env)
    ensures engine.parse(text, funcs).Err? ==>
      ParseAndExecute(engine, text, funcs, data) == Err(Message("failed to parse template: " + ErrorText(engine.parse(text, funcs).error)))
    ensures engine.parse(text, funcs).Ok? && engine.execute(engine.parse(text, funcs).value, data).Err? ==>
      ParseAndExecute(engine, text, funcs, data).Err? &&
      ParseAndExecute(engine, text, funcs, data).error.text[..|"failed to execute"|] == "failed to execute"
    ensures ParseAndExecute(engine, text, funcs, data).Ok? <==>
      engine.parse(text, funcs).Ok? && engine.execute(engine.parse(text, funcs).value, data).Ok?
  {
    var parsed := engine.parse(text, funcs);
    if parsed.Ok? {
      var output := engine.execute(parsed.value, data);
      if output.Err? {
        var prefix := "failed to execute template using vars snapshot: ";
        assert (prefix + ErrorText(output.error))[..|"failed to execute"|] == prefix[..|"failed to execute"|];
      }
    }
  }
}
