# scrapper-go interpreter core, modelled in Dafny

scrapper-go runs scraping pipelines written as YAML or JSON. A pipeline declares
variables (fixed values, random strings drawn once or afresh on every read, and
defaults) and a list of steps. The steps are `click`, `config`, `debug`, `eval`,
`fill`, `element`, `goto`, `mouse`, `nop`, `omit`, `screenshot`, `select` and
`sleep`. Their arguments are Go `text/template` texts expanded against the
variable store. Every step is handed to a chain of middlewares, in this order:
- an on-error policy (`ignore`, `print`, `panic`, or return the error);
- an `if` guard, whose condition is a small query language (`field op value`);
- a `loop` runner, which repeats nested steps over a count or a JSON array and binds `item`;
- the executor, which runs the step and, under `set-var`, appends its value to the result map.

`ExecuteConfig` builds every step and runs them in order: the first failure ends
the run. `ExecuteStream` runs batches of steps that arrive one at a time. In a
stream a failing step is passed over, and each batch sends its own result map.

The model has these parts:

| file | what it holds |
|---|---|
| `base.dfy` | values, errors, and the three outcomes `Ok`, `Err` and `Panic` |
| `text.dfy` | the string helpers |
| `foreign.dfy` | the third-party libraries, as oracles |
| `template.dfy` | template expansion, with variable names un-shadowed |
| `variables.dfy` | the variable store, as a class |
| `var_init.dfy` | variable declaration |
| `query.dfy` | the current condition language |
| `legacy_query.dfy` | the older condition evaluator |
| `html_table.dfy` | table parsing |
| `utils.dfy` | parameter loading and mapping over lists |
| `base64.dfy` | screenshot encoding |
| `steps.dfy` | step building, the selector registry and the select step object |
| `driver.dfy` | the browser page, an oracle that logs every call |
| `step_exec.dfy` | every step's `Execute`, as a function and as a method |
| `middlewares.dfy` | the chain |
| `engine.dfy` | the two entry points |

`middleware_facts.dfy` and `engine_facts.dfy` hold the properties of the chain
and of the entry points.

Each step's `Execute` is modelled twice:
- as a function of the world, where the world is the variable store, the result map and the page's call log;
- as a method over the mutable `Vars`, `Results` and `Page` objects, whose `ensures` ties it to that function.

Loops in the source are `while` loops with invariants. The `select` step mutates
its own lists during `Execute`, so it is an object. A Go panic is an outcome of
its own, which nothing recovers.
Template expansion follows the corrected `Funcs` call described under
Findings. The source's own call is `Template.ExpandAsWritten`.
In the same way, every step run (`StepExec.Run`, `StepExec.Execute`, the
middleware chain and both engine entry points, with every lemma about them)
runs the corrected `select` step and the corrected table mode of the
element step, both described under Findings. The source's own behaviour is
`StepExec.RunSelectAsWritten` and `StepExec.TableAsWritten`.

Go's `int` is 64-bit. Counts and indexes in the model are unbounded, except where
the source converts text: `strconv.Atoi` rejects values outside the 64-bit range,
and so does the model.

## Model

| member | source | states |
|---|---|---|
| Text.ContainsAt | query/query.go:27 | `strings.Contains` holds exactly when the text occurs at some offset |
| Text.TrimLeft | query/query.go:47-49 | drops exactly the leading run of the trimmed character, leaving a suffix that does not start with it |
| Text.TrimRight | query/query.go:47-49 | drops exactly the trailing run of the trimmed character, leaving a prefix that does not end with it |
| Text.TrimSpaceLeft | utils/html_parser.go:27-34 | removes exactly the leading run of white space: what is removed is all white space, and what is left does not start with any |
| Text.TrimSpaceRight | utils/html_parser.go:27-34 | removes exactly the trailing run of white space: what is removed is all white space, and what is left does not end with any |
| Text.IndexOf | engine/steps/mouse.go:81 | the first occurrence of the separator, or the length when there is none |
| Text.Split | engine/steps/mouse.go:81 | at least one part, and no part contains the separator |
| Text.SplitJoin | engine/steps/mouse.go:81 | joining the parts with the separator gives back the string |
| Text.Atoi | engine/steps/select.go:77 | an optionally signed run of decimal digits is accepted exactly when its value is within the 64-bit range, and then gives that value; anything else is refused |
| Text.NatToString | engine/middlewares/mid_11_for.go:98 | `strconv.Itoa` of a natural number is a non-empty digit string whose value is that number |
| Text.AtoiItoa | engine/steps/select.go:77 | `strconv.Atoi` reads back what `strconv.Itoa` writes, for every 64-bit integer |
| Text.NatToStringInjective | engine/middlewares/mid_11_for.go:97-99 | distinct loop indices give distinct item strings |
| Foreign.ParseFloat | engine/steps/mouse.go:85-92 | a decimal integer of at most 2^53 in magnitude is read exactly; a string holding any white space is rejected |
| Foreign.FormatFloat | engine/middlewares/mid_11_for.go:114 | an integral float of at most 2^53 in magnitude prints as its decimal integer |
| Foreign.ToFloat64 | engine/steps/config.go:35-40 | a number converts to itself; a value that is not a number, boolean or string converts to 0 |
| Foreign.Marshal | engine/middlewares/mid_zz_execute.go:43 | `json.Marshal` gives `null` for nil, a quoted plain string, and the decimal digits of an integer |
| Foreign.Sprint | engine/middlewares/mid_zz_execute.go:38 | `%v` gives `<nil>` for nil, a string itself, and the decimal digits of an integer |
| Foreign.LoadParams | utils/load_params.go:8-18 | never panics; fails exactly when decoding fails; a result is an option struct of the requested kind, decoded from the `params` map as given, or from an empty map when `params` is missing or not a map |
| Foreign.MarshalQuotesSprintDoesNot | engine/middlewares/mid_zz_execute.go:38-43 | the first `set-var` result of a string is stored quoted, and later ones are stored bare |
| Foreign.SpaceDoesNotParse | engine/steps/mouse.go:85-92 | `" 20"` does not parse as a float and `"20"` parses as 20 |
| Foreign.FormatIntegralFloat | engine/middlewares/mid_11_for.go:113-114 | a JSON number that is an integer becomes its decimal digits as a loop item |
| Base64.SymbolRoundTrip | engine/steps/screenshot.go:57 | each 6-bit value has a symbol that decodes back to it |
| Base64.EncodeGroup | engine/steps/screenshot.go:57 | three bytes give four symbols |
| Base64.GroupRoundTrip | engine/steps/screenshot.go:57 | the four symbols of a group are in the alphabet and decode back to the three bytes |
| Base64.EncodeLength | engine/steps/screenshot.go:57 | the encoding has four characters for every started group of three bytes |
| Base64.EncodeCons | engine/steps/screenshot.go:57 | three or more bytes are encoded one group at a time, front first |
| Base64.DecodeCons | engine/steps/screenshot.go:57 | four symbols in front decode as one group followed by the decoding of the rest |
| Base64.OneByteRoundTrip | engine/steps/screenshot.go:57 | one byte survives the padded encoding |
| Base64.TwoBytesRoundTrip | engine/steps/screenshot.go:57 | two bytes survive the padded encoding |
| Base64.DecodeEncode | engine/steps/screenshot.go:57 | decoding undoes the encoding for every byte string, so the screenshot loses no information |
| Base64.GroupsRoundTrip | engine/steps/screenshot.go:57 | a first group of three bytes survives when the rest does |
| Base64.EncodeAlphabet | engine/steps/screenshot.go:57 | the output holds only alphabet symbols and `=`, and `=` only as padding at the end |
| Base64.EncodeExamples | engine/steps/screenshot.go:57 | the test vectors "Zg==", "Zm8=" and "Zm9v" of section 10 of RFC 4648 |
| Utils.MapAll | utils/quic_map.go:3-13 | succeeds exactly when the mapper succeeds on every item, and then holds one result per item, in item order |
| Utils.MapItems | utils/quic_map.go:3-13 | the loop returns `MapAll`; a failure is the error of the first item the mapper fails on |
| Utils.MapAllStops | utils/quic_map.go:5-10 | the first failing item decides the outcome: items after it are never looked at |
| Utils.ChainExec | utils/chain.go:5-14 | the loop that reassigns the accumulator computes the left fold of the callbacks |
| Utils.FoldBase | utils/chain.go:5-14 | an empty chain returns its input unchanged; a one-callback chain is that callback |
| Utils.FoldAppend | utils/chain.go:7-12 | running `a ++ b` is running `a`, then `b` on its output; a failure inside `a` skips `b` |
| Utils.SliceOf | utils/slice_or.go:5-12 | a `T` gives a one-element slice and a `[]T` is returned as is; every other value is an error, never a panic |
| Utils.SingleOrMulti | utils/single_or_multi.go:5-19 | the values under `key` come first, then those under `key + "s"`; each key adds its values only when `SliceOf` accepts them |
| Utils.SingleOrMultiStrings | utils/single_or_multi.go:7-11 | for strings: a missing key or a value of another type adds nothing, a string adds itself and a `[]string` adds its elements |
| Utils.CastItems | utils/quic_cast.go:3-13 | `ok` exactly when every element has the type, and then the result is the elements in order; otherwise the result is empty |
| Utils.FirstOr | utils/first_or.go:3-8 | the first element of a non-empty slice; the default for an empty one |
| Utils.FirstOrLooksOnlyAtHead | utils/first_or.go:4-6 | two non-empty slices with the same head give the same answer |
| Template.UnShadowed | utils/template.go:12-20 | no key is lost, and keys no longer than the renamed one keep their values |
| Template.TemplateVars.UnShadow | utils/template.go:12-20 | the recursion on the shared map leaves exactly `UnShadowed` of the old map |
| Template.TemplateVars.Bind | utils/template.go:40 | the one entry is set and nothing else changes |
| Template.UnShadowShift | utils/template.go:13-16 | every occupant of the chain `key`, `_key`, `__key`, … moves one underscore along |
| Template.UnShadowKeepsOthers | utils/template.go:13-16 | a key off the chain keeps its value |
| Template.UnShadowKeys | utils/template.go:12-20 | the only key added is the first free slot of the chain; an absent key changes nothing |
| Template.LiveEnv | utils/template.go:35 | the template sees exactly the variable names of the live snapshot |
| Template.EvaluateTemplate | utils/template.go:32-55 | returns `Expand` of the store's live snapshot, taken once; the store is left unchanged, because getters that the template calls are not modelled as drawing (see Left out) |
| Template.Render | utils/template.go:40-54 | with the function map prepared, parsing and executing gives `Expand` |
| Template.ExpandAll | utils/template.go:22-30 | succeeds exactly when every text expands, and then holds each text's expansion in order |
| Template.EvaluateTemplates | utils/template.go:22-24 | returns `ExpandAll` of the live snapshot; a failure is the first failing text's |
| Template.EvalBinding | utils/template.go:36-40 | `eval` always names the page's evaluation, among the functions and in the data; a user variable called `eval` survives as `_eval` |
| Template.InTemplateMap | utils/template.go:35-40 | a variable off the `eval` rename chain is in the template's map with its own value |
| Template.PageOverwritesUserVariable | utils/template.go:48 | a user variable called `page` is replaced by the page in the data; it stays in the map, and among the functions exactly when it is a getter |
| Template.OtherVariablesReachTemplate | utils/template.go:35-50 | every other user variable is in the data handed to `Execute` unchanged, and among the functions handed to `Funcs` exactly when it is a getter |
| Template.FixedVariablePanics | utils/template.go:41 | as written, one fixed variable in the store makes every expansion panic in `Funcs`, whatever the text |
| Template.LoopItemPanicsAsWritten | engine/middlewares/mid_11_for.go:75 | as written, once the loop binds `item` as a fixed value, every template expansion panics |
| Template.UnShadowedFunctions | utils/template.go:12-20 | the rename moves values but makes none up: a map of functions stays a map of functions |
| Template.AsWrittenAgreesWithoutFixed | utils/template.go:32-55 | when every variable is generated, the source's expansion and the corrected one are the same |
| Template.CorrectedFuncsAccepted | utils/template.go:41 | corrected, `Funcs` is handed functions only, so an expansion panics only where the parse or the execution does |
| Template.ExpandOutcomes | utils/template.go:43-54 | a parse error and an execution error have distinct message prefixes; success needs both stages to succeed |
| Template.ParseAndExecuteOutcomes | utils/template.go:43-54 | for any function and data maps: a parse failure is reported with the parse prefix, an execution failure with the execution prefix, and success needs both stages to succeed |
| Variables.Advance | utils/variables.go:18-24 | a read leaves a fixed cell unchanged and calls a generator once more |
| Variables.Vars.SetOnce | utils/variables.go:46-51 | the key's cell becomes the fixed value, whatever it held; other keys are unchanged |
| Variables.Vars.SetGetter | utils/variables.go:53-58 | the key's cell becomes a generator not yet called |
| Variables.Vars.Get | utils/variables.go:60-64 | `ok` exactly when the key is present; then the value is the cell's next read, else `""` and nothing changes |
| Variables.Vars.GetOr | utils/variables.go:66-72 | the default exactly when the key is absent |
| Variables.Vars.GetOrFail | utils/variables.go:74-80 | an absent key is the error naming it; a present one reads its cell |
| Variables.Vars.Snapshot | utils/variables.go:26-32 | every cell is read once: the result is `SnapshotOf` the old store and every generator advances |
| Variables.Vars.LiveSnapshot | utils/variables.go:34-44 | the same keys, with fixed strings and uncalled generators; nothing changes |
| Variables.SnapshotsAgreeOnFixed | utils/variables.go:26-32 | a snapshot has the store's keys, and a fixed cell reads the same in every snapshot |
| Variables.FixedStoreIsStable | utils/variables.go:18-24 | a store of fixed cells is unchanged by a snapshot |
| Variables.GeneratorDrawsInTurn | utils/variables.go:18-21 | each snapshot draws a generator's next value |
| Variables.TwoSnapshotsCanDiffer | utils/variables.go:18-21 | two snapshots in a row of an `always` variable can differ |
| Variables.LiveSnapshotShape | utils/variables.go:34-44 | the live snapshot has the store's keys, fixed cells as their strings and generators as getters |
| Variables.SetOnceThenGet | utils/variables.go:46-64 | `SetOnce(k, s)` followed by `Get(k)` gives `(s, true)`, and other keys are untouched |
| VarInit.CellFor | engine/vars.go:18-40 | `once` draws one fixed value, `always` a generator, a non-empty value is fixed with prefix and postfix; anything else is unknown, and a random kind wins over a value |
| VarInit.InitializeVariables | engine/vars.go:11-45 | the loop returns `Declare`: a fresh store with every declaration's cell, or the first unknown declaration's error |
| VarInit.FailurePersists | engine/vars.go:37-39 | once a declaration fails, the result is that failure however many declarations follow |
| VarInit.UnknownDeclarationFails | engine/vars.go:37-39 | any unknown declaration fails the whole initialisation |
| VarInit.DeclaredNames | engine/vars.go:14-44 | on success every declaration was known and the store's names are exactly the declared names |
| VarInit.LastDefinitionWins | engine/vars.go:14-36 | the last declaration of a name decides its cell |
| VarInit.AlwaysDrawsFresh | engine/vars.go:23-31 | an `always` variable reads as prefix, a fresh draw and postfix on each read |
| VarInit.RandomBeforeValue | engine/vars.go:19-33 | a random kind wins over a static value |
| Variables.Vars.constructor | engine/vars.go:12 | the store starts empty |
| Variables.Vars.Delete | engine/steps/omit.go:40 | the key is removed and every other cell is kept |
| Query.WordEnd | query/query.go:39 | the end of the leading run of non-`\s` characters: nothing before it is a space and the character at it is one |
| Query.MatchLength | query/query.go:39 | a match at a non-space character is a quoted run or a space-free word, and is never empty |
| Query.TokenShapes | query/query.go:39-40 | every token `FindAllString` returns is a quoted run or a space-free word |
| Query.ParseQuery | query/query.go:37-58 | succeeds exactly when there are at least three tokens and the second is a known operator; fewer tokens give the "invalid query format" error; the result's operator is always known |
| Query.ApplyOperator | query/query.go:15-29 | defined exactly for `is`, `match` and `contains` |
| Query.EvaluateQuery | query/query.go:60-83 | an unknown operator is the "unknown operation" error |
| Query.TokenizeWord | query/query.go:39 | a plain word followed by nothing or by a space is read as one token |
| Query.TokenizeQuoted | query/query.go:39 | a quote-free text between quotes is read as one token, spaces included |
| Query.TokenizeJoin | query/query.go:39-40 | a space-joined list of plain words is read back as those words |
| Query.TrimOfQuoted | query/query.go:49 | trimming quotes from a quoted quote-free text gives the text |
| Query.TokenizeFormat | query/query.go:39-40 | a written query `field op "value"` is read as exactly three tokens |
| Query.ParseFormat | query/query.go:37-58 | parsing inverts writing: `ParseQuery(Format(q)) == Ok(q)` for every well-formed query |
| Query.ParseStatusExample | query/query.go:37-58 | `status is "200 ok"` parses to field `status`, operator `is`, value `200 ok` |
| Query.MissingFieldIsLiteral | query/query.go:61-65 | a field absent from the snapshot compares as its own name |
| Query.OperatorMeaning | query/query.go:15-29 | `is` holds exactly when operand and value are equal and `contains` exactly when the value occurs in the operand; neither fails |
| Query.MatchUsesOperandAsPattern | query/query.go:17-24 | `match` compiles the operand (the field's value) as the pattern and tests the query value against it; a compile error is wrapped as "invalid regex" |
| Query.EvaluateStatusExample | query/query.go:60-83 | the example query holds on `{status: 200 ok}` and, the field being missing, compares the literal `status` on an empty snapshot |
| LegacyQuery.FieldEnd | engine/evaluator.go:33 | the end of the leading run of non-space characters |
| LegacyQuery.Fields | engine/evaluator.go:33 | `strings.Fields` returns no more fields than there are characters |
| LegacyQuery.FieldShapes | engine/evaluator.go:33 | every field is a non-empty run without white space |
| LegacyQuery.ParseQuery | engine/evaluator.go:32-48 | succeeds exactly when there are at least three fields and the second is a known operator; fewer fields give "invalid query format" |
| LegacyQuery.EvaluateQuery | engine/evaluator.go:50-61 | a field missing from the snapshot is an error naming it; an unknown operator is "unknown operation" |
| LegacyQuery.FieldsSkipSpace | engine/evaluator.go:33 | leading white space of any width is skipped |
| LegacyQuery.FieldsWord | engine/evaluator.go:33 | a field followed by white space or nothing is read as itself |
| LegacyQuery.FieldsSpaced | engine/evaluator.go:33 | however wide the gaps, the fields of spaced words are the words |
| LegacyQuery.SpacedSingle | engine/evaluator.go:40 | with single-space gaps the spaced text is the plain join |
| LegacyQuery.FieldsOfQuery | engine/evaluator.go:33-40 | the fields of `field op w1 … wn` are the field, the operator and the words |
| LegacyQuery.ParseSpaced | engine/evaluator.go:32-48 | the legacy parser reads back `field op w1 … wn` with the words re-joined by single spaces, whatever the original gaps |
| LegacyQuery.ParseOfFields | engine/evaluator.go:38-47 | the parse is the first field, the second and the rest joined by spaces with quotes trimmed |
| LegacyQuery.MissingFieldContrast | engine/evaluator.go:51-54 | on a missing field the legacy evaluator fails while the current one compares the field's name |
| LegacyQuery.AgreeOnPresentField | engine/evaluator.go:50-61 | on a present field both evaluators agree on `is` and `contains` |
| HtmlTable.TextsOf | utils/html_parser.go:27-34 | a row yields at most one text per cell |
| HtmlTable.ParseTable | utils/html_parser.go:10-40 | one record per row after the first; record `i` maps the first row's `th` headers to row `i + 1`'s `td` texts, as `TableRecords` states |
| HtmlTable.RecordKeys | utils/html_parser.go:30-36 | a record's keys are the headers of the columns that have a data cell; with no headers it is empty |
| HtmlTable.LastColumnWins | utils/html_parser.go:33-34 | when a header repeats, the value is the cell of its last column |
| HtmlTable.OtherTagsIgnored | utils/html_parser.go:26-31 | cells of other tags do not change a row's header or data texts |
| HtmlTable.CellsPastHeadersDropped | utils/html_parser.go:31-35 | for every row, data cells past the last header are dropped: the record is that of the first `len(headers)` cells |
| HtmlTable.ExampleTable | utils/html_parser.go:32-35 | example: headers `a`, `b` and cells `1`, `2`, `3` give the record `a: 1`, `b: 2` |
| Query.Tokenize | query/query.go:39-40 | the matches of the splitting pattern, left to right: never more tokens than characters |
| Steps.FirstHandler | engine/steps/step.go:18-27 | the selector found accepts the declaration and none before it does; when none is found, no selector accepts it |
| Steps.ModeOf | engine/steps/get_element.go:32-37 | exactly `html`, `value`, `text` and `table` name a mode |
| Steps.BuildClick | engine/steps/click.go:50-72 | a success is a click plan that keeps the declaration as its config |
| Steps.BuildConfig | engine/steps/config.go:47-57 | a success is a config plan that keeps the declaration |
| Steps.BuildDebug | engine/steps/debug.go:45-55 | a success is a debug plan that keeps the declaration |
| Steps.BuildEval | engine/steps/eval.go:65-93 | a success is an eval plan that keeps the declaration |
| Steps.BuildFill | engine/steps/fill.go:56-84 | a success is a fill plan that keeps the declaration |
| Steps.BuildElement | engine/steps/get_element.go:73-99 | a success is an element plan, which keeps no declaration |
| Steps.BuildGoto | engine/steps/goto.go:53-71 | a success is a goto plan that keeps the declaration |
| Steps.BuildMouse | engine/steps/mouse.go:74-113 | a success is a mouse plan that keeps the declaration |
| Steps.BuildNop | engine/steps/nop.go:46-58 | a success is a nop plan that keeps the declaration |
| Steps.BuildOmit | engine/steps/omit.go:45-56 | a success is an omit plan, which keeps no declaration |
| Steps.BuildScreenshot | engine/steps/screenshot.go:61-82 | a success is a screenshot plan that keeps the declaration |
| Steps.BuildSelect | engine/steps/select.go:99-132 | a success is a select plan that keeps the declaration |
| Steps.BuildSleep | engine/steps/sleep.go:56-68 | a success is a sleep plan that keeps the declaration |
| Steps.BuildPlan | engine/steps/step.go:18-34 | a declaration no selector accepts is the "no handler found" error; a success is the first accepting selector's builder output |
| Steps.BuildAll | engine/steps/step.go:12-38 | succeeds exactly when every declaration builds, and then holds each one's plan in order |
| Steps.SelectStep.constructor | engine/steps/select.go:100-115 | the new object holds the lists it was built with |
| Steps.SelectsAppend | engine/steps/step.go:22 | appending a step adds exactly its select object |
| Steps.BuiltAppend | engine/steps/step.go:16-35 | a fresh, untouched step realising the next plan extends the built prefix |
| Steps.RealisedConf | engine/steps/step.go:51 | a step's `GetConfig` is its plan's |
| Steps.NewSelect | engine/steps/select.go:99-132 | agrees with `BuildSelect`: the same failures, and on success a fresh object holding `BuildSelect`'s lists |
| Steps.Generate | engine/steps/step.go:22 | agrees with the kind's builder; only a select step is an object, and it is fresh |
| Steps.BuildStep | engine/steps/step.go:17-34 | the inner loop agrees with `BuildPlan`: the first accepting selector builds, its error is wrapped "error generating step: ", and with no selector the result is "no handler found" |
| Steps.BuildSteps | engine/steps/step.go:12-38 | succeeds exactly when `BuildPlans` does, with one step per declaration, each realising its plan and each a distinct fresh object when stateful; a failure is `BuildPlans`' failure |
| Steps.ProgressComplete | engine/steps/step.go:37 | once every declaration is built, the plans are those of the whole list |
| Steps.BuildNext | engine/steps/step.go:16-35 | one round of the outer loop extends the built prefix by one fresh step, or fails with the whole build's failure |
| Steps.BuildAllNext | engine/steps/step.go:16-35 | one more declaration that builds appends its plan |
| Steps.FirstHandlerIs | engine/steps/step.go:18-27 | an accepting selector with none before it accepting is the one chosen |
| Steps.FailureStops | engine/steps/step.go:22-34 | once a declaration fails, every longer prefix fails the same way: no partial list |
| Steps.UnhandledFailsBuild | engine/steps/step.go:31-34 | a declaration no selector accepts fails the whole build with "no handler found" |
| Steps.BareLoopIsNop | engine/steps/nop.go:46-58 | a step with a string `loop` and no other kind's key is a nop whose text is the loop expression |
| Steps.ClickBeforeGoto | engine/steps/step.go:18-27 | selectors are tried in registration order: a step with both `click` and `goto` is a click |
| Steps.ConfIsDeclaration | engine/steps/omit.go:46 | `GetConfig` is the declaration, except for the omit and element steps, which keep none |
| Steps.GeneratorShape | engine/steps/step.go:43-47 | each kind builds its own plan, and only the select kind a select plan |
| Steps.SelectListExample | engine/steps/select.go:111-115 | example: `value`, `values`, a numeric `index` and a string `indexs` give the values `[a, b]` and the indexes `[b]` |
| Steps.SelectListOrder | engine/steps/select.go:111-115 | for every declaration, each list is its singular key's strings, then its plural key's, with `value_or_label` before `values_or_label`; a missing key or an entry of another type adds nothing |
| Steps.EmptySelectFails | engine/steps/select.go:117-120 | a select step with no option at all does not build |
| Steps.MousePoint | engine/steps/mouse.go:80-101 | `"10,20"` is the point (10, 20), and a missing action is a click |
| Steps.MouseParsed | engine/steps/mouse.go:80-101 | two halves that parse, with no action, give a click at that point |
| Steps.MouseSpaceFails | engine/steps/mouse.go:85-92 | `"10, 20"` is not a point: the second half keeps its space |
| Steps.MouseNeedsTwoParts | engine/steps/mouse.go:80-84 | any location that does not split into exactly two parts at commas is refused with the source's message, before either half is parsed |
| Steps.MouseThreePartsFail | engine/steps/mouse.go:81-84 | example: `1,2,3` is not a point |
| Steps.ElementModes | engine/steps/get_element.go:80-89 | an empty or missing mode is html, and a name outside the four modes does not build |
| Driver.Page.Perform | engine/steps/click.go:43 | the call is logged after every earlier call, and its reply is the driver's answer to it given the earlier calls |
| Driver.Page.Read | engine/steps/get_element.go:55-61 | a reading call is logged and answered from the history |
| Driver.Page.Capture | engine/steps/screenshot.go:52 | a screenshot call is logged and answered with the captured bytes |
| Driver.Page.Apply | engine/steps/config.go:36-41 | a call whose reply is not looked at is logged and nothing else changes |
| StepExec.Results.Put | engine/middlewares/mid_zz_execute.go:38-48 | the result map gains or replaces the one key |
| StepExec.Results.Delete | engine/steps/omit.go:41 | the result map loses the one key |
| StepExec.Dropped | engine/steps/click.go:43-47 | a call's value is dropped: success becomes `nil`, a failure passes through |
| StepExec.Textual | engine/steps/get_element.go:55-61 | a read string becomes the step's value, a failure passes through |
| StepExec.Stopped | engine/steps/click.go:36-40 | a failed expansion returns before any call, leaving the world and the step as they were |
| StepExec.RunClick | engine/steps/click.go:34-48 | the store and results are untouched and earlier calls stay first |
| StepExec.RunConfig | engine/steps/config.go:33-45 | the store and results are untouched and earlier calls stay first |
| StepExec.RunDebug | engine/steps/debug.go:33-43 | the store and results are untouched and earlier calls stay first |
| StepExec.RunEval | engine/steps/eval.go:35-63 | the store and results are untouched and earlier calls stay first |
| StepExec.RunFill | engine/steps/fill.go:35-54 | the store and results are untouched and earlier calls stay first |
| StepExec.RecordsValue | utils/html_parser.go:36 | one list entry per parsed record |
| StepExec.RunElement | engine/steps/get_element.go:46-71 | corrected table mode: the store and results are untouched and earlier calls stay first |
| StepExec.RunGoto | engine/steps/goto.go:33-51 | the store and results are untouched and earlier calls stay first |
| StepExec.RunMouse | engine/steps/mouse.go:47-72 | the store and results are untouched and earlier calls stay first |
| StepExec.RunNop | engine/steps/nop.go:35-44 | the store and results are untouched and earlier calls stay first |
| StepExec.RunOmit | engine/steps/omit.go:33-43 | no call is made on the page |
| StepExec.RunScreenshot | engine/steps/screenshot.go:35-59 | the store and results are untouched and earlier calls stay first |
| StepExec.RunSleep | engine/steps/sleep.go:34-54 | the store and results are untouched and earlier calls stay first |
| StepExec.AtoiResult | engine/steps/select.go:77 | succeeds exactly when `strconv.Atoi` accepts the text, with its value |
| StepExec.Rewrite | engine/steps/select.go:51-73 | the four lists keep their lengths, and once all four are expanded each holds the expansion of what it held |
| StepExec.PrepareSelect | engine/steps/select.go:41-86 | the lists keep their lengths, and a failed locator expansion leaves them untouched |
| StepExec.RunSelect | engine/steps/select.go:41-97 | corrected select step: the step afterwards holds the lists as rewritten in place; the store and results are untouched and earlier calls stay first |
| StepExec.Run | engine/steps/step.go:49-52 | with the corrected select step and table mode: only the omit step touches the store or the results; no step takes back a call already made; a step keeps its kind and its `GetConfig`, and only a select step's lists change |
| StepExec.ExecClick | engine/steps/click.go:34-48 | the calls made one at a time agree with `RunClick` |
| StepExec.ExecConfig | engine/steps/config.go:33-45 | agrees with `RunConfig` |
| StepExec.ExecDebug | engine/steps/debug.go:33-43 | agrees with `RunDebug` |
| StepExec.ExecEval | engine/steps/eval.go:35-63 | agrees with `RunEval` |
| StepExec.ExecFill | engine/steps/fill.go:35-54 | agrees with `RunFill` |
| StepExec.ParseTable | utils/html_parser.go:10-40 | the parsed rows mapped through `HtmlTable.ParseTable` give `TableValue` |
| StepExec.ExecElement | engine/steps/get_element.go:46-71 | corrected table mode: agrees with `RunElement` |
| StepExec.ExecGoto | engine/steps/goto.go:33-51 | agrees with `RunGoto` |
| StepExec.ExecMouse | engine/steps/mouse.go:47-72 | agrees with `RunMouse` |
| StepExec.ExecNop | engine/steps/nop.go:35-44 | agrees with `RunNop` |
| StepExec.ExecOmit | engine/steps/omit.go:33-43 | agrees with `RunOmit` |
| StepExec.ExecScreenshot | engine/steps/screenshot.go:35-59 | agrees with `RunScreenshot` |
| StepExec.ExecSleep | engine/steps/sleep.go:34-54 | agrees with `RunSleep` |
| StepExec.RewriteLists | engine/steps/select.go:51-73 | the four in-place rewrites of the step's fields agree with `Rewrite` |
| StepExec.ExecSelect | engine/steps/select.go:41-97 | corrected select step: agrees with `RunSelect`, including the lists left in the object |
| StepExec.ExecPlain | engine/steps/step.go:50 | with the corrected table mode: a step that is a value agrees with `Run` |
| StepExec.Execute | engine/steps/step.go:50 | with the corrected select step and table mode: every step agrees with `Run` on its current state |
| StepExec.TemplateFailureStops | engine/steps/click.go:36-40 | a failure to expand the first template ends the step before any call, deletion or rewrite; the failure is the result, except that the debug step swallows an error |
| StepExec.ConfigSetsTimeouts | engine/steps/config.go:33-45 | each timeout is set exactly when its key is present, the default one first, and the step returns `(nil, nil)` |
| StepExec.DebugNeverFails | engine/steps/debug.go:33-43 | the debug step returns the expanded text, or `nil` when the expansion errs; it fails only by a panic and makes no call |
| StepExec.EvalScope | engine/steps/eval.go:50-62 | the code runs on the page exactly when the expanded locator is empty, and the driver's reply is returned unchanged |
| StepExec.FillValueFailureStops | engine/steps/fill.go:43-47 | a failure to expand the value ends the step before the page is touched |
| StepExec.ClickCalls | engine/steps/click.go:42-47 | once the locator expands, one click on it is logged, and the result is `nil` or the driver's error |
| StepExec.FillCalls | engine/steps/fill.go:53 | once both templates expand, one fill of the expanded value into the expanded locator is logged, and the result is `nil` or the driver's error |
| StepExec.GotoNavigates | engine/steps/goto.go:48-50 | a non-empty expanded URL is navigated to once, and the driver's reply is the result |
| StepExec.NopReturnsText | engine/steps/nop.go:37-43 | the nop step returns its expanded text, or the expansion's failure, and touches nothing |
| StepExec.GotoEmptyUrl | engine/steps/goto.go:41-46 | an empty URL is refused without navigating |
| StepExec.ScreenshotIsBase64 | engine/steps/screenshot.go:52-58 | a successful screenshot is the padded base64 text of the captured bytes, four symbols per three bytes, and decodes back to them |
| StepExec.ScreenshotEmptyLocator | engine/steps/screenshot.go:43-48 | an empty locator is refused without capturing |
| StepExec.MouseActions | engine/steps/mouse.go:54-71 | an action outside the six is refused when the step runs; `up` and `down` ignore the point; `click` clicks at the point |
| StepExec.OmitDeletes | engine/steps/omit.go:33-43 | the expanded name is deleted from the store and the results and nothing else changes; an absent name changes nothing |
| StepExec.SleepOutcomes | engine/steps/sleep.go:41-53 | a duration that does not parse is returned and nothing sleeps; a parsed one is slept and the step returns `(nil, nil)` |
| StepExec.ElementReads | engine/steps/get_element.go:53-62 | the html, value and text modes return what the driver reads from the element, as a string |
| StepExec.TableModeAsWritten | engine/steps/get_element.go:63-68 | as written, a successful read gives `nil` and a failed read parses an empty table |
| StepExec.TableModeCorrected | engine/steps/get_element.go:63-68 | corrected, a successful read is parsed as a table and a failed read is the error |
| StepExec.SelectRewritesLists | engine/steps/select.go:51-86 | after a run that converts the indexes, every list holds its expansion, and the integers come from expanding the index texts a second time |
| StepExec.SelectBadIndex | engine/steps/select.go:76-82 | an index that is not an integer after its second expansion fails the step with the lists left rewritten, and nothing is selected |
| StepExec.SelectAsWrittenPanics | engine/steps/select.go:88-94 | as written, every run that gets through the conversion panics on the option lists it never set |
| StepExec.SelectReachesDriver | engine/steps/select.go:88-96 | corrected, a built step always reaches the driver with all four lists once they expand, since expansion keeps the lengths |
| StepExec.SelectKeepsOptions | engine/steps/select.go:51-73 | the lists of a built step never become all empty by running it |
| StepExec.Results.constructor | engine/engine.go:74 | the result map starts empty |
| Driver.Page.constructor | engine/engine.go:61 | a new page has made no call yet and answers through the given oracles |
| Middlewares.Chain.constructor | engine/middlewares/middleware.go:11 | the chain starts empty |
| Middlewares.Chain.Register | engine/middlewares/middleware.go:13-15 | a middleware is appended after those already registered |
| Middlewares.RegisterStandard | engine/middlewares/mid_00_err_handler.go:12-15 | the `init` functions of the current files register, in file-name order, the error handler, the `if` guard, the loop and the executor |
| Middlewares.MaxDepthBounds | engine/middlewares/mid_11_for.go:39-66 | no element of a `steps` list nests deeper than the list's maximum |
| Middlewares.Counted | engine/middlewares/mid_11_for.go:95-100 | a count of `n` gives `n` items, item `i` being the decimal text of `i` |
| Middlewares.FirstNonMap | engine/middlewares/mid_11_for.go:44-52 | there is no index exactly when every remaining element is a map, and otherwise it is the first element that is not |
| Middlewares.StepDecls | engine/middlewares/mid_11_for.go:39-56 | the nested declarations are found exactly when every element is a map, in order and one per element; otherwise the error names the first element that is not |
| Middlewares.LoopSetup | engine/middlewares/mid_11_for.go:30-66 | once the setup succeeds, the `loop` value is the returned string |
| Middlewares.LoopPlansShallower | engine/middlewares/mid_11_for.go:39-66 | each nested step of a loop nests less deeply than the loop step, so running loops ends |
| Middlewares.SetVar | engine/middlewares/mid_zz_execute.go:30-51 | a failed write leaves the result map as it was |
| Middlewares.Handle | engine/middlewares/middleware.go:21-26 | handing a step to the chain never changes the step's `GetConfig` |
| Middlewares.At | engine/middlewares/middleware.go:28-43 | no middleware changes the step's `GetConfig` |
| Middlewares.ThroughHandler | engine/middlewares/mid_00_err_handler.go:17-41 | the error handler does not change the step's `GetConfig` |
| Middlewares.ThroughDiscarder | engine/middlewares/mid_00_err_discarder.go:16-30 | the error discarder does not change the step's `GetConfig` |
| Middlewares.Condition | engine/middlewares/mid_10_if.go:25-63 | the condition is absent exactly when the step has no `if` key |
| Middlewares.ThroughGuard | engine/middlewares/mid_10_if.go:25-76 | the `if` guard does not change the step's `GetConfig` |
| Middlewares.ThroughLoop | engine/middlewares/mid_11_for.go:22-83 | the loop does not change the step's `GetConfig` |
| Middlewares.ThroughExecutor | engine/middlewares/mid_zz_execute.go:19-54 | the executor does not change the step's `GetConfig` |
| Middlewares.HandleStep | engine/middlewares/middleware.go:21-26 | the error, world and step after the call are `Handle`'s |
| Middlewares.MiddlewareExec | engine/middlewares/middleware.go:28-43 | the error, world and step after middleware `i` are `At`'s |
| Middlewares.ErrorHandler | engine/middlewares/mid_00_err_handler.go:17-41 | agrees with `ThroughHandler` |
| Middlewares.ErrorDiscard | engine/middlewares/mid_00_err_discarder.go:16-30 | agrees with `ThroughDiscarder` |
| Middlewares.EvaluateCondition | engine/middlewares/mid_10_if.go:30-63 | the pipeline's verdict is `Condition`'s, and the store is changed only by a condition that is there |
| Middlewares.ConditionCheck | engine/middlewares/mid_10_if.go:25-76 | agrees with `ThroughGuard` |
| Middlewares.CollectDecls | engine/middlewares/mid_11_for.go:39-56 | the loop over the `steps` list gives `StepDecls` |
| Middlewares.CountItems | engine/middlewares/mid_11_for.go:95-100 | the counting loop gives `Counted` |
| Middlewares.JsonItems | engine/middlewares/mid_11_for.go:109-120 | the loop over the JSON array converts every element, and its first refusal is the result |
| Middlewares.EvaluateLoop | engine/middlewares/mid_11_for.go:85-122 | agrees with `LoopValues` |
| Middlewares.PrepareLoop | engine/middlewares/mid_11_for.go:30-66 | succeeds exactly when `LoopSetup` does, with its error otherwise; the nested steps are new, distinct objects holding the plans |
| Middlewares.ForLoop | engine/middlewares/mid_11_for.go:22-83 | agrees with `ThroughLoop` |
| Middlewares.RunLoop | engine/middlewares/mid_11_for.go:30-82 | agrees with `LoopBody` |
| Middlewares.RunItems | engine/middlewares/mid_11_for.go:74-81 | the outer loop over the items agrees with `Items` |
| Middlewares.RunItem | engine/middlewares/mid_11_for.go:75-80 | one item: a failure is `Items`' result, and a success leaves the rest of `Items` to come |
| Middlewares.RunNested | engine/middlewares/mid_11_for.go:76-80 | the inner loop over the nested steps agrees with `Nested`, and a success leaves the rest of `Items` to come |
| Middlewares.NestedStep | engine/middlewares/mid_11_for.go:77 | one nested step goes through the chain as `Handle` says, and the other nested steps are left as they were |
| Middlewares.StoreResult | engine/middlewares/mid_zz_execute.go:30-51 | the write to the result map agrees with `SetVar` |
| Middlewares.Exec | engine/middlewares/mid_zz_execute.go:19-54 | agrees with `ThroughExecutor` |
| MiddlewareFacts.HandlerPolicy | engine/middlewares/mid_00_err_handler.go:23-40 | a success of the rest of the chain passes through; a failure is swallowed under `ignore` and `print`, panics under `panic`, and is returned otherwise; nothing else changes |
| MiddlewareFacts.PoliciesWithoutNext | engine/middlewares/mid_00_err_handler.go:18-21 | an error handler with no `next` does nothing and succeeds, while a discarder with no `next` dereferences nil |
| MiddlewareFacts.DiscarderPolicy | engine/middlewares/mid_00_err_discarder.go:16-30 | the discarder applies the policy to whatever the rest of the chain returned, success included |
| MiddlewareFacts.Judged | engine/middlewares/mid_00_err_handler.go:23-40 | the verdict changes only the outcome, and a success stays a success |
| MiddlewareFacts.StandardFirst | engine/middlewares/mid_00_err_handler.go:17-41 | the standard chain is the error handler's verdict on the rest of it |
| MiddlewareFacts.StandardSecond | engine/middlewares/mid_10_if.go:25-76 | the second link runs the rest only when there is no condition or it holds; a false one is `errTestFailed`, and a broken one is its error |
| MiddlewareFacts.StandardThird | engine/middlewares/mid_11_for.go:22-83 | the third link hands a step without `loop` to `exec` with no `next`, and runs the loop body otherwise |
| MiddlewareFacts.PlainStepRunsOnce | engine/middlewares/middleware.go:21-43 | a step with neither `if` nor `loop` runs exactly once, at `exec`, under the error handler's policy |
| MiddlewareFacts.TrueConditionRuns | engine/middlewares/mid_10_if.go:67-73 | a true condition runs the step against the store as the condition left it |
| MiddlewareFacts.FalseConditionSkips | engine/middlewares/mid_10_if.go:75 | a false condition skips the step under the error policy: the page and the results are untouched |
| MiddlewareFacts.BrokenConditionSkips | engine/middlewares/mid_10_if.go:30-63 | a condition that cannot be read, expanded, parsed or evaluated skips the step, and its error goes to the error policy |
| MiddlewareFacts.LoopStepNeverRuns | engine/middlewares/mid_11_for.go:74-82 | a `loop` step itself never reaches `exec`; only its nested steps run |
| MiddlewareFacts.NatToStringIsDecimal | engine/middlewares/mid_11_for.go:98 | the decimal rendering of a natural number, and of its negation, reads back as that number |
| MiddlewareFacts.CountFromZero | engine/middlewares/mid_11_for.go:91-101 | a count `n` gives the items "0" up to "n-1" |
| MiddlewareFacts.NegativeCountPanics | engine/middlewares/mid_11_for.go:95 | a negative count reaches `make` unguarded and panics |
| MiddlewareFacts.FractionRefused | engine/middlewares/mid_11_for.go:92-94 | a number that is not integral is refused |
| MiddlewareFacts.JsonArrayItems | engine/middlewares/mid_11_for.go:104-120 | a JSON array gives items exactly when each element is a number or a string, numbers formatted and strings kept |
| MiddlewareFacts.EmptyLoopKeepsLastItem | engine/middlewares/mid_11_for.go:74-81 | with no nested steps the loop succeeds and leaves `item` holding the last item |
| MiddlewareFacts.FirstFailureEndsLoop | engine/middlewares/mid_11_for.go:77-79 | the first nested step that fails ends the loop with its failure |
| MiddlewareFacts.NoSetVarStoresNothing | engine/middlewares/mid_zz_execute.go:30 | without `set-var` nothing is stored |
| MiddlewareFacts.FirstWriteStoresJson | engine/middlewares/mid_zz_execute.go:43-48 | the first write to a key stores a one-element list holding the JSON text of the value |
| MiddlewareFacts.LaterWriteAppends | engine/middlewares/mid_zz_execute.go:35-41 | a later write appends the value's `%v` rendering |
| MiddlewareFacts.WrongTypesRefused | engine/middlewares/mid_zz_execute.go:31-41 | a `set-var` that is not a string, or a key holding something other than a list of strings, is refused and nothing changes |
| MiddlewareFacts.SetVarTouchesOnlyItsKey | engine/middlewares/mid_zz_execute.go:30-51 | a write touches its own key and no other |
| MiddlewareFacts.WriteAll | engine/middlewares/mid_zz_execute.go:30-51 | writing a series of values fails only when there is a value to write |
| MiddlewareFacts.Renderings | engine/middlewares/mid_zz_execute.go:39 | one `%v` rendering per value, in order |
| MiddlewareFacts.WritesAccumulate | engine/middlewares/mid_zz_execute.go:30-51 | `n` writes to a new key leave `n` strings in write order: the first as JSON, the rest as `%v` renderings |
| MiddlewareFacts.RenderingsAppend | engine/middlewares/mid_zz_execute.go:39 | one more value adds one more rendering at the end |
| MiddlewareFacts.WritesExample | engine/middlewares/mid_zz_execute.go:30-51 | writing "a", "b" and "c" to one key gives the quoted first value and the two bare ones |
| Engine.LaunchBrowser | engine/engine.go:163-174 | a browser type is accepted exactly when it is `chromium`, `firefox` or `webkit`, picking that browser; any other type fails with the message naming it |
| Engine.LaunchByName | engine/engine.go:163-174 | every browser is launched by its own name |
| Engine.Launched | engine/engine.go:29-65 | the preflight succeeds only when Playwright starts, the browser type is known and a page opens; an unknown type, with Playwright started, is the launch error |
| Engine.DepthBound | engine/engine.go:74-79 | a bound on the nesting of any list of steps exists, so running them ends |
| Engine.Prepare | engine/steps/step.go:12-38 | steps are built exactly when the plans are, with the build's error otherwise; the built steps are new, distinct objects holding the plans |
| Engine.RunSteps | engine/engine.go:74-79 | the step loop agrees with `RunAll`: in order, the first failure ends the run |
| Engine.RunBatchSteps | engine/engine.go:142-147 | the batch loop agrees with `RunBatch`: every step runs, and a failure is passed over |
| Engine.ExecuteConfig | engine/engine.go:17-83 | the result and the page calls are `Configured`'s |
| Engine.BuildAndRun | engine/engine.go:68-82 | the build and the step loop agree with `Executed` |
| Engine.RunBuilt | engine/engine.go:73-82 | the built steps run in order into a fresh result map; the map is returned only if no step failed, as `Completed` says |
| Engine.StreamBatch | engine/engine.go:136-148 | one batch agrees with `OneBatch`: the map sent, the store and the page calls |
| Engine.RunBuiltBatch | engine/engine.go:136-148 | a built batch runs into a result map of its own, as `BatchRun` says |
| Engine.ExecuteStream | engine/engine.go:85-153 | the maps sent, the store and the page calls are `Streamed`'s |
| Engine.ContinuesFurther | engine/engine.go:134-150 | what a stream sends accumulates: what was sent, then what comes next |
| Engine.StreamAll | engine/engine.go:134-150 | the loop over the batches agrees with `Emit`, one store and one page shared by all of them |
| EngineFacts.RunAllReaches | engine/engine.go:74-79 | while every step succeeds, the run goes on from the world they left |
| EngineFacts.FirstFailing | engine/engine.go:74-79 | when some step fails there is a first one, and every step before it succeeded |
| EngineFacts.FirstFailureEndsRun | engine/engine.go:75-78 | the first step that fails ends a configured run with its own error and the world it left |
| EngineFacts.AllOrNothing | engine/engine.go:74-82 | a configured run succeeds exactly when every step does, and then ends in the world the last step left |
| EngineFacts.RunBatchReaches | engine/engine.go:142-147 | while no step panics, a batch goes on from the world the steps left |
| EngineFacts.FirstPanicking | engine/engine.go:142-147 | when some step panics there is a first one, and no step before it panicked |
| EngineFacts.BatchRunsEveryStep | engine/engine.go:142-147 | a batch ends in a panic exactly when one of its steps panics; otherwise every step runs, failing ones included, and the batch succeeds |
| EngineFacts.PreflightComesFirst | engine/engine.go:19-23 | bad variables are reported by both entry points before the browser is started, with no page call |
| EngineFacts.NoStepsRefused | engine/engine.go:24-26 | a configuration without steps is refused before the browser is started, whatever Playwright would do |
| EngineFacts.LaunchFailureStops | engine/engine.go:29-65 | a browser that cannot be had ends both entry points with the launch error and no page call |
| EngineFacts.UnsupportedBrowser | engine/engine.go:171-172 | an unsupported browser type is named in the failure |
| EngineFacts.ConfiguredAllOrNothing | engine/engine.go:68-82 | once the preflight passes, a run that cannot build its steps fails with the build error and no page call; a built one returns the result map exactly when every step succeeds |
| EngineFacts.Buildable | engine/engine.go:137-141 | no more batches build than there are |
| EngineFacts.StreamEndsOnlyOnPanic | engine/engine.go:134-150 | a stream ends either when its batches run out or on a panic, never on an ordinary failure |
| EngineFacts.OneMapPerBuiltBatch | engine/engine.go:135-148 | a stream that does not panic sends one result map for every batch that builds |
| EngineFacts.UnbuildableBatchSkipped | engine/engine.go:137-141 | a batch that does not build is passed over: no map is sent and nothing changes |
| EngineFacts.EmptyBatchSendsEmptyMap | engine/engine.go:136-148 | an empty batch sends an empty result map and changes nothing |

## Left out

- Playwright itself: the browser, the page and every element call are answered by oracle functions of the call history. Timeouts, navigation and rendering are not modelled.
- Third-party libraries are oracles with only the contracts stated in `foreign.dfy`:
  - `text/template` parsing and execution;
  - `regexp`;
  - `goquery` HTML parsing;
  - `encoding/json` beyond quoting a plain string;
  - `fmt`'s `%v` beyond strings and nil;
  - `mapstructure`;
  - `strconv.ParseFloat` beyond decimal integers up to 2^53 in magnitude;
  - `time.ParseDuration`;
  - the random-string generator.
- `time.Sleep` is a logged call. No time passes.
- `slog` logging is left out. Only its effect on control flow is modelled: an error that is logged and swallowed.
- `handleKeepRunning`, `killWithContext`, `playwright.Run`'s process, and closing the browser and Playwright:
  - they are process lifetime and concurrency;
  - the preflight answers of `playwright.Run`, `launchBrowser` and `NewPage` are parameters.
- The channels of `ExecuteStream`:
  - the batches arrive as a sequence;
  - the maps sent are a sequence;
  - the worker goroutine runs to completion.
- `context.Context` cancellation is left out.
- A nil step reaching the chain (`errStepMissing`) cannot happen here. Built steps are never nil, so the `nil` checks of the middlewares are not modelled.
- `engine/middlewares/mid_0_if.go` (the struct-based `if` middleware of another generation) is not part of this model.
- The sources hold files of more than one generation of the middleware package: `mid_0_if.go` and `mid_10_if.go` both declare `getCond`, so they cannot be compiled into one package. The model takes `mid_00_err_discarder.go` to belong to another generation, and assumes it is not compiled alongside `mid_00_err_handler.go`. If both were compiled, Go's file-name order of `init` would register the discarder first, giving the chain discarder, handler, guard, loop, executor. The discarder is modelled as an alternative policy (`Middlewares.ThroughDiscarder`) and is not in the standard chain.
- `get_element.go` registers through `StepSelectors`. The step has no `GetConfig` of its own. The model treats it as registered in file-name order, with a nil config.
- `makeslice` panics for counts beyond memory are not modelled. Only the negative count is.
- `StepExec.AtoiResult`: the error text writes `strconv.Quote`'s quoting as plain quotes, so escapes inside the text are not modelled.
- The loop's `FormatFloat(v, 'f', -1, 64)` for JSON numbers is an oracle.
- Steps.BuildClick: states only the plan shape on success. The fields the builder reads are in the plan itself, and `Steps.GeneratorShape` relates the plan to its kind.
- Steps.BuildConfig: states only the plan shape on success, as for `BuildClick`.
- Steps.BuildDebug: states only the plan shape on success, as for `BuildClick`.
- Steps.BuildEval: states only the plan shape on success, as for `BuildClick`.
- Steps.BuildFill: states only the plan shape on success, as for `BuildClick`.
- Steps.BuildElement: states only the plan shape on success. The modes are stated by `Steps.ElementModes`.
- Steps.BuildGoto: states only the plan shape on success, as for `BuildClick`.
- Steps.BuildMouse: states only the plan shape on success. Points are stated by `Steps.MousePoint` and the lemmas beside it.
- Steps.BuildNop: states only the plan shape on success. The bare `loop` case is `Steps.BareLoopIsNop`.
- Steps.BuildOmit: states only the plan shape on success, as for `BuildClick`.
- Steps.BuildScreenshot: states only the plan shape on success, as for `BuildClick`.
- Steps.BuildSelect: states only the plan shape on success. The lists are stated by `Steps.SelectListOrder` and `Steps.EmptySelectFails`.
- Steps.BuildSleep: states only the plan shape on success, as for `BuildClick`.
- Middlewares.Handle: its own contract states only that the configuration is kept. What the chain does is stated by the lemmas of `MiddlewareFacts`.
- Middlewares.At: its own contract states only that the configuration is kept, as for `Handle`.
- Middlewares.ThroughHandler: its own contract states only that the configuration is kept. The policy is `MiddlewareFacts.HandlerPolicy`.
- Middlewares.ThroughDiscarder: its own contract states only that the configuration is kept. The policy is `MiddlewareFacts.DiscarderPolicy`.
- Middlewares.ThroughGuard: its own contract states only that the configuration is kept. The guard is `MiddlewareFacts.StandardSecond` and the condition lemmas.
- Middlewares.ThroughLoop: its own contract states only that the configuration is kept. The loop is `MiddlewareFacts.StandardThird` and the loop lemmas.
- Middlewares.ThroughExecutor: its own contract states only that the configuration is kept. Storing is stated by the `set-var` lemmas.
- Middlewares.SetVar: its own contract states only that a failure stores nothing. The writes are stated by the `set-var` lemmas of `MiddlewareFacts`.
- Middlewares.LoopSetup: its own contract states only the returned condition. The nested steps are stated by `Middlewares.StepDecls` and `Middlewares.LoopPlansShallower`.
- StepExec.RunClick: its own contract states the frame only. The click is stated by `StepExec.ClickCalls`, and a failed expansion by `StepExec.TemplateFailureStops`.
- StepExec.RunConfig: its own contract states the frame only. The timeouts are stated by `StepExec.ConfigSetsTimeouts`.
- StepExec.RunDebug: its own contract states the frame only. The result is stated by `StepExec.DebugNeverFails`.
- StepExec.RunEval: its own contract states the frame only. The call and the result are stated by `StepExec.EvalScope`.
- StepExec.RunFill: its own contract states the frame only. The fill is stated by `StepExec.FillCalls`, and the failures by `StepExec.FillValueFailureStops` and `StepExec.TemplateFailureStops`.
- StepExec.RunElement: its own contract states the frame only. The reads are stated by `StepExec.ElementReads` and `StepExec.TableModeCorrected`.
- StepExec.RunGoto: its own contract states the frame only. Navigation is stated by `StepExec.GotoNavigates`, and the empty URL by `StepExec.GotoEmptyUrl`.
- StepExec.RunMouse: its own contract states the frame only. The actions are stated by `StepExec.MouseActions`.
- StepExec.RunNop: its own contract states the frame only. The result is stated by `StepExec.NopReturnsText`.
- StepExec.RunOmit: its own contract states only that no call is made. The deletion is stated by `StepExec.OmitDeletes`.
- StepExec.RunScreenshot: its own contract states the frame only. The result is stated by `StepExec.ScreenshotIsBase64` and `StepExec.ScreenshotEmptyLocator`.
- StepExec.RunSleep: its own contract states the frame only. The outcomes are stated by `StepExec.SleepOutcomes`.
- StepExec.RunSelect: its own contract states the frame and the rewritten lists. The rest is stated by `StepExec.SelectRewritesLists`, `StepExec.SelectBadIndex` and `StepExec.SelectReachesDriver`.
- Foreign.ToFloat64: a declaration value is an integer, a boolean, a string, a list or a map. A fractional YAML or JSON number such as `timeout: 1.5` cannot be written, so `cast.ToFloat64` is modelled only on integer numbers.
- Foreign.FormatFloat: a JSON number is a real, which has no negative zero. Go prints a decoded `-0` as "-0", and the model prints "0".
- Foreign.FormatIntegralFloat: for the same reason, it does not cover the negative zero, which Go renders as "-0".
- LegacyQuery.EvaluateQuery: the legacy `contains` prints both operands to standard output with `fmt.Println` each time it runs (engine/evaluator.go:21). Output is not modelled.
- Template.EvaluateTemplate: running a template has effects in Go that the model drops. Each `{{ name }}` of an `always` variable calls its getter, which draws a fresh random string (engine/vars.go:24-31). Each `{{ eval … }}` calls `page.Evaluate` on the browser. `Template.Expand` is a pure function of the live snapshot, so no generator advances and no eval call reaches the page's call log. As a result, two expansions of the same text under the same store always agree, and between two `if` snapshots an `always` variable behaves like a `once` variable.
- Template.Expand: for the same reason, `StepExec.ClickCalls`, `StepExec.FillCalls`, `StepExec.GotoNavigates` and the other step lemmas log only the step's own driver call. In Go, a locator or value that uses `eval` adds its evaluations to the page's calls first.
- VarInit.InitializeVariables: each `always` getter captures its own declaration. This is the per-iteration loop variable of Go 1.22 and later. Under an older `go` directive, every closure created at engine/vars.go:26-30 would see the last declaration. No `go.mod` is part of this model.
- StepExec.ParseTable: when a document has fewer than two rows, Go's `ParseTable` returns a nil `[]map[string]any`. JSON renders it as `null`, while the model stores an empty list, which renders as `[]`. The model has no typed-nil value.
- Template.ExpandAsWritten: `Funcs` also panics on a name that is not a Go identifier, which is not modelled. Its panic message names the first offending entry in Go's random map order, while the model gives one fixed message.

## Findings

| source | as written | input that shows it | evidently intended | confidence | as-written member | corrected member |
|---|---|---|---|---|---|---|
| engine/steps/select.go:89-94 | `selectOpt` is created empty at line 47, and only `Indexes` is ever set; the check at 89-94 dereferences `Values`, `ValuesOrLabels` and `Labels`, which are nil | any select step whose lists expand and whose indexes convert, e.g. `select: "#s"`, `value: "a"` | set all four option lists from the expanded lists, refuse a step whose lists are all empty, and call `SelectOption` | not executed | StepExec.RunSelectAsWritten, StepExec.SelectAsWrittenPanics | StepExec.RunSelect, StepExec.SelectReachesDriver |
| utils/template.go:41 | the whole map of variables goes to `Funcs`, and `text/template` panics on any entry that is not a function; every fixed variable is a plain string | a store holding any fixed variable, such as a static or `once` declaration, or the loop's `item` under `loop: "3"` with `debug: "{{.item}}"` | hand `Funcs` only the function entries and leave every variable in the data for `Execute` | not executed | Template.ExpandAsWritten, Template.FixedVariablePanics, Template.LoopItemPanicsAsWritten | Template.Expand, Template.CorrectedFuncsAccepted, Template.OtherVariablesReachTemplate |
| engine/steps/get_element.go:63-68 | the table is parsed only when `InnerHTML` returns an error, so a successful read gives `nil` and a failed read parses an empty table | an `element` step in `table` mode on an element whose inner HTML is read without error | parse the table when the read succeeds, and return the error when it fails | not executed | StepExec.TableAsWritten, StepExec.TableModeAsWritten | StepExec.TableCorrected, StepExec.TableModeCorrected |
