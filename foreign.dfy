/** The third-party and standard-library calls the interpreter makes
    outside the browser. Each is an oracle field of `Libraries`, except for
    the parts whose behaviour the interpreter visibly relies on, which are
    written out here and consult the oracle only for the remaining inputs. */
module Foreign {
  import opened Base
  import opened Text
  import Template
  import Query
  import HtmlTable

  /** A `float64` as the interpreter sees it: a finite value, or one of
      NaN, +Inf and -Inf, which it never tells apart. */
  datatype Number = Finite(r: real) | NonFinite

  /** An element of a JSON array decoded into `[]interface{}`. */
  datatype Json =
    | JNull
    | JBool(b: bool)
    | JNumber(r: real)
    | JString(s: string)
    | JArray(items: seq<Json>)
    | JObject(fields: map<string, Json>)

  /** The option structs of the driver that `LoadParams` fills. */
  datatype OptionKind =
    | ClickOptions
    | EvaluateOptions
    | FillOptions
    | GotoOptions
    | ScreenshotOptions
    | SelectOptions

  /** A decoded option struct, represented by the `params` map it was
      decoded from. */
  datatype Options = Options(kind: OptionKind, params: map<string, Value>)

  datatype Libraries = Libraries(
    /** `text/template`. */
    engine: Template.Engine,
    /** `regexp.MatchString(pattern, subject)`. */
    regex: Query.Matcher,
    /** `strconv.ParseFloat(s, 64)` on strings other than short decimal
        integers and strings with white space. */
    parseFloat: string -> Option<Number>,
    /** `strconv.FormatFloat(r, 'f', -1, 64)` on values other than
        integers of at most 2^53 in magnitude. */
    formatFloat: real -> string,
    /** `json.Unmarshal` into `[]interface{}`. */
    decodeArray: string -> Result<seq<Json>>,
    /** `time.ParseDuration`, in nanoseconds. */
    parseDuration: string -> Result<int>,
    /** The error `mapstructure.Decode` reports for a `params` map, if any. */
    paramsError: (OptionKind, map<string, Value>) -> Option<Error>,
    /** goquery's parse of a document into its `tr` rows. */
    htmlRows: string -> Result<seq<HtmlTable.Row>>,
    /** `json.Marshal` on values other than nil, booleans, integers and
        plain strings. */
    marshal: Value -> Result<string>,
    /** `fmt.Sprintf("%v", v)` on values other than nil, booleans,
        integers and strings. */
    sprint: Value -> string)

  const TwoTo53: int := 0x20_0000_0000_0000

  /** `strconv.ParseFloat(s, 64)`. An optionally signed decimal integer of
      at most 2^53 in magnitude is read exactly; Go accepts no white space
      anywhere, so a string holding any is rejected. */
  function ParseFloat(lib: Libraries, s: string): (r: Option<Number>)
    ensures IsDecimalInteger(s) && -TwoTo53 <= DecimalIntegerValue(s) <= TwoTo53 ==>
      r == Some(Finite(DecimalIntegerValue(s) as real))
    ensures HasSpace(s) ==> r.None?
  {
    if IsDecimalInteger(s) && -TwoTo53 <= DecimalIntegerValue(s) <= TwoTo53 then
      Some(Finite(DecimalIntegerValue(s) as real))
    else if s == [] || HasSpace(s) then None
    else lib.parseFloat(s)
  }

  /** `strconv.FormatFloat(r, 'f', -1, 64)`: exact digits for integers of
      at most 2^53 in magnitude. */
  function FormatFloat(lib: Libraries, r: real): (s: string)
    ensures r == r.Floor as real && -TwoTo53 <= r.Floor <= TwoTo53 ==> s == IntToString(r.Floor)
  {
    if r == r.Floor as real && -TwoTo53 <= r.Floor <= TwoTo53 then IntToString(r.Floor)
    else lib.formatFloat(r)
  }

  /** `cast.ToFloat64`: numbers and booleans convert, strings are parsed,
      and everything else, including a failed parse, gives 0. */
  function ToFloat64(lib: Libraries, v: Value): (n: Number)
    ensures v.VNum? ==> n == Finite(v.n as real)
    ensures !v.VNum? && !v.VBool? && !v.VStr? ==> n == Finite(0.0)
  {
    match v
    case VNum(i) => Finite(i as real)
    case VBool(b) => Finite(if b then 1.0 else 0.0)
    case VStr(s) =>
      (match ParseFloat(lib, s)
       case Some(x) => x
       case None => Finite(0.0))
    case _ => Finite(0.0)
  }

  /** A string `encoding/json` writes between quotes unchanged: no quote,
      backslash, HTML-sensitive character, control character or line or
      paragraph separator. */
  predicate JsonPlain(s: string)
  {
    forall i :: 0 <= i < |s| ==>
      s[i] >= ' ' && s[i] != '"' && s[i] != '\\' && s[i] != '<' && s[i] != '>' && s[i] != '&'
      && s[i] != '\U{2028}' && s[i] != '\U{2029}'
  }

  /** `json.Marshal`. */
  function Marshal(lib: Libraries, v: Value): (r: Result<string>)
    ensures v == VNull ==> r == Ok("null")
    ensures v.VStr? && JsonPlain(v.s) ==> r == Ok("\"" + v.s + "\"")
    ensures v.VNum? ==> r == Ok(IntToString(v.n))
  {
    match v
    case VNull => Ok("null")
    case VBool(b) => Ok(if b then "true" else "false")
    case VNum(n) => Ok(IntToString(n))
    case VStr(s) => if JsonPlain(s) then Ok("\"" + s + "\"") else lib.marshal(v)
    case _ => lib.marshal(v)
  }

  /** `fmt.Sprintf("%v", v)`. */
  function Sprint(lib: Libraries, v: Value): (s: string)
    ensures v == VNull ==> s == "<nil>"
    ensures v.VStr? ==> s == v.s
    ensures v.VNum? ==> s == IntToString(v.n)
  {
    match v
    case VNull => "<nil>"
    case VBool(b) => if b then "true" else "false"
    case VNum(n) => IntToString(n)
    case VStr(s) => s
    case _ => lib.sprint(v)
  }

  /** `%T` of an `interface{}` holding the value. */
  function TypeName(v: Value): string
  {
    match v
    case VNull => "<nil>"
    case VBool(_) => "bool"
    case VNum(_) => "int"
    case VStr(_) => "string"
    case VList(_) => "[]interface {}"
    case VStrList(_) => "[]string"
    case VMap(_) => "map[string]interface {}"
    case VBytes(_) => "[]uint8"
    case VForeign(_) => "*playwright.responseImpl"
  }

  /** `%T` of `d[key]`: a missing key is a nil interface. */
  function TypeAt(d: Decl, key: string): string
  {
    if key in d then TypeName(d[key]) else "<nil>"
  }

  /** `utils.LoadParams[T]`: the `params` map, or an empty one when absent
      or not a map, decoded into the option struct. */
  function LoadParams(lib: Libraries, kind: OptionKind, d: Decl): (r: Result<Options>)
    ensures !r.Panic?
    ensures r.Ok? ==> r.value.kind == kind
    ensures r.Ok? && !("params" in d && d["params"].VMap?) ==> r.value.params == map[]
    ensures r.Ok? && "params" in d && d["params"].VMap? ==> r.value.params == d["params"].entries
    ensures r.Err? <==> lib.paramsError(kind, if "params" in d && d["params"].VMap? then d["params"].entries else map[]).Some?
  {
    var params := if "params" in d && d["params"].VMap? then d["params"].entries else map[];
    match lib.paramsError(kind, params)
    case Some(e) => Err(e)
    case None => Ok(Options(kind, params))
  }

  // ---------------------------------------------------------------------
  // Properties.

  /** A string the first step of `set-var` stores differs from the one a
      later step stores for the same value: the first is quoted. */
  lemma MarshalQuotesSprintDoesNot(lib: Libraries, s: string)
    requires JsonPlain(s)
    ensures Marshal(lib, VStr(s)) == Ok("\"" + s + "\"")
    ensures Sprint(lib, VStr(s)) == s
    ensures Marshal(lib, VStr(s)).value != Sprint(lib, VStr(s))
  {
    assert |Marshal(lib, VStr(s)).value| == |s| + 2;
  }

  /** A coordinate written with a space around it does not parse, so
      `"10, 20"` is not a point. */
  lemma SpaceDoesNotParse(lib: Libraries)
    ensures ParseFloat(lib, " 20") == None
    ensures ParseFloat(lib, "20") == Some(Finite(20.0))
  {
    assert IsSpace(" 20"[0]);
    assert !IsDecimalInteger(" 20");
    assert "20"[1..] == "0";
    assert "20"[..1] == "2";
    assert "2"[..0] == [];
    assert DigitsValue("2") == 2;
    assert DigitsValue("20") == 20;
    assert IsDecimalInteger("20") && DecimalIntegerValue("20") == 20;
  }

  /** An integer-valued float renders as the decimal integer, the form
      `strconv.Itoa` gives, so a loop over `[1, 2]` sees "1" and "2". */
  lemma FormatIntegralFloat(lib: Libraries, n: int)
    requires -TwoTo53 <= n <= TwoTo53
    ensures FormatFloat(lib, n as real) == IntToString(n)
  {
    assert (n as real).Floor == n;
  }
}
