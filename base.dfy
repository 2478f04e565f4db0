/** Shared vocabulary of the interpreter: outcomes, errors and the dynamically
    typed values that step declarations and step results are made of. */
module Base {

  datatype Option<+T> = None | Some(value: T)

  /** What a Go sentinel error or `fmt.Errorf` value is. The three sentinels of
      the guard middleware are compared by identity in the source, so they are
      constructors of their own; every other error is known by its text. */
  datatype Error =
    | NoCondition      // errNoIf
    | ConditionFailed  // errTestFailed
    | StepMissing      // errStepMissing
    | Message(text: string)

  /** The outcome of a Go call that returns `(value, error)`, plus the case
      where the call panics. Nothing in the core calls `recover`, so a panic
      travels unchanged up to the caller of the engine. */
  datatype Result<+T> = Ok(value: T) | Err(error: Error) | Panic(reason: string)
  {
    predicate IsFailure() { !Ok? }

    function PropagateFailure<U>(): Result<U>
      requires !Ok?
    {
      if Err? then Err(error) else Panic(reason)
    }

    function Extract(): T
      requires Ok?
    {
      value
    }
  }

  /** The same outcome for calls that return only an `error`. */
  type Outcome = Result<()>

  const Done: Outcome := Ok(())

  /** The text `err.Error()` gives. */
  function ErrorText(e: Error): string
  {
    match e
    case NoCondition => "no condition found in step"
    case ConditionFailed => "condition check failed"
    case StepMissing => "step is missing"
    case Message(t) => t
  }

  /** `fmt.Errorf(prefix + "%w", e)`: the wrapped error's text after a prefix. */
  function Wrap(prefix: string, e: Error): (r: Error)
    ensures r.Message? && r.text == prefix + ErrorText(e)
  {
    Message(prefix + ErrorText(e))
  }

  newtype byte = b: int | 0 <= b < 256

  /** An `interface{}` value as the declarative document and the steps carry
      it: YAML/JSON scalars, `[]any`, `[]string` (a distinct Go type, produced
      by `set-var`), `map[string]any`, `[]byte`, and objects handed back by
      the browser driver, which the core never looks into. */
  datatype Value =
    | VNull
    | VBool(b: bool)
    | VNum(n: int)
    | VStr(s: string)
    | VList(items: seq<Value>)
    | VStrList(strs: seq<string>)
    | VMap(entries: map<string, Value>)
    | VBytes(bytes: seq<byte>)
    | VForeign(handle: nat)

  /** A step declaration (`config.Step`): a free-form bag of keys. */
  type Decl = map<string, Value>

  /** `d[key].(string)` with the comma-ok form. */
  function StringAt(d: Decl, key: string): (r: Option<string>)
    ensures r.Some? <==> key in d && d[key].VStr?
    ensures r.Some? ==> d[key] == VStr(r.value)
  {
    if key in d && d[key].VStr? then Some(d[key].s) else None
  }
}
