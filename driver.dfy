/** The browser page the steps act on. Playwright is not part of this
    model: the page is a log of the calls made on it, and what each call
    returns is decided by oracles that may look at every earlier call. */
module Driver {
  import opened Base
  import opened Foreign

  /** The option lists handed to `SelectOption`. */
  datatype SelectValues = SelectValues(
    values: seq<string>,
    valuesOrLabels: seq<string>,
    labels: seq<string>,
    indexes: seq<int>)

  /** A call on the page, one of its locators or its mouse, or a pause of
      the worker. */
  datatype Call =
    | LocatorClick(locator: string, opts: Options)
    | SetDefaultTimeout(timeout: Number)
    | SetDefaultNavigationTimeout(timeout: Number)
    | PageEvaluate(code: string, opts: Options)
    | LocatorEvaluate(locator: string, code: string, opts: Options)
    | LocatorFill(locator: string, value: string, opts: Options)
    | InnerHTML(locator: string)
    | InputValue(locator: string)
    | TextContent(locator: string)
    | PageGoto(url: string, opts: Options)
    | MouseClick(x: Number, y: Number)
    | MouseDblclick(x: Number, y: Number)
    | MouseMove(x: Number, y: Number)
    | MouseWheel(x: Number, y: Number)
    | MouseDown
    | MouseUp
    | LocatorScreenshot(locator: string, opts: Options)
    | SelectOption(locator: string, values: SelectValues, opts: Options)
    | TimeSleep(nanoseconds: int)

  /** `playwright.Page`. */
  class Page {
    /** The reply to a call that returns a value, or only an error. */
    const answer: (seq<Call>, Call) -> Result<Value>
    /** The reply to `InnerHTML`, `InputValue` and `TextContent`. */
    const read: (seq<Call>, Call) -> Result<string>
    /** The reply to `Screenshot`. */
    const capture: (seq<Call>, Call) -> Result<seq<byte>>
    /** Every call made so far, oldest first. */
    var trace: seq<Call>

    constructor(answer: (seq<Call>, Call) -> Result<Value>,
                read: (seq<Call>, Call) -> Result<string>,
                capture: (seq<Call>, Call) -> Result<seq<byte>>)
      ensures this.answer == answer && this.read == read && this.capture == capture
      ensures trace == []
    {
      this.answer := answer;
      this.read := read;
      this.capture := capture;
      trace := [];
    }

    method Perform(c: Call) returns (r: Result<Value>)
      modifies this
      ensures trace == old(trace) + [c]
      ensures r == answer(old(trace), c)
    {
      r := answer(trace, c);
      trace := trace + [c];
    }

    method Read(c: Call) returns (r: Result<string>)
      modifies this
      ensures trace == old(trace) + [c]
      ensures r == read(old(trace), c)
    {
      r := read(trace, c);
      trace := trace + [c];
    }

    method Capture(c: Call) returns (r: Result<seq<byte>>)
      modifies this
      ensures trace == old(trace) + [c]
      ensures r == capture(old(trace), c)
    {
      r := capture(trace, c);
      trace := trace + [c];
    }

    /** A call whose result the caller does not look at. */
    method Apply(c: Call)
      modifies this
      ensures trace == old(trace) + [c]
    {
      trace := trace + [c];
    }
  }
}
