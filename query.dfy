/** The guard language `<field> <op> <value>` of query/query.go. */
module Query {
  import opened Base
  import opened Text

  /** A regular-expression test: `regexp.Compile(pattern)` followed by
      `MatchString(subject)`; `Err` carries the compile error. The regexp
      engine is not part of this model. */
  type Matcher = (string, string) -> Result<bool>

  datatype Query = Query(field: string, op: string, value: string)

  /** The keys of the `operators` table. */
  const Operators: set<string> := {"is", "match", "contains"}

  // ---------------------------------------------------------------------
  // Tokenizer: `regexp.MustCompile("\"([^\"]*)\"|\\S+").FindAllString`.

  /** A token of the first alternative: a quote, no quotes, a quote. */
  predicate IsQuoted(t: string)
  {
    |t| >= 2 && t[0] == '"' && t[|t| - 1] == '"' && '"' !in t[1..|t| - 1]
  }

  /** A token of the second alternative: a non-empty run without `\s`. */
  predicate IsWord(t: string)
  {
    t != [] && forall i :: 0 <= i < |t| ==> !IsPerlSpace(t[i])
  }

  /** End of the maximal run of non-space characters at the start of `s`. */
  function WordEnd(s: string): (k: nat)
    ensures k <= |s|
    ensures forall i :: 0 <= i < k ==> !IsPerlSpace(s[i])
    ensures k < |s| ==> IsPerlSpace(s[k])
  {
    if s == [] || IsPerlSpace(s[0]) then 0 else 1 + WordEnd(s[1..])
  }

  /** Length of the leftmost-first match at the start of `s`, which begins
      with a non-space character: a quoted run when a closing quote follows,
      otherwise the maximal non-space run. */
  function MatchLength(s: string): (k: nat)
    requires s != [] && !IsPerlSpace(s[0])
    ensures 1 <= k <= |s|
    ensures IsQuoted(s[..k]) || IsWord(s[..k])
  {
    if s[0] == '"' && IndexOf(s[1..], '"') < |s| - 1 then
      var k := IndexOf(s[1..], '"') + 2;
      assert s[..k][1..k - 1] == s[1..][..k - 2];
      k
    else
      WordEnd(s)
  }

  /** All successive non-overlapping matches, left to right. A match can
      start only at a non-space character, and one always does. */
  function Tokenize(s: string): (tokens: seq<string>)
    ensures |tokens| <= |s|
    decreases |s|
  {
    if s == [] then []
    else if IsPerlSpace(s[0]) then Tokenize(s[1..])
    else
      var k := MatchLength(s);
      [s[..k]] + Tokenize(s[k..])
  }

  /** Every token is a quoted run or a space-free word. */
  lemma {:induction false} TokenShapes(s: string)
    ensures forall i :: 0 <= i < |Tokenize(s)| ==> IsQuoted(Tokenize(s)[i]) || IsWord(Tokenize(s)[i])
    decreases |s|
  {
    if s != [] {
      if IsPerlSpace(s[0]) {
        TokenShapes(s[1..]);
      } else {
        TokenShapes(s[MatchLength(s)..]);
      }
    }
  }

  // ---------------------------------------------------------------------
  // Parsing and evaluation.

  /** `ParseQuery`: the first token (its quotes trimmed) is the field, the
      second the operator, the rest joined by single spaces (outer quotes
      trimmed) the value. */
  function ParseQuery(query: string): (r: Result<Query>)
    ensures r.Panic? == false
    ensures r.Ok? <==> |Tokenize(query)| >= 3 && Tokenize(query)[1] in Operators
    ensures |Tokenize(query)| < 3 ==> r == Err(Message("invalid query format: " + query))
    ensures r.Ok? ==> r.value.op in Operators
  {
    var tokens := Tokenize(query);
    if |tokens| < 3 then Err(Message("invalid query format: " + query))
    else
      var field := Trim(tokens[0], '"');
      var op := tokens[1];
      var value := Trim(Join(tokens[2..], " "), '"');
      if op !in Operators then Err(Message("unsupported operator: " + op))
      else Ok(Query(field, op, value))
  }

  /** The left operand: the snapshot's value for the field, or the field's
      own text when the snapshot has no such key. */
  function Operand(q: Query, data: map<string, string>): string
  {
    if q.field in data then data[q.field] else q.field
  }

  /** The `operators` table applied to `(left, right)`; `None` for a name
      that is not in the table. */
  function ApplyOperator(op: string, left: string, right: string, regex: Matcher): (r: Option<Result<bool>>)
    ensures r.Some? <==> op in Operators
  {
    if op == "is" then Some(Ok(left == right))
    else if op == "contains" then Some(Ok(Contains(left, right)))
    else if op == "match" then
      match regex(left, right)
      case Ok(b) => Some(Ok(b))
      case Err(e) => Some(Err(Message("invalid regex: " + ErrorText(e))))
      case Panic(p) => Some(Panic(p))
    else None
  }

  /** `(*Query).EvaluateQuery`. */
  function EvaluateQuery(q: Query, data: map<string, string>, regex: Matcher): (r: Result<bool>)
    ensures q.op !in Operators ==> r == Err(Message("unknown operation: " + q.op))
  {
    match ApplyOperator(q.op, Operand(q, data), q.value, regex)
    case None => Err(Message("unknown operation: " + q.op))
    case Some(outcome) => outcome
  }

  // ---------------------------------------------------------------------
  // Properties.

  /** A word that the tokenizer reads as one token of the second kind. */
  predicate PlainWord(w: string)
  {
    IsWord(w) && w[0] != '"'
  }

  lemma {:induction false} WordEndOfPlain(w: string, rest: string)
    requires IsWord(w)
    requires rest == [] || IsPerlSpace(rest[0])
    ensures WordEnd(w + rest) == |w|
    decreases |w|
  {
    if |w| > 1 {
      assert (w + rest)[1..] == w[1..] + rest;
      WordEndOfPlain(w[1..], rest);
    } else {
      assert (w + rest)[1..] == rest;
    }
  }

  /** A plain word followed by nothing or by a space is read as itself. */
  lemma TokenizeWord(w: string, rest: string)
    requires PlainWord(w)
    requires rest == [] || IsPerlSpace(rest[0])
    ensures Tokenize(w + rest) == [w] + Tokenize(rest)
  {
    WordEndOfPlain(w, rest);
    assert (w + rest)[..|w|] == w;
    assert (w + rest)[|w|..] == rest;
  }

  /** A quote-free text between quotes is read as one quoted token, whatever
      spaces it holds, and reading resumes right after the closing quote. */
  lemma TokenizeQuoted(x: string, rest: string)
    requires '"' !in x
    ensures Tokenize("\"" + x + "\"" + rest) == ["\"" + x + "\""] + Tokenize(rest)
  {
    var s := "\"" + x + "\"" + rest;
    assert s[1..] == x + "\"" + rest;
    assert IndexOf(s[1..], '"') == |x| by {
      assert (x + "\"" + rest)[|x|] == '"';
    }
    assert s[..|x| + 2] == "\"" + x + "\"";
    assert s[|x| + 2..] == rest;
  }

  /** Reading a space-joined list of plain words gives the words back. */
  lemma {:induction false} TokenizeJoin(words: seq<string>)
    requires forall i :: 0 <= i < |words| ==> PlainWord(words[i])
    ensures Tokenize(Join(words, " ")) == words
    decreases |words|
  {
    if |words| == 1 {
      TokenizeWord(words[0], "");
      assert words[0] + "" == words[0];
      assert Tokenize("") == [];
    } else if |words| > 1 {
      var tail := Join(words[1..], " ");
      assert Join(words, " ") == words[0] + (" " + tail);
      TokenizeWord(words[0], " " + tail);
      assert (" " + tail)[1..] == tail;
      TokenizeJoin(words[1..]);
    }
  }

  lemma TrimOfQuoted(x: string)
    requires '"' !in x
    ensures Trim("\"" + x + "\"", '"') == x
  {
    var q := "\"" + x + "\"";
    var tail := x + "\"";
    assert q[1..] == tail;
    if x == [] {
      assert TrimLeft(tail, '"') == [];
      assert TrimLeft(q, '"') == [];
    } else {
      assert tail[0] == x[0] != '"';
      assert TrimLeft(q, '"') == tail;
      assert tail[..|tail| - 1] == x;
      assert x[|x| - 1] != '"';
      assert TrimRight(tail, '"') == TrimRight(x, '"') == x;
    }
  }

  lemma TrimOfPlain(x: string)
    requires '"' !in x
    ensures Trim(x, '"') == x
  {
  }

  /** A well-formed query: a quote-free word as field, a known operator and
      a quote-free value (spaces allowed). */
  predicate WellFormed(q: Query)
  {
    PlainWord(q.field) && '"' !in q.field && q.op in Operators && '"' !in q.value
  }

  /** How a query is written in a document: `field op "value"`. */
  function Format(q: Query): string
  {
    q.field + " " + q.op + " \"" + q.value + "\""
  }

  /** Leading white space is skipped. */
  lemma TokenizeSpace(rest: string)
    ensures Tokenize(" " + rest) == Tokenize(rest)
  {
    assert (" " + rest)[1..] == rest;
  }

  /** The text after the field: the operator, then the quoted value. */
  lemma TokenizeTail(op: string, value: string)
    requires PlainWord(op) && '"' !in value
    ensures Tokenize(" " + (op + (" " + ("\"" + value + "\"")))) == [op, "\"" + value + "\""]
  {
    var quoted := "\"" + value + "\"";
    assert Tokenize(quoted) == [quoted] by {
      TokenizeQuoted(value, "");
      assert quoted + "" == quoted;
    }
    TokenizeSpace(quoted);
    TokenizeWord(op, " " + quoted);
    TokenizeSpace(op + (" " + quoted));
  }

  /** Every operator is a plain word. */
  lemma OperatorIsPlain(op: string)
    requires op in Operators
    ensures PlainWord(op)
  {
    assert op == "is" || op == "match" || op == "contains";
  }

  /** A written query is its field followed by the rest of the line. */
  lemma FormatParts(q: Query)
    ensures Format(q) == q.field + (" " + (q.op + (" " + ("\"" + q.value + "\""))))
  {
  }

  lemma TokenizeFormat(q: Query)
    requires WellFormed(q)
    ensures Tokenize(Format(q)) == [q.field, q.op, "\"" + q.value + "\""]
  {
    OperatorIsPlain(q.op);
    TokenizeTail(q.op, q.value);
    FormatParts(q);
    TokenizeWord(q.field, " " + (q.op + (" " + ("\"" + q.value + "\""))));
  }

  /** Parsing is the inverse of writing the value in quotes: internal runs of
      spaces in the value survive. */
  lemma ParseFormat(q: Query)
    requires WellFormed(q)
    ensures ParseQuery(Format(q)) == Ok(q)
  {
    var quoted := "\"" + q.value + "\"";
    TokenizeFormat(q);
    var tokens := Tokenize(Format(q));
    assert tokens[2..] == [quoted];
    assert Join(tokens[2..], " ") == quoted;
    TrimOfQuoted(q.value);
    TrimOfPlain(q.field);
  }

  lemma FormatStatusExample()
    ensures Format(Query("status", "is", "200 ok")) == "status is \"200 ok\""
    ensures WellFormed(Query("status", "is", "200 ok"))
  {
    assert PlainWord("status") && PlainWord("is");
  }

  /** `status is "200 ok"` parses to (status, is, 200 ok). */
  lemma ParseStatusExample()
    ensures ParseQuery("status is \"200 ok\"") == Ok(Query("status", "is", "200 ok"))
  {
    FormatStatusExample();
    ParseFormat(Query("status", "is", "200 ok"));
  }

  /** A field absent from the snapshot compares as its own name. */
  lemma MissingFieldIsLiteral(q: Query, data: map<string, string>, regex: Matcher)
    requires q.field !in data
    ensures EvaluateQuery(q, data, regex) == EvaluateQuery(q, data[q.field := q.field], regex)
  {
  }

  /** `is` holds exactly when the operand equals the value, `contains`
      exactly when the value occurs in the operand. */
  lemma OperatorMeaning(q: Query, data: map<string, string>, regex: Matcher)
    ensures q.op == "is" ==> (EvaluateQuery(q, data, regex) == Ok(true) <==> Operand(q, data) == q.value)
    ensures q.op == "contains" ==>
      (EvaluateQuery(q, data, regex) == Ok(true) <==> exists i :: OccursAt(Operand(q, data), q.value, i))
    ensures q.op in {"is", "contains"} ==> EvaluateQuery(q, data, regex).Ok?
  {
    if q.op == "contains" {
      ContainsAt(Operand(q, data), q.value);
    }
  }

  /** `match` uses the operand as the pattern and the value as the subject;
      a pattern that does not compile is an error, not `false`. */
  lemma MatchUsesOperandAsPattern(q: Query, data: map<string, string>, regex: Matcher)
    requires q.op == "match"
    ensures regex(Operand(q, data), q.value).Ok? ==> EvaluateQuery(q, data, regex) == regex(Operand(q, data), q.value)
    ensures regex(Operand(q, data), q.value).Err? ==>
      EvaluateQuery(q, data, regex).Err? && EvaluateQuery(q, data, regex).error.Message?
  {
  }

  /** Against `{"status": "200 ok"}` the example holds; against an empty
      snapshot the literal `status` is compared and it does not. */
  lemma EvaluateStatusExample(regex: Matcher)
    ensures EvaluateQuery(Query("status", "is", "200 ok"), map["status" := "200 ok"], regex) == Ok(true)
    ensures EvaluateQuery(Query("status", "is", "200 ok"), map[], regex) == Ok(false)
  {
    assert "status" != "200 ok" by {
      assert "status"[0] != "200 ok"[0];
    }
  }
}
