/** The older guard evaluator of engine/evaluator.go: the same three
    operators, but the query is split on white space and a field missing
    from the snapshot is an error. */
module LegacyQuery {
  import opened Base
  import opened Text
  import Q = Query

  /** A run of characters none of which is `unicode.IsSpace`. */
  predicate IsField(t: string)
  {
    t != [] && forall i :: 0 <= i < |t| ==> !IsSpace(t[i])
  }

  /** End of the maximal non-space run at the start of `s`. */
  function FieldEnd(s: string): (k: nat)
    ensures k <= |s|
    ensures forall i :: 0 <= i < k ==> !IsSpace(s[i])
    ensures k < |s| ==> IsSpace(s[k])
  {
    if s == [] || IsSpace(s[0]) then 0 else 1 + FieldEnd(s[1..])
  }

  /** `strings.Fields`: the maximal runs of non-space characters. */
  function Fields(s: string): (fields: seq<string>)
    ensures |fields| <= |s|
    decreases |s|
  {
    if s == [] then []
    else if IsSpace(s[0]) then Fields(s[1..])
    else
      var k := FieldEnd(s);
      [s[..k]] + Fields(s[k..])
  }

  /** The legacy `ParseQuery`: field and operator verbatim, the remaining
      fields joined by one space with the surrounding quotes trimmed. */
  function ParseQuery(query: string): (r: Result<Q.Query>)
    ensures r.Panic? == false
    ensures r.Ok? <==> |Fields(query)| >= 3 && Fields(query)[1] in Q.Operators
    ensures |Fields(query)| < 3 ==> r == Err(Message("invalid query format"))
  {
    var parts := Fields(query);
    if |parts| < 3 then Err(Message("invalid query format"))
    else
      var value := Trim(Join(parts[2..], " "), '"');
      if parts[1] !in Q.Operators then Err(Message("unsupported operator: " + parts[1]))
      else Ok(Q.Query(parts[0], parts[1], value))
  }

  /** The legacy `EvaluateQuery`: no literal fallback, and a regex compile
      error is returned as it is. */
  function EvaluateQuery(q: Q.Query, data: map<string, string>, regex: Q.Matcher): (r: Result<bool>)
    ensures q.field !in data ==> r == Err(Message("field " + q.field + " not found"))
    ensures q.field in data && q.op !in Q.Operators ==> r == Err(Message("unknown operation"))
  {
    if q.field !in data then Err(Message("field " + q.field + " not found"))
    else if q.op == "is" then Ok(data[q.field] == q.value)
    else if q.op == "contains" then Ok(Contains(data[q.field], q.value))
    else if q.op == "match" then regex(data[q.field], q.value)
    else Err(Message("unknown operation"))
  }

  // ---------------------------------------------------------------------
  // Properties.

  /** Every field is a non-empty run without white space. */
  lemma {:induction false} FieldShapes(s: string)
    ensures forall i :: 0 <= i < |Fields(s)| ==> IsField(Fields(s)[i])
    decreases |s|
  {
    if s != [] {
      if IsSpace(s[0]) {
        FieldShapes(s[1..]);
      } else {
        FieldShapes(s[FieldEnd(s)..]);
      }
    }
  }

  predicate AllSpace(sp: string)
  {
    forall i :: 0 <= i < |sp| ==> IsSpace(sp[i])
  }

  /** Any run of white space before the text is skipped. */
  lemma {:induction false} FieldsSkipSpace(sp: string, rest: string)
    requires AllSpace(sp)
    ensures Fields(sp + rest) == Fields(rest)
    decreases |sp|
  {
    if sp == [] {
      assert sp + rest == rest;
    } else {
      assert (sp + rest)[1..] == sp[1..] + rest;
      FieldsSkipSpace(sp[1..], rest);
    }
  }

  lemma {:induction false} FieldEndOf(w: string, rest: string)
    requires IsField(w)
    requires rest == [] || IsSpace(rest[0])
    ensures FieldEnd(w + rest) == |w|
    decreases |w|
  {
    if |w| > 1 {
      assert (w + rest)[1..] == w[1..] + rest;
      FieldEndOf(w[1..], rest);
    } else {
      assert (w + rest)[1..] == rest;
    }
  }

  /** A field followed by white space or by nothing is read as itself. */
  lemma FieldsWord(w: string, rest: string)
    requires IsField(w)
    requires rest == [] || IsSpace(rest[0])
    ensures Fields(w + rest) == [w] + Fields(rest)
  {
    FieldEndOf(w, rest);
    assert (w + rest)[..|w|] == w;
    assert (w + rest)[|w|..] == rest;
  }

  /** Words separated by runs of white space: `w0 sp0 w1 sp1 … wn`. */
  function Spaced(words: seq<string>, gaps: seq<string>): string
    requires |gaps| + 1 == |words|
  {
    if |words| == 1 then words[0] else words[0] + gaps[0] + Spaced(words[1..], gaps[1..])
  }

  /** However wide the gaps, the fields are the words. */
  lemma {:induction false} FieldsSpaced(words: seq<string>, gaps: seq<string>)
    requires |gaps| + 1 == |words|
    requires forall i :: 0 <= i < |words| ==> IsField(words[i])
    requires forall i :: 0 <= i < |gaps| ==> gaps[i] != [] && AllSpace(gaps[i])
    ensures Fields(Spaced(words, gaps)) == words
    decreases |words|
  {
    if |words| == 1 {
      FieldsWord(words[0], "");
      assert words[0] + "" == words[0];
    } else {
      var tail := Spaced(words[1..], gaps[1..]);
      assert Spaced(words, gaps) == words[0] + (gaps[0] + tail);
      FieldsWord(words[0], gaps[0] + tail);
      FieldsSkipSpace(gaps[0], tail);
      FieldsSpaced(words[1..], gaps[1..]);
    }
  }

  /** With single-space gaps the text is the plain join. */
  lemma {:induction false} SpacedSingle(words: seq<string>, gaps: seq<string>)
    requires |gaps| + 1 == |words|
    requires forall i :: 0 <= i < |gaps| ==> gaps[i] == " "
    ensures Spaced(words, gaps) == Join(words, " ")
    decreases |words|
  {
    if |words| > 1 {
      SpacedSingle(words[1..], gaps[1..]);
    }
  }

  lemma SpacedQuery(field: string, op: string, words: seq<string>, gaps: seq<string>)
    requires |words| >= 1 && |gaps| + 1 == |words|
    ensures Spaced([field, op] + words, [" ", " "] + gaps) == field + " " + op + " " + Spaced(words, gaps)
  {
    var tail, tailGaps := [op] + words, [" "] + gaps;
    assert [field, op] + words == [field] + tail && [" ", " "] + gaps == [" "] + tailGaps;
    SpacedCons(op, " ", words, gaps);
    SpacedCons(field, " ", tail, tailGaps);
  }

  /** One more word in front, behind its own gap. */
  lemma SpacedCons(w: string, gap: string, words: seq<string>, gaps: seq<string>)
    requires |words| >= 1 && |gaps| + 1 == |words|
    ensures Spaced([w] + words, [gap] + gaps) == w + gap + Spaced(words, gaps)
  {
    assert ([w] + words)[1..] == words && ([gap] + gaps)[1..] == gaps;
  }

  lemma FieldsOfQuery(field: string, op: string, words: seq<string>, gaps: seq<string>)
    requires IsField(field) && IsField(op)
    requires |words| >= 1 && |gaps| + 1 == |words|
    requires forall i :: 0 <= i < |words| ==> IsField(words[i])
    requires forall i :: 0 <= i < |gaps| ==> gaps[i] != [] && AllSpace(gaps[i])
    ensures Fields(field + " " + op + " " + Spaced(words, gaps)) == [field, op] + words
  {
    var all := [field, op] + words;
    var allGaps := [" ", " "] + gaps;
    assert AllSpace(" ");
    assert forall i :: 0 <= i < |all| ==> IsField(all[i]) by {
      forall i | 0 <= i < |all|
        ensures IsField(all[i])
      {
        if i >= 2 {
          assert all[i] == words[i - 2];
        }
      }
    }
    SpacedQuery(field, op, words, gaps);
    FieldsSpaced(all, allGaps);
  }

  /** The legacy parser reads back `field op w1 … wn` whatever the gaps
      between the value's words: the value is always re-joined with single
      spaces, so wider gaps are not preserved. */
  lemma ParseSpaced(field: string, op: string, words: seq<string>, gaps: seq<string>)
    requires op in Q.Operators && IsField(field)
    requires |words| >= 1 && |gaps| + 1 == |words|
    requires forall i :: 0 <= i < |words| ==> IsField(words[i]) && '"' !in words[i]
    requires forall i :: 0 <= i < |gaps| ==> gaps[i] != [] && AllSpace(gaps[i])
    ensures ParseQuery(field + " " + op + " " + Spaced(words, gaps)) == Ok(Q.Query(field, op, Join(words, " ")))
  {
    assert IsField(op) by {
      assert op == "is" || op == "match" || op == "contains";
    }
    var parts := [field, op] + words;
    FieldsOfQuery(field, op, words, gaps);
    assert parts[0] == field && parts[1] == op && parts[2..] == words;
    ParseOfFields(field + " " + op + " " + Spaced(words, gaps), parts);
    JoinQuoteFree(words);
  }

  /** What the legacy parser makes of a query, given its fields. */
  lemma ParseOfFields(query: string, parts: seq<string>)
    requires Fields(query) == parts && |parts| >= 3 && parts[1] in Q.Operators
    ensures ParseQuery(query) == Ok(Q.Query(parts[0], parts[1], Trim(Join(parts[2..], " "), '"')))
  {
  }

  lemma {:induction false} JoinQuoteFree(words: seq<string>)
    requires forall i :: 0 <= i < |words| ==> '"' !in words[i]
    ensures '"' !in Join(words, " ")
    ensures Trim(Join(words, " "), '"') == Join(words, " ")
    decreases |words|
  {
    if |words| > 1 {
      JoinQuoteFree(words[1..]);
    }
  }

  /** The legacy parser compares the field only when the snapshot has it;
      the current one falls back to the field's own text. */
  lemma MissingFieldContrast(q: Q.Query, data: map<string, string>, regex: Q.Matcher)
    requires q.field !in data && q.op == "is"
    ensures EvaluateQuery(q, data, regex).Err?
    ensures Q.EvaluateQuery(q, data, regex) == Ok(q.field == q.value)
  {
  }

  /** On a present field both evaluators agree on `is` and `contains`. */
  lemma AgreeOnPresentField(q: Q.Query, data: map<string, string>, regex: Q.Matcher)
    requires q.field in data && q.op in {"is", "contains"}
    ensures EvaluateQuery(q, data, regex) == Q.EvaluateQuery(q, data, regex)
  {
  }
}
