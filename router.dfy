/** `IntentRouter` of src/core/router.py: the code-fence cleaning of the LLM's reply
    and the decision of the search filter. The LLM call and `json.loads` are
    parameters: the reply (or the failure to get one) and a parsing function. */
module Router {
  import opened Wrappers
  import opened PyValue
  import Strings

  /** `self.threshold` */
  const Threshold: real := 0.5

  const Fence: string := "```"
  const JsonFence: string := "```json"

  // ---------------------------------------------------------------------------
  // _clean_json_text
  // ---------------------------------------------------------------------------

  /** `_clean_json_text(text)`: every "```json" removed, then every "```", then the
      surrounding whitespace stripped. */
  function CleanJsonText(text: string): string {
    Strings.Strip(Strings.RemoveAll(Strings.RemoveAll(text, JsonFence), Fence))
  }

  /** No three backticks in a row. */
  predicate NoFence(s: string) {
    forall i :: 0 <= i && i + 2 < |s| ==> !(s[i] == '`' && s[i + 1] == '`' && s[i + 2] == '`')
  }

  /** An occurrence of a pattern starting with three backticks puts three backticks
      at its position. */
  lemma FenceAt(s: string, pat: string, i: nat)
    requires |pat| >= 3 && pat[0] == '`' && pat[1] == '`' && pat[2] == '`'
    requires Strings.PrefixAt(s, pat, i)
    ensures i + 2 < |s| && s[i] == '`' && s[i + 1] == '`' && s[i + 2] == '`'
  {
    assert s[i..i + |pat|][0] == s[i] && s[i..i + |pat|][1] == s[i + 1] && s[i..i + |pat|][2] == s[i + 2];
  }

  lemma NoFenceNotContains(s: string)
    requires NoFence(s)
    ensures !Strings.Contains(s, Fence)
    ensures !Strings.Contains(s, JsonFence)
  {
    forall i: nat | Strings.PrefixAt(s, Fence, i) ensures false {
      FenceAt(s, Fence, i);
    }
    forall i: nat | Strings.PrefixAt(s, JsonFence, i) ensures false {
      FenceAt(s, JsonFence, i);
    }
  }

  /** Removal keeps the first character of a string that does not start with a
      backtick. */
  lemma RemoveFenceHead(t: string)
    requires t != [] && t[0] != '`'
    ensures Strings.RemoveAll(t, Fence) != [] && Strings.RemoveAll(t, Fence)[0] == t[0]
  {
    if |t| >= 3 {
      assert t[..3][0] == t[0];
    }
  }

  /** After `re.sub(r"```", "", t)` no three backticks are left, and the result does
      not start with two backticks unless `t` does. */
  lemma {:induction false} RemoveFenceLeavesNone(t: string)
    ensures NoFence(Strings.RemoveAll(t, Fence))
    ensures |t| >= 2 && !(t[0] == '`' && t[1] == '`') ==>
      !(|Strings.RemoveAll(t, Fence)| >= 2 && Strings.RemoveAll(t, Fence)[0] == '`' && Strings.RemoveAll(t, Fence)[1] == '`')
    decreases |t|
  {
    var r := Strings.RemoveAll(t, Fence);
    if |t| < 3 {
      assert r == t;
    } else if t[..3] == Fence {
      RemoveFenceLeavesNone(t[3..]);
      assert t[0] == t[..3][0] && t[1] == t[..3][1];
    } else {
      var rest := Strings.RemoveAll(t[1..], Fence);
      RemoveFenceLeavesNone(t[1..]);
      assert r == [t[0]] + rest;
      if t[0] == '`' {
        assert !(t[1] == '`' && t[2] == '`');
        if t[1] != '`' {
          RemoveFenceHead(t[1..]);
        } else {
          // t[1] is a backtick and t[2] is not: the kept backtick is followed by
          // another one and then by t[2].
          if |t[1..]| >= 3 {
            assert t[1..][..3] != Fence by {
              assert t[1..][..3][1] == t[2];
            }
            assert rest == [t[1]] + Strings.RemoveAll(t[2..], Fence);
            RemoveFenceHead(t[2..]);
          } else {
            assert rest == t[1..];
          }
        }
      } else if |t[1..]| >= 1 && t[1] != '`' {
        RemoveFenceHead(t[1..]);
      }
      forall i | 0 <= i && i + 2 < |r| ensures !(r[i] == '`' && r[i + 1] == '`' && r[i + 2] == '`') {
        if i > 0 {
          assert r[i] == rest[i - 1] && r[i + 1] == rest[i] && r[i + 2] == rest[i + 1];
        }
      }
    }
  }

  /** Every slice of a fence-free string is fence-free. */
  lemma NoFenceSlice(s: string, a: nat, b: nat)
    requires a <= b <= |s| && NoFence(s)
    ensures NoFence(s[a..b])
  {
    forall i | 0 <= i && i + 2 < b - a ensures !(s[a..b][i] == '`' && s[a..b][i + 1] == '`' && s[a..b][i + 2] == '`') {
      assert s[a..b][i] == s[a + i] && s[a..b][i + 1] == s[a + i + 1] && s[a..b][i + 2] == s[a + i + 2];
    }
  }

  /** The cleaned text holds no "```" (and so no "```json"), and has no surrounding
      whitespace. */
  lemma CleanRemovesFences(text: string)
    ensures !Strings.Contains(CleanJsonText(text), Fence)
    ensures !Strings.Contains(CleanJsonText(text), JsonFence)
    ensures Strings.IsStripped(CleanJsonText(text))
  {
    var t := Strings.RemoveAll(Strings.RemoveAll(text, JsonFence), Fence);
    RemoveFenceLeavesNone(Strings.RemoveAll(text, JsonFence));
    Strings.StripSlice(t);
    var a, b :| 0 <= a <= b <= |t| && Strings.Strip(t) == t[a..b];
    NoFenceSlice(t, a, b);
    NoFenceNotContains(CleanJsonText(text));
  }

  /** Cleaning twice is cleaning once. */
  lemma CleanIdempotent(text: string)
    ensures CleanJsonText(CleanJsonText(text)) == CleanJsonText(text)
  {
    var c := CleanJsonText(text);
    CleanRemovesFences(text);
    Strings.RemoveAllAbsent(c, JsonFence);
    Strings.RemoveAllAbsent(c, Fence);
    Strings.StrippedFixed(c);
  }

  /** A reply without a backtick is only stripped. */
  lemma CleanPlainReply(text: string)
    requires '`' !in text
    ensures CleanJsonText(text) == Strings.Strip(text)
  {
    assert NoFence(text);
    NoFenceNotContains(text);
    Strings.RemoveAllAbsent(text, JsonFence);
    Strings.RemoveAllAbsent(text, Fence);
  }

  // ---------------------------------------------------------------------------
  // route
  // ---------------------------------------------------------------------------

  /** The dict `route` returns; `filter` is None for Python's `None`. */
  datatype RouteResult = RouteResult(query: string, category: Value, confidence: Value,
                                     filter: Option<Value>, reason: string)

  const BroadReason: string := "포괄적 질문 또는 의도 불명 -> 전체 검색"

  /** `f"카테고리 감지됨 ({label}, {confidence})"` */
  function DetectedReason(category: Value, confidence: Value): string {
    "카테고리 감지됨 (" + PyStr(category) + ", " + PyStr(confidence) + ")"
  }

  /** The result of the `except` branch. */
  function ErrorRoute(query: string): RouteResult {
    RouteResult(query, Str("error"), Float(0.0), None, "System Error")
  }

  /** The decision on a parsed reply: a missing `label` means "unknown" and a missing
      `confidence` means 0.0; `label == "unknown"` short-circuits the comparison,
      which otherwise raises unless the confidence is a number. */
  function Decide(query: string, result: Value): RouteResult {
    if !result.Dict? then ErrorRoute(query)
    else
      var category := DictGet(result, "label", Str("unknown"));
      var confidence := DictGet(result, "confidence", Float(0.0));
      if category == Str("unknown") then RouteResult(query, category, confidence, None, BroadReason)
      else match Number(confidence)
        case None => ErrorRoute(query)
        case Some(c) =>
          if c < Threshold then RouteResult(query, category, confidence, None, BroadReason)
          else RouteResult(query, category, confidence, Some(category), DetectedReason(category, confidence))
  }

  /** `route(query)`, given the LLM's reply (Raises when the call fails) and
      `json.loads` (Raises on invalid JSON). */
  function Route(query: string, reply: Py<string>, loads: string -> Py<Value>): RouteResult {
    match reply
    case Raises => ErrorRoute(query)
    case Ok(raw) =>
      match loads(CleanJsonText(raw))
      case Raises => ErrorRoute(query)
      case Ok(result) => Decide(query, result)
  }

  /** The returned query is the input query. */
  lemma RouteKeepsQuery(query: string, reply: Py<string>, loads: string -> Py<Value>)
    ensures Route(query, reply, loads).query == query
  {
  }

  /** The rule, read off every result (the error result included): there is a filter
      exactly when the label is not "unknown" and the confidence is a number of at
      least the threshold, and then the filter is the label. */
  lemma RouteFilterRule(query: string, reply: Py<string>, loads: string -> Py<Value>)
    ensures var r := Route(query, reply, loads);
      (r.filter.Some? <==>
         r.category != Str("unknown") && Number(r.confidence).Some? && Number(r.confidence).value >= Threshold) &&
      (r.filter.Some? ==> r.filter.value == r.category && r.reason == DetectedReason(r.category, r.confidence)) &&
      (r.filter.None? && r != ErrorRoute(query) ==> r.reason == BroadReason)
  {
  }

  /** A reply that parses to a dict is decided on that dict. */
  lemma RouteDecidesParsed(query: string, raw: string, loads: string -> Py<Value>)
    requires loads(CleanJsonText(raw)).Ok?
    ensures Route(query, Ok(raw), loads) == Decide(query, loads(CleanJsonText(raw)).value)
  {
  }

  /** Missing keys take the defaults, and either default leaves the filter off. */
  lemma DecideDefaults(query: string, result: Value)
    requires result.Dict?
    ensures !HasKey(result, "label") ==>
      Decide(query, result).category == Str("unknown") && Decide(query, result).filter.None?
    ensures HasKey(result, "label") && !HasKey(result, "confidence") ==>
      Decide(query, result).confidence == Float(0.0) && Decide(query, result).filter.None?
  {
  }

  /** The failures that give the error result: no reply, invalid JSON, JSON that is
      not an object, and a non-numeric confidence next to a label other than
      "unknown". */
  lemma RouteErrors(query: string, raw: string, loads: string -> Py<Value>)
    ensures Route(query, Raises, loads) == ErrorRoute(query)
    ensures loads(CleanJsonText(raw)) == Raises ==> Route(query, Ok(raw), loads) == ErrorRoute(query)
    ensures loads(CleanJsonText(raw)).Ok? && !loads(CleanJsonText(raw)).value.Dict? ==>
      Route(query, Ok(raw), loads) == ErrorRoute(query)
    ensures var p := loads(CleanJsonText(raw));
      p.Ok? && p.value.Dict? && DictGet(p.value, "label", Str("unknown")) != Str("unknown") &&
      Number(DictGet(p.value, "confidence", Float(0.0))).None? ==>
      Route(query, Ok(raw), loads) == ErrorRoute(query)
  {
  }
}
