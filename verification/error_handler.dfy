/** The application's error middleware: an ordered series of case-sensitive
    substring tests on the error's message, each answering with an HTTP
    status and a code; an error none of them matches goes on to the general
    handler. */
module ErrorHandling {
  import opened Common
  import CostTracking
  import Analysis

  /** The JSON answer: status, message, code, the `error` text and, for
      throttling, the seconds after which to retry. */
  datatype Response = Response(status: int, message: string, code: string, error: string, retryAfter: Option<int>)

  /** The middleware answers itself, or hands the error to the general handler. */
  datatype Handling = Answered(response: Response) | PassedOn

  predicate ApiFailure(message: string) {
    Contains(message, "Claude API returned")
  }

  predicate Throttling(message: string) {
    Contains(message, "rate limit") || Contains(message, "too many requests")
  }

  predicate OverBudget(message: string) {
    Contains(message, "cost limit") || Contains(message, "budget exceeded")
  }

  predicate ImageFailure(message: string) {
    Contains(message, "image") || Contains(message, "sharp")
  }

  /** The middleware on an error with message `message`, where `nodeEnv`
      is the value of NODE_ENV. The first test that matches decides. */
  function Classify(message: string, nodeEnv: string): Handling {
    if ApiFailure(message) then
      Answered(Response(502, "External API error", "CLAUDE_API_ERROR",
                        if nodeEnv == "development" then message else "Service temporarily unavailable", None))
    else if Throttling(message) then
      Answered(Response(429, "Too many requests", "RATE_LIMIT_EXCEEDED",
                        "Please wait before making more requests", Some(60)))
    else if OverBudget(message) then
      Answered(Response(402, "Cost limit exceeded", "COST_LIMIT_EXCEEDED",
                        "Daily or monthly cost limit reached", None))
    else if ImageFailure(message) then
      Answered(Response(400, "Image processing error", "IMAGE_PROCESSING_ERROR",
                        "Unable to process the provided image", None))
    else PassedOn
  }

  /** Each status is given exactly when its test matches and no earlier one
      did; an error matching none is passed on. Only throttling carries a
      retry delay, of 60 seconds, and the raw message of an API failure is
      shown only in development. */
  lemma ClassifyProperties(message: string, nodeEnv: string)
    ensures var h := Classify(message, nodeEnv);
      && (h.Answered? && h.response.status == 502 <==> ApiFailure(message))
      && (h.Answered? && h.response.status == 429 <==> !ApiFailure(message) && Throttling(message))
      && (h.Answered? && h.response.status == 402 <==>
            !ApiFailure(message) && !Throttling(message) && OverBudget(message))
      && (h.Answered? && h.response.status == 400 <==>
            !ApiFailure(message) && !Throttling(message) && !OverBudget(message) && ImageFailure(message))
      && (h.PassedOn? <==>
            !ApiFailure(message) && !Throttling(message) && !OverBudget(message) && !ImageFailure(message))
      && (h.Answered? ==> (h.response.retryAfter.Some? <==> h.response.status == 429))
      && (h.Answered? && h.response.retryAfter.Some? ==> h.response.retryAfter.value == 60)
      && (h.Answered? && h.response.status == 502 ==>
            (h.response.error == message <==> nodeEnv == "development" || message == "Service temporarily unavailable"))
  {
  }

  /** Every error the API call throws for a refused request is a 502, even
      when the API itself answered 429: the API test comes first. */
  lemma ApiErrorsAre502(status: int, body: string, nodeEnv: string)
    ensures Classify(Analysis.ApiErrorMessage(status, body), nodeEnv).Answered?
    ensures Classify(Analysis.ApiErrorMessage(status, body), nodeEnv).response.status == 502
  {
    var prefix := "Claude API returned";
    var m := Analysis.ApiErrorMessage(status, body);
    assert m[..|prefix|] == prefix;
    assert StartsWith(m, prefix);
  }

  // Showing that a message does not contain a text.

  /** A text with a character the message lacks is not in the message. */
  lemma {:induction false} MissingCharNotContained(s: string, t: string, j: nat)
    requires j < |t| && t[j] !in s
    ensures !Contains(s, t)
    decreases |s|
  {
    assert !StartsWith(s, t) by {
      if |t| <= |s| {
        assert s[..|t|][j] == s[j] && s[j] in s;
      }
    }
    if |s| > 0 {
      assert forall c :: c in s[1..] ==> c in s;
      MissingCharNotContained(s[1..], t, j);
    }
  }

  /** No `x` in `s` is directly followed by `y`. */
  predicate NoPair(s: string, x: char, y: char) {
    forall i :: 0 <= i < |s| - 1 ==> !(s[i] == x && s[i + 1] == y)
  }

  /** A text with two neighbouring characters that never stand side by side
      in the message is not in the message. */
  lemma {:induction false} MissingPairNotContained(s: string, t: string, j: nat)
    requires j + 1 < |t| && NoPair(s, t[j], t[j + 1])
    ensures !Contains(s, t)
    decreases |s|
  {
    assert !StartsWith(s, t) by {
      if |t| <= |s| {
        assert s[..|t|][j] == s[j] && s[..|t|][j + 1] == s[j + 1];
      }
    }
    if |s| > 0 {
      assert NoPair(s[1..], t[j], t[j + 1]) by {
        forall i | 0 <= i < |s[1..]| - 1 ensures !(s[1..][i] == t[j] && s[1..][i + 1] == t[j + 1]) {
          assert s[1..][i] == s[i + 1] && s[1..][i + 1] == s[i + 2];
        }
      }
      MissingPairNotContained(s[1..], t, j);
    }
  }

  lemma NoPairConcat(a: string, b: string, x: char, y: char)
    requires NoPair(a, x, y) && NoPair(b, x, y)
    requires a != [] && b != [] ==> !(a[|a| - 1] == x && b[0] == y)
    ensures NoPair(a + b, x, y)
  {
    var s := a + b;
    forall i | 0 <= i < |s| - 1 ensures !(s[i] == x && s[i + 1] == y) {
      if i + 1 < |a| {
        assert s[i] == a[i] && s[i + 1] == a[i + 1];
      } else if i >= |a| {
        assert s[i] == b[i - |a|] && s[i + 1] == b[i + 1 - |a|];
      }
    }
  }

  /** Text made only of digits, '.' and '-', as numbers print. */
  predicate Numeric(s: string) {
    forall i :: 0 <= i < |s| ==> ('0' <= s[i] <= '9') || s[i] == '.' || s[i] == '-'
  }

  lemma {:induction false} Pad4Numeric(s: string)
    requires Numeric(s)
    ensures Numeric(CostTracking.Pad4(s))
    decreases 4 - |s|
  {
    if |s| < 4 {
      assert Numeric("0" + s) by {
        forall i | 0 <= i < |"0" + s| ensures var c := ("0" + s)[i]; ('0' <= c <= '9') || c == '.' || c == '-' {
          if i > 0 {
            assert ("0" + s)[i] == s[i - 1];
          }
        }
      }
      Pad4Numeric("0" + s);
    }
  }

  lemma NumericConcat(a: string, b: string)
    requires Numeric(a) && Numeric(b)
    ensures Numeric(a + b)
  {
    forall i | 0 <= i < |a + b| ensures var c := (a + b)[i]; ('0' <= c <= '9') || c == '.' || c == '-' {
      if i >= |a| {
        assert (a + b)[i] == b[i - |a|];
      } else {
        assert (a + b)[i] == a[i];
      }
    }
  }

  lemma IntToStringNumeric(n: int)
    ensures Numeric(IntToString(n))
  {
    NatToStringDigits(if n < 0 then -n else n);
    if n < 0 {
      NumericConcat("-", NatToString(-n));
    }
  }

  /** A signed decimal with a whole part and four padded decimals. */
  lemma DecimalNumeric(sign: string, whole: nat, frac: nat)
    requires Numeric(sign)
    ensures Numeric(sign + NatToString(whole) + "." + CostTracking.Pad4(NatToString(frac)))
  {
    NatToStringDigits(whole);
    NatToStringDigits(frac);
    Pad4Numeric(NatToString(frac));
    NumericConcat(sign, NatToString(whole));
    NumericConcat(sign + NatToString(whole), ".");
    NumericConcat(sign + NatToString(whole) + ".", CostTracking.Pad4(NatToString(frac)));
  }

  lemma Fixed4Numeric(x: real)
    ensures Numeric(CostTracking.Fixed4(x))
  {
    var m := CostTracking.Ticks4(x);
    DecimalNumeric(if x < 0.0 then "-" else "", m / 10000, m % 10000);
  }

  lemma LimitTextNumeric(x: real)
    ensures Numeric(CostTracking.LimitText(x))
  {
    IntToStringNumeric(x.Floor);
    Fixed4Numeric(x);
    var s := CostTracking.Fixed4(x);
    var r := CostTracking.TrimFraction(s);
    assert forall i :: 0 <= i < |r| ==> r[i] == s[i];
  }

  /** Numbers hold no letters: neither the 'A' of "API", the 'q' of
      "requests" nor the 'r' of "rate". */
  lemma NumericLacksLetters(s: string)
    requires Numeric(s)
    ensures 'A' !in s && 'q' !in s && 'r' !in s
  {
  }

  const DailyHead := "Daily cost limit of $"
  const MonthlyHead := "Monthly cost limit of $"
  const CurrentText := " exceeded. Current: $"

  /** The fixed parts of the messages lack the letters looked for. */
  lemma DailyHeadLetters()
    ensures 'A' !in DailyHead && 'q' !in DailyHead && 'r' !in DailyHead
  {
  }

  lemma MonthlyHeadLetters()
    ensures 'A' !in MonthlyHead && 'q' !in MonthlyHead && 'r' !in MonthlyHead
  {
  }

  lemma CurrentTextLetters()
    ensures 'A' !in CurrentText && 'q' !in CurrentText && 'a' !in CurrentText
  {
  }

  /** The spending-ceiling messages hold no 'A', no 'q' and no "ra". */
  lemma CeilingMessageLetters(ceiling: CostTracking.Ceiling, limit: real, total: real)
    ensures var m := CostTracking.CeilingMessage(ceiling, limit, total);
      'A' !in m && 'q' !in m && NoPair(m, 'r', 'a')
  {
    var head := if ceiling.Daily? then DailyHead else MonthlyHead;
    var l, t := CostTracking.LimitText(limit), CostTracking.Fixed4(total);
    LimitTextNumeric(limit);
    Fixed4Numeric(total);
    NumericLacksLetters(l);
    NumericLacksLetters(t);
    DailyHeadLetters();
    MonthlyHeadLetters();
    CurrentTextLetters();
    var tail := l + CurrentText + t;
    assert tail == CostTracking.LimitTail(limit, total);
    NoPairConcat(l, CurrentText, 'r', 'a');
    NoPairConcat(l + CurrentText, t, 'r', 'a');
    NoPairConcat(head, tail, 'r', 'a');
    assert CostTracking.CeilingMessage(ceiling, limit, total) == head + tail;
  }

  /** A message that says "cost limit" but holds no 'A', no 'q' and no "ra"
      passes the first two tests and is classified as 402. */
  lemma CostMessageIs402(m: string, nodeEnv: string)
    requires 'A' !in m && 'q' !in m && NoPair(m, 'r', 'a') && Contains(m, "cost limit")
    ensures var h := Classify(m, nodeEnv);
      h.Answered? && h.response.status == 402 && h.response.code == "COST_LIMIT_EXCEEDED"
  {
    assert "Claude API returned"[7] == 'A';
    MissingCharNotContained(m, "Claude API returned", 7);
    assert "too many requests"[11] == 'q';
    MissingCharNotContained(m, "too many requests", 11);
    assert "rate limit"[0] == 'r' && "rate limit"[1] == 'a';
    MissingPairNotContained(m, "rate limit", 0);
  }

  /** Both spending-ceiling errors the ledger throws are classified as 402:
      they say "cost limit" and match neither of the earlier tests. */
  lemma CeilingErrorsAre402(ceiling: CostTracking.Ceiling, limit: real, total: real, nodeEnv: string)
    ensures var h := Classify(CostTracking.CeilingMessage(ceiling, limit, total), nodeEnv);
      h.Answered? && h.response.status == 402 && h.response.code == "COST_LIMIT_EXCEEDED"
  {
    CeilingMessageLetters(ceiling, limit, total);
    CostTracking.ChargeResultProperties(CostTracking.OverCeiling(ceiling, limit, total));
    CostMessageIs402(CostTracking.CeilingMessage(ceiling, limit, total), nodeEnv);
  }

  /** A service outcome of a spending ceiling is classified as 402. */
  lemma OverBudgetOutcomeIs402(o: Analysis.Outcome, nodeEnv: string)
    requires o.OverBudget?
    ensures Analysis.AsResult(o).Err?
    ensures var h := Classify(Analysis.AsResult(o).message, nodeEnv);
      h.Answered? && h.response.status == 402
  {
    CeilingErrorsAre402(o.ceiling, o.limit, o.total, nodeEnv);
  }
}
