/** The cost ledger of the analysis service: token usage is priced per model,
    added to a daily and a monthly total, appended to a bounded history, and
    only then checked against the spending ceilings. */
module CostTracking {
  import opened Common

  /** Price per million tokens. */
  datatype Rates = Rates(input: real, output: real)

  const HaikuRates := Rates(0.8, 4.0)
  const SonnetRates := Rates(3.0, 15.0)

  /** The configured price list, keyed by the short model name. */
  const Pricing: map<string, Rates> := map["haiku" := HaikuRates, "sonnet" := SonnetRates]

  /** At most this many entries are kept in the request history. */
  const HistoryCap: nat := 1000

  /** How many history entries the statistics show. */
  const RecentCount: nat := 10

  /** Whether tracking is on and the two ceilings, in USD. */
  datatype TrackerConfig = TrackerConfig(enabled: bool, dailyLimit: real, monthlyLimit: real)

  /** The values the service runs with when the environment sets nothing. */
  const DefaultConfig := TrackerConfig(true, 100.0, 2000.0)

  datatype Entry = Entry(timestamp: int, cost: real, inputTokens: nat, outputTokens: nat, model: string)

  /** The tracker's fields, as one value. `lastReset` is the local date text of
      the day `dailyCost` belongs to. */
  datatype Ledger = Ledger(dailyCost: real, monthlyCost: real, totalRequests: nat,
                           lastReset: string, history: seq<Entry>)

  /** What a call to the tracker returns: nothing but a zero cost when tracking
      is switched off, the breakdown otherwise. */
  datatype Usage =
    | Untracked
    | Tracked(cost: real, dailyCost: real, monthlyCost: real, totalRequests: nat,
              inputCost: real, outputCost: real)
  {
    function Cost(): real {
      if Untracked? then 0.0 else cost
    }
  }

  /** The spending ceiling a call can go over. */
  datatype Ceiling = Daily | Monthly

  /** What the ceiling check makes of a recorded call: the usage it returns,
      or the ceiling that was crossed, with its limit and the new total.
      The error thrown for the latter is `CeilingMessage`. */
  datatype Charge = Charged(usage: Usage) | OverCeiling(ceiling: Ceiling, limit: real, total: real)

  datatype Tracking = Tracking(ledger: Ledger, outcome: Charge)

  datatype Stats = Stats(dailyCost: real, monthlyCost: real, totalRequests: nat,
                         averageCostPerRequest: real, recentRequests: seq<Entry>)

  /** The rates of a model, with an unknown name priced as haiku. */
  function RatesFor(model: string): Rates {
    if model in Pricing then Pricing[model] else HaikuRates
  }

  /** Cost in USD of `tokens` tokens at `rate` USD per million. */
  function TokenCost(tokens: nat, rate: real): real {
    (tokens as real / 1000000.0) * rate
  }

  /** Cost in USD of a call. */
  function CallCost(inputTokens: nat, outputTokens: nat, rates: Rates): real {
    TokenCost(inputTokens, rates.input) + TokenCost(outputTokens, rates.output)
  }

  /** `history.slice(-n)` when the history is longer than n. */
  function KeepLast<T>(h: seq<T>, n: nat): (r: seq<T>)
    ensures |r| <= n && |r| <= |h|
    ensures r == h[|h| - |r|..]
    ensures |h| <= n ==> r == h
  {
    if |h| > n then h[|h| - n..] else h
  }

  function Pad4(s: string): (r: string)
    ensures |s| < 4 ==> |r| == 4
    decreases 4 - |s|
  {
    if |s| >= 4 then s else Pad4("0" + s)
  }

  /** The magnitude of `x` in ten-thousandths, rounded to the nearest, a
      tie going up. */
  function Ticks4(x: real): (m: nat)
    ensures (m as real - 0.5) / 10000.0 <= (if x < 0.0 then -x else x) < (m as real + 0.5) / 10000.0
  {
    var y := (if x < 0.0 then -x else x) * 10000.0 + 0.5;
    assert y.Floor as real <= y < y.Floor as real + 1.0;
    y.Floor
  }

  /** An amount as `toFixed(4)` prints it: the rounded magnitude with four
      decimals, behind a minus sign when the amount is negative. */
  function Fixed4(x: real): string {
    var m := Ticks4(x);
    (if x < 0.0 then "-" else "") + NatToString(m / 10000) + "." + Pad4(NatToString(m % 10000))
  }

  /** A decimal without the zeros that end its fraction, and without the
      point when no digit follows it. */
  function TrimFraction(s: string): (r: string)
    ensures |r| <= |s| && r == s[..|r|]
  {
    if |s| > 0 && s[|s| - 1] == '0' then TrimFraction(s[..|s| - 1])
    else if |s| > 0 && s[|s| - 1] == '.' then s[..|s| - 1]
    else s
  }

  /** A limit as JavaScript prints a number: whole numbers without a
      fraction, others with the digits of their fraction up to the fourth. */
  function LimitText(x: real): string {
    if x == x.Floor as real then IntToString(x.Floor) else TrimFraction(Fixed4(x))
  }

  /** A trailing zero of a fraction is dropped. */
  lemma TrimZeroStep(s: string)
    ensures TrimFraction(s + "0") == TrimFraction(s)
  {
    assert (s + "0")[..|s|] == s;
  }

  /** `(1.23456).toFixed(4)` is "1.2346": the fourth decimal is rounded. */
  lemma Fixed4Example()
    ensures Fixed4(1.23456) == "1.2346"
  {
    assert Ticks4(1.23456) == 12346;
    assert NatToString(2346) == "2346";
    assert "" + "1" + "." + "2346" == "1.2346";
  }

  /** A limit of 100.5 prints as "100.5": the padding zeros are trimmed. */
  lemma LimitTextExample()
    ensures LimitText(100.5) == "100.5"
  {
    assert Ticks4(100.5) == 1005000;
    assert 1005000 / 10000 == 100 && 1005000 % 10000 == 5000;
    assert NatToString(100) == "100" && NatToString(5000) == "5000";
    assert Pad4("5000") == "5000";
    assert "" + "100" + "." + "5000" == "100.5000";
    assert Fixed4(100.5) == "100.5000";
    assert "100.500" + "0" == "100.5000" && "100.50" + "0" == "100.500" && "100.5" + "0" == "100.50";
    TrimZeroStep("100.500");
    TrimZeroStep("100.50");
    TrimZeroStep("100.5");
    assert TrimFraction("100.5") == "100.5";
  }

  function LimitTail(limit: real, current: real): string {
    LimitText(limit) + " exceeded. Current: $" + Fixed4(current)
  }

  function DailyLimitMessage(limit: real, current: real): string {
    "Daily cost limit of $" + LimitTail(limit, current)
  }

  function MonthlyLimitMessage(limit: real, current: real): string {
    "Monthly cost limit of $" + LimitTail(limit, current)
  }

  /** The message of the error thrown for a crossed ceiling. */
  function CeilingMessage(ceiling: Ceiling, limit: real, total: real): string {
    match ceiling
    case Daily => DailyLimitMessage(limit, total)
    case Monthly => MonthlyLimitMessage(limit, total)
  }

  /** A charge as `trackUsage` ends: returning the usage or throwing. */
  function ChargeResult(c: Charge): Result<Usage> {
    match c
    case Charged(usage) => Ok(usage)
    case OverCeiling(ceiling, limit, total) => Err(CeilingMessage(ceiling, limit, total))
  }

  lemma CostLimitInFront(tail: string)
    ensures Contains("Daily cost limit of $" + tail, "cost limit")
    ensures Contains("Monthly cost limit of $" + tail, "cost limit")
  {
    var d := "Daily cost limit of $";
    assert d[6..16] == "cost limit";
    assert (d + tail)[6..16] == d[6..16];
    OccursAtContains(d + tail, "cost limit", 6);
    var m := "Monthly cost limit of $";
    assert m[8..18] == "cost limit";
    assert (m + tail)[8..18] == m[8..18];
    OccursAtContains(m + tail, "cost limit", 8);
  }

  /** Both ceiling errors carry the words the rest of the service looks for. */
  lemma LimitMessagesMentionCostLimit(limit: real, current: real)
    ensures Contains(DailyLimitMessage(limit, current), "cost limit")
    ensures Contains(MonthlyLimitMessage(limit, current), "cost limit")
  {
    CostLimitInFront(LimitTail(limit, current));
  }

  /** The ledger after a day rollover check against `today`. */
  function RollOver(l: Ledger, today: string): Ledger {
    if today != l.lastReset then l.(dailyCost := 0.0, lastReset := today) else l
  }

  /** The ledger once a tracked call is recorded, before any ceiling is checked. */
  function Record(l: Ledger, inputTokens: nat, outputTokens: nat, model: string,
                  today: string, timestamp: int): Ledger
  {
    var rolled := RollOver(l, today);
    var total := CallCost(inputTokens, outputTokens, RatesFor(model));
    var entry := Entry(timestamp, total, inputTokens, outputTokens, model);
    rolled.(dailyCost := rolled.dailyCost + total,
            monthlyCost := rolled.monthlyCost + total,
            totalRequests := rolled.totalRequests + 1,
            history := KeepLast(rolled.history + [entry], HistoryCap))
  }

  /** The ceiling checks made on the recorded ledger, daily first. */
  function CheckLimits(after: Ledger, config: TrackerConfig, inputCost: real, outputCost: real): Charge {
    if after.dailyCost > config.dailyLimit then
      OverCeiling(Daily, config.dailyLimit, after.dailyCost)
    else if after.monthlyCost > config.monthlyLimit then
      OverCeiling(Monthly, config.monthlyLimit, after.monthlyCost)
    else
      Charged(Tracked(inputCost + outputCost, after.dailyCost, after.monthlyCost, after.totalRequests,
                 inputCost, outputCost))
  }

  /** One call of `trackUsage`: the new ledger and what the call returns or throws. */
  function Track(l: Ledger, config: TrackerConfig, inputTokens: nat, outputTokens: nat,
                 model: string, today: string, timestamp: int): Tracking
  {
    if !config.enabled then Tracking(l, Charged(Untracked))
    else
      var rates := RatesFor(model);
      var after := Record(l, inputTokens, outputTokens, model, today, timestamp);
      Tracking(after, CheckLimits(after, config, TokenCost(inputTokens, rates.input),
                                  TokenCost(outputTokens, rates.output)))
  }

  function ResetLedger(today: string): Ledger {
    Ledger(0.0, 0.0, 0, today, [])
  }

  /** With tracking off a call costs nothing and changes no field. */
  lemma TrackDisabledIsNoOp(l: Ledger, config: TrackerConfig, inputTokens: nat, outputTokens: nat,
                            model: string, today: string, timestamp: int)
    requires !config.enabled
    ensures Track(l, config, inputTokens, outputTokens, model, today, timestamp).ledger == l
    ensures Track(l, config, inputTokens, outputTokens, model, today, timestamp).outcome.Charged?
    ensures Track(l, config, inputTokens, outputTokens, model, today, timestamp).outcome.usage.Cost() == 0.0
  {
  }

  /** A tracked call is priced at the named model's rates, haiku's for an
      unknown name, and adds that same cost to the daily and the monthly total
      and one to the request count; the daily total restarts from zero exactly
      when the date text changed, and the monthly total and the count never do.
      All of this holds whether or not the call then throws. */
  lemma TrackRecordsSpend(l: Ledger, config: TrackerConfig, inputTokens: nat, outputTokens: nat,
                          model: string, today: string, timestamp: int)
    requires config.enabled
    ensures var t := Track(l, config, inputTokens, outputTokens, model, today, timestamp);
      var rates := if model == "haiku" || model == "sonnet" then Pricing[model] else HaikuRates;
      var cost := CallCost(inputTokens, outputTokens, rates);
      && t.ledger.lastReset == today
      && t.ledger.dailyCost == (if today == l.lastReset then l.dailyCost else 0.0) + cost
      && t.ledger.monthlyCost == l.monthlyCost + cost
      && t.ledger.totalRequests == l.totalRequests + 1
      && (t.outcome.Charged? ==> t.outcome.usage == Tracked(cost, t.ledger.dailyCost, t.ledger.monthlyCost,
                                                       t.ledger.totalRequests,
                                                       TokenCost(inputTokens, rates.input),
                                                       TokenCost(outputTokens, rates.output)))
  {
  }

  /** The ceilings are checked after recording, daily first: the call throws
      exactly when a new total is over its ceiling, and the error names the
      ceiling that was crossed. */
  lemma TrackLimitCheck(l: Ledger, config: TrackerConfig, inputTokens: nat, outputTokens: nat,
                        model: string, today: string, timestamp: int)
    requires config.enabled
    ensures var t := Track(l, config, inputTokens, outputTokens, model, today, timestamp);
      && (t.outcome.OverCeiling? <==> t.ledger.dailyCost > config.dailyLimit || t.ledger.monthlyCost > config.monthlyLimit)
      && (t.ledger.dailyCost > config.dailyLimit ==>
            t.outcome == OverCeiling(Daily, config.dailyLimit, t.ledger.dailyCost))
      && (t.ledger.dailyCost <= config.dailyLimit && t.ledger.monthlyCost > config.monthlyLimit ==>
            t.outcome == OverCeiling(Monthly, config.monthlyLimit, t.ledger.monthlyCost))
  {
  }

  /** Whatever ceiling was crossed, the error thrown says "cost limit",
      which is what the rest of the service looks for; and it is thrown
      exactly when a ceiling was crossed. */
  lemma ChargeResultProperties(c: Charge)
    ensures ChargeResult(c).Err? <==> c.OverCeiling?
    ensures ChargeResult(c).Err? ==> Contains(ChargeResult(c).message, "cost limit")
    ensures c.Charged? ==> ChargeResult(c) == Ok(c.usage)
  {
    if c.OverCeiling? {
      LimitMessagesMentionCostLimit(c.limit, c.total);
    }
  }

  /** The history never holds more than 1000 entries; after a tracked call it
      ends with the new entry and keeps the order of the older ones, dropping
      only from the front. */
  lemma TrackHistory(l: Ledger, config: TrackerConfig, inputTokens: nat, outputTokens: nat,
                     model: string, today: string, timestamp: int)
    requires config.enabled
    ensures var t := Track(l, config, inputTokens, outputTokens, model, today, timestamp);
      var entry := Entry(timestamp, CallCost(inputTokens, outputTokens, RatesFor(model)),
                         inputTokens, outputTokens, model);
      && 1 <= |t.ledger.history| <= HistoryCap
      && t.ledger.history[|t.ledger.history| - 1] == entry
      && t.ledger.history[..|t.ledger.history| - 1] == l.history[|l.history| + 1 - |t.ledger.history|..]
      && (|l.history| < HistoryCap ==> t.ledger.history == l.history + [entry])
  {
    var t := Track(l, config, inputTokens, outputTokens, model, today, timestamp);
    var entry := Entry(timestamp, CallCost(inputTokens, outputTokens, RatesFor(model)),
                       inputTokens, outputTokens, model);
    var grown := l.history + [entry];
    assert t.ledger.history == KeepLast(grown, HistoryCap);
    var h := t.ledger.history;
    assert h == grown[|grown| - |h|..];
    assert h[..|h| - 1] == grown[|grown| - |h|..|grown| - 1];
    assert grown[..|grown| - 1] == l.history;
  }

  /** The tracker object: the same fields, updated in place. */
  class CostTracker {
    const config: TrackerConfig
    var dailyCost: real
    var monthlyCost: real
    var totalRequests: nat
    var lastReset: string
    var requestHistory: seq<Entry>

    function State(): Ledger
      reads this
    {
      Ledger(dailyCost, monthlyCost, totalRequests, lastReset, requestHistory)
    }

    ghost predicate Valid()
      reads this
    {
      |requestHistory| <= HistoryCap
    }

    constructor (config: TrackerConfig, today: string)
      ensures Valid() && this.config == config
      ensures State() == ResetLedger(today)
    {
      this.config := config;
      dailyCost, monthlyCost, totalRequests := 0.0, 0.0, 0;
      lastReset := today;
      requestHistory := [];
    }

    /** `trackUsage`: `today` is the local date text of the call and
        `timestamp` its time, both read from the clock by the source. */
    method TrackUsage(inputTokens: nat, outputTokens: nat, model: string, today: string, timestamp: int)
      returns (r: Result<Usage>)
      requires Valid()
      modifies this
      ensures Valid()
      ensures State() == Track(old(State()), config, inputTokens, outputTokens, model, today, timestamp).ledger
      ensures r == ChargeResult(Track(old(State()), config, inputTokens, outputTokens, model, today, timestamp).outcome)
    {
      if !config.enabled {
        r := Ok(Untracked);
        return;
      }
      var inputCost, outputCost := RecordUsage(inputTokens, outputTokens, model, today, timestamp);
      if dailyCost > config.dailyLimit {
        r := Err(DailyLimitMessage(config.dailyLimit, dailyCost));
      } else if monthlyCost > config.monthlyLimit {
        r := Err(MonthlyLimitMessage(config.monthlyLimit, monthlyCost));
      } else {
        r := Ok(Tracked(inputCost + outputCost, dailyCost, monthlyCost, totalRequests, inputCost, outputCost));
      }
    }

    /** The recording half of `trackUsage`: day rollover, totals, history. */
    method RecordUsage(inputTokens: nat, outputTokens: nat, model: string, today: string, timestamp: int)
      returns (inputCost: real, outputCost: real)
      modifies this
      ensures Valid()
      ensures State() == Record(old(State()), inputTokens, outputTokens, model, today, timestamp)
      ensures inputCost == TokenCost(inputTokens, RatesFor(model).input)
      ensures outputCost == TokenCost(outputTokens, RatesFor(model).output)
    {
      ghost var before := State();
      if today != lastReset {
        dailyCost := 0.0;
        lastReset := today;
      }
      assert State() == RollOver(before, today);
      var rates := RatesFor(model);
      inputCost := TokenCost(inputTokens, rates.input);
      outputCost := TokenCost(outputTokens, rates.output);
      var totalCost := inputCost + outputCost;
      dailyCost := dailyCost + totalCost;
      monthlyCost := monthlyCost + totalCost;
      totalRequests := totalRequests + 1;
      requestHistory := requestHistory + [Entry(timestamp, totalCost, inputTokens, outputTokens, model)];
      if |requestHistory| > HistoryCap {
        requestHistory := requestHistory[|requestHistory| - HistoryCap..];
      }
      ghost var recorded := Record(before, inputTokens, outputTokens, model, today, timestamp);
      assert totalCost == CallCost(inputTokens, outputTokens, RatesFor(model));
      assert dailyCost == recorded.dailyCost && monthlyCost == recorded.monthlyCost;
      assert totalRequests == recorded.totalRequests && lastReset == recorded.lastReset;
      assert requestHistory == recorded.history;
    }

    /** `getStats`, without the rupee conversions. */
    method GetStats() returns (s: Stats)
      ensures s.dailyCost == dailyCost && s.monthlyCost == monthlyCost && s.totalRequests == totalRequests
      ensures totalRequests > 0 ==> s.averageCostPerRequest * totalRequests as real == monthlyCost
      ensures totalRequests == 0 ==> s.averageCostPerRequest == 0.0
      ensures |s.recentRequests| == if |requestHistory| < RecentCount then |requestHistory| else RecentCount
      ensures s.recentRequests == requestHistory[|requestHistory| - |s.recentRequests|..]
    {
      var average := if totalRequests > 0 then monthlyCost / totalRequests as real else 0.0;
      s := Stats(dailyCost, monthlyCost, totalRequests, average, KeepLast(requestHistory, RecentCount));
    }

    /** `reset`: every counter to zero, an empty history, today's date. */
    method Reset(today: string)
      modifies this
      ensures Valid()
      ensures State() == ResetLedger(today)
    {
      dailyCost, monthlyCost, totalRequests := 0.0, 0.0, 0;
      requestHistory := [];
      lastReset := today;
    }
  }
}
