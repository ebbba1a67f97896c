/**
 * The ticket priority scorer of backend/models/priority.js.
 *
 * A customer earns 0-20 points on each of five factors (tier, account age,
 * credit score, income, monthly spend); the total is capped at 100.  The
 * database lookup of the customer's financial ("PAN") record is replaced by
 * an optional parameter, and the clock read by a `now` parameter in
 * milliseconds since the epoch.
 */
module Priority {
  import opened Wrappers

  // ---------------------------------------------------------------------------
  // Data model
  // ---------------------------------------------------------------------------

  /** The user document fields the scorer reads; `customerPriority` may be unset. */
  datatype User = User(phoneNumber: string, customerPriority: Option<string>, createdAt: int)

  /** `pan.spending_behavior`; its `avg_monthly_spend` may be unset. */
  datatype SpendingBehavior = SpendingBehavior(avgMonthlySpend: Option<int>)

  /** The financial record matched to the user by phone number. */
  datatype Pan = Pan(
    phoneNumber: string,
    creditScore: Option<int>,
    incomeRange: string,
    spendingBehavior: Option<SpendingBehavior>)

  /** Milliseconds in a 365-day year, the divisor the source uses for account age. */
  const YearMs: int := 1000 * 60 * 60 * 24 * 365

  // ---------------------------------------------------------------------------
  // The five factors, as pure functions
  // ---------------------------------------------------------------------------

  /**
   * The threshold ladder shared by four of the factors:
   * 20 points from `t20` up, 15 from `t15`, 10 from `t10`, otherwise 0.
   */
  function Ladder(x: int, t20: int, t15: int, t10: int): (p: nat)
    ensures p == 0 || p == 10 || p == 15 || p == 20
  {
    if x >= t20 then 20 else if x >= t15 then 15 else if x >= t10 then 10 else 0
  }

  /** The `switch` on the customer tier; anything else, including unset, is 5. */
  function TierPoints(customerPriority: Option<string>): (p: nat)
    ensures 5 <= p <= 20
  {
    if customerPriority == Some("Premium") then 20
    else if customerPriority == Some("High") then 15
    else if customerPriority == Some("Medium") then 10
    else 5
  }

  /** Account age points for `elapsed` milliseconds between creation and now. */
  function AgePoints(elapsed: int): (p: nat)
    ensures p <= 20
  {
    Ladder(elapsed, 5 * YearMs, 3 * YearMs, YearMs)
  }

  /** Credit points; an unset credit score fails every comparison. */
  function CreditPoints(pan: Option<Pan>): (p: nat)
    ensures p <= 20
  {
    match pan
    case None => 0
    case Some(record) =>
      match record.creditScore
      case None => 0
      case Some(c) => Ladder(c, 800, 700, 600)
  }

  predicate IsDigit(c: char) {
    '0' <= c <= '9'
  }

  /** `s.replace(/[^0-9]/g, "")`: the digits of `s`, in order. */
  function Digits(s: string): (r: string)
    ensures |r| <= |s|
    ensures forall i :: 0 <= i < |r| ==> IsDigit(r[i])
  {
    if s == [] then []
    else if IsDigit(s[0]) then [s[0]] + Digits(s[1..])
    else Digits(s[1..])
  }

  function Pow10(n: nat): (r: nat)
    ensures r >= 1
  {
    if n == 0 then 1 else 10 * Pow10(n - 1)
  }

  /** The value of a decimal digit; only ever applied to the output of `Digits`. */
  function DigitValue(c: char): (d: nat)
    ensures d <= 9
    ensures IsDigit(c) ==> d == c as int - '0' as int
  {
    if IsDigit(c) then c as int - '0' as int else 0
  }

  /** The number whose decimal digits are `ds` (leading zeros allowed). */
  function DecimalValue(ds: string): (r: nat)
    ensures r < Pow10(|ds|)
  {
    if ds == [] then 0
    else
      var prefix := DecimalValue(ds[..|ds| - 1]);
      assert prefix * 10 <= (Pow10(|ds| - 1) - 1) * 10;
      prefix * 10 + DigitValue(ds[|ds| - 1])
  }

  /** `parseInt(digits) || 0`: an empty digit string parses to NaN, which becomes 0. */
  function IncomeFigure(incomeRange: string): (r: nat)
    ensures Digits(incomeRange) == [] ==> r == 0
    ensures r < Pow10(|Digits(incomeRange)|)
  {
    var ds := Digits(incomeRange);
    if ds == [] then 0 else DecimalValue(ds)
  }

  function IncomePoints(pan: Option<Pan>): (p: nat)
    ensures p <= 20
  {
    match pan
    case None => 0
    case Some(record) => Ladder(IncomeFigure(record.incomeRange), 1000000, 500000, 200000)
  }

  /** Spend points; need both a spending-behavior record and an average spend. */
  function SpendPoints(pan: Option<Pan>): (p: nat)
    ensures p <= 20
  {
    match pan
    case None => 0
    case Some(record) =>
      match record.spendingBehavior
      case None => 0
      case Some(behavior) =>
        match behavior.avgMonthlySpend
        case None => 0
        case Some(spend) => Ladder(spend, 100000, 50000, 20000)
  }

  function Min(a: int, b: int): int {
    if a <= b then a else b
  }

  /** The score as a sum of the five factors, capped by `Math.min(100, ...)`. */
  function PriorityScore(user: User, pan: Option<Pan>, now: int): (r: int)
    ensures 5 <= r <= 100
  {
    Min(100, TierPoints(user.customerPriority) + AgePoints(now - user.createdAt)
             + CreditPoints(pan) + IncomePoints(pan) + SpendPoints(pan))
  }

  // ---------------------------------------------------------------------------
  // calculatePriority, with its mutable accumulator
  // ---------------------------------------------------------------------------

  method CalculatePriority(user: User, pan: Option<Pan>, now: int) returns (score: int)
    ensures score == PriorityScore(user, pan, now)
    ensures 5 <= score <= 100
  {
    var priorityScore := 0;

    // 1. customer tier
    if user.customerPriority == Some("Premium") {
      priorityScore := priorityScore + 20;
    } else if user.customerPriority == Some("High") {
      priorityScore := priorityScore + 15;
    } else if user.customerPriority == Some("Medium") {
      priorityScore := priorityScore + 10;
    } else if user.customerPriority == Some("Low") {
      priorityScore := priorityScore + 5;
    } else {
      priorityScore := priorityScore + 5;
    }
    assert priorityScore == TierPoints(user.customerPriority);
    ghost var afterTier := priorityScore;

    // 2. account age, compared in whole milliseconds
    var elapsed := now - user.createdAt;
    if elapsed >= 5 * YearMs {
      priorityScore := priorityScore + 20;
    } else if elapsed >= 3 * YearMs {
      priorityScore := priorityScore + 15;
    } else if elapsed >= YearMs {
      priorityScore := priorityScore + 10;
    }
    assert priorityScore == afterTier + AgePoints(elapsed);
    ghost var afterAge := priorityScore;

    // 3. credit score
    if pan.Some? && pan.value.creditScore.Some? {
      var credit := pan.value.creditScore.value;
      if credit >= 800 {
        priorityScore := priorityScore + 20;
      } else if credit >= 700 {
        priorityScore := priorityScore + 15;
      } else if credit >= 600 {
        priorityScore := priorityScore + 10;
      }
    }
    assert priorityScore == afterAge + CreditPoints(pan);
    ghost var afterCredit := priorityScore;

    // 4. income range
    if pan.Some? {
      var incomeRange := IncomeFigure(pan.value.incomeRange);
      if incomeRange >= 1000000 {
        priorityScore := priorityScore + 20;
      } else if incomeRange >= 500000 {
        priorityScore := priorityScore + 15;
      } else if incomeRange >= 200000 {
        priorityScore := priorityScore + 10;
      }
    }
    assert priorityScore == afterCredit + IncomePoints(pan);
    ghost var afterIncome := priorityScore;

    // 5. spending behavior
    if pan.Some? && pan.value.spendingBehavior.Some?
       && pan.value.spendingBehavior.value.avgMonthlySpend.Some? {
      var spend := pan.value.spendingBehavior.value.avgMonthlySpend.value;
      if spend >= 100000 {
        priorityScore := priorityScore + 20;
      } else if spend >= 50000 {
        priorityScore := priorityScore + 15;
      } else if spend >= 20000 {
        priorityScore := priorityScore + 10;
      }
    }
    assert priorityScore == afterIncome + SpendPoints(pan);

    score := if 100 <= priorityScore then 100 else priorityScore;
  }
}
