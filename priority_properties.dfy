/**
 * Properties of the scorer in module Priority: the bounds of the score, each
 * factor's table and monotonicity, the digit-concatenating income parse, and
 * the whole-millisecond account-age test against fractional years.
 */
module PriorityProperties {
  import opened Wrappers
  import opened Priority

  // ---------------------------------------------------------------------------
  // The total
  // ---------------------------------------------------------------------------

  /** The five factors never add up to more than 100, so the cap never changes the sum. */
  lemma CapNeverBinds(user: User, pan: Option<Pan>, now: int)
    ensures PriorityScore(user, pan, now)
            == TierPoints(user.customerPriority) + AgePoints(now - user.createdAt)
               + CreditPoints(pan) + IncomePoints(pan) + SpendPoints(pan)
  {
  }

  /** Every score lies in [5, 100]: the tier alone gives at least 5. */
  lemma ScoreBounds(user: User, pan: Option<Pan>, now: int)
    ensures 5 <= PriorityScore(user, pan, now) <= 100
  {
  }

  /** Without a financial record only the tier and the account age contribute. */
  lemma ScoreWithoutPan(user: User, now: int)
    ensures PriorityScore(user, None, now)
            == TierPoints(user.customerPriority) + AgePoints(now - user.createdAt)
    ensures CreditPoints(None) == IncomePoints(None) == SpendPoints(None) == 0
  {
  }

  /** The best profile on every factor scores exactly 100. */
  lemma MaximalProfileScores100(user: User, pan: Pan, now: int, credit: int, spend: int)
    requires user.customerPriority == Some("Premium")
    requires now - user.createdAt >= 5 * YearMs
    requires pan.creditScore == Some(credit) && credit >= 800
    requires IncomeFigure(pan.incomeRange) >= 1000000
    requires pan.spendingBehavior == Some(SpendingBehavior(Some(spend))) && spend >= 100000
    ensures PriorityScore(user, Some(pan), now) == 100
  {
  }

  /** An unrecognised or unset tier, an account under a year old and no record score 5. */
  lemma UnknownNewCustomerScores5(user: User, now: int)
    requires user.customerPriority !in {Some("Premium"), Some("High"), Some("Medium"), Some("Low")}
    requires now - user.createdAt < YearMs
    ensures PriorityScore(user, None, now) == 5
  {
  }

  /** Waiting longer never lowers a customer's score. */
  lemma ScoreMonotoneInTime(user: User, pan: Option<Pan>, now: int, later: int)
    requires now <= later
    ensures PriorityScore(user, pan, now) <= PriorityScore(user, pan, later)
  {
  }

  /** Raising the credit score (or setting an unset one) never lowers the score. */
  lemma ScoreMonotoneInCredit(user: User, pan: Pan, now: int, higher: int)
    requires pan.creditScore.Some? ==> pan.creditScore.value <= higher
    ensures PriorityScore(user, Some(pan), now)
            <= PriorityScore(user, Some(pan.(creditScore := Some(higher))), now)
  {
  }

  /** A label whose digits read as a larger figure never lowers the score. */
  lemma ScoreMonotoneInIncome(user: User, pan: Pan, now: int, richer: string)
    requires IncomeFigure(pan.incomeRange) <= IncomeFigure(richer)
    ensures PriorityScore(user, Some(pan), now)
            <= PriorityScore(user, Some(pan.(incomeRange := richer)), now)
  {
  }

  /** Raising the average monthly spend (or recording one) never lowers the score. */
  lemma ScoreMonotoneInSpend(user: User, pan: Pan, now: int, higher: int)
    requires pan.spendingBehavior.Some? && pan.spendingBehavior.value.avgMonthlySpend.Some? ==>
             pan.spendingBehavior.value.avgMonthlySpend.value <= higher
    ensures PriorityScore(user, Some(pan), now)
            <= PriorityScore(user, Some(pan.(spendingBehavior := Some(SpendingBehavior(Some(higher))))), now)
  {
  }

  // ---------------------------------------------------------------------------
  // The ladder and the factor tables
  // ---------------------------------------------------------------------------

  /** Each rung of the ladder is reached exactly on its interval. */
  lemma LadderBands(x: int, t20: int, t15: int, t10: int)
    requires t10 <= t15 <= t20
    ensures Ladder(x, t20, t15, t10) == 20 <==> x >= t20
    ensures Ladder(x, t20, t15, t10) == 15 <==> t15 <= x < t20
    ensures Ladder(x, t20, t15, t10) == 10 <==> t10 <= x < t15
    ensures Ladder(x, t20, t15, t10) == 0 <==> x < t10
  {
  }

  lemma LadderMonotone(x: int, y: int, t20: int, t15: int, t10: int)
    requires x <= y
    ensures Ladder(x, t20, t15, t10) <= Ladder(y, t20, t15, t10)
  {
  }

  lemma TierTable(tier: Option<string>)
    ensures TierPoints(Some("Premium")) == 20 && TierPoints(Some("High")) == 15
    ensures TierPoints(Some("Medium")) == 10 && TierPoints(Some("Low")) == 5
    ensures TierPoints(None) == 5
    ensures tier !in {Some("Premium"), Some("High"), Some("Medium")} ==> TierPoints(tier) == 5
  {
  }

  lemma CreditTable(pan: Pan, credit: int)
    requires pan.creditScore == Some(credit)
    ensures CreditPoints(Some(pan)) == 20 <==> credit >= 800
    ensures CreditPoints(Some(pan)) == 15 <==> 700 <= credit < 800
    ensures CreditPoints(Some(pan)) == 10 <==> 600 <= credit < 700
    ensures CreditPoints(Some(pan)) == 0 <==> credit < 600
    ensures CreditPoints(Some(pan.(creditScore := None))) == 0
  {
  }

  lemma SpendTable(pan: Pan, spend: int)
    requires pan.spendingBehavior == Some(SpendingBehavior(Some(spend)))
    ensures SpendPoints(Some(pan)) == 20 <==> spend >= 100000
    ensures SpendPoints(Some(pan)) == 15 <==> 50000 <= spend < 100000
    ensures SpendPoints(Some(pan)) == 10 <==> 20000 <= spend < 50000
    ensures SpendPoints(Some(pan)) == 0 <==> spend < 20000
    ensures SpendPoints(Some(pan.(spendingBehavior := None))) == 0
    ensures SpendPoints(Some(pan.(spendingBehavior := Some(SpendingBehavior(None))))) == 0
  {
  }

  lemma IncomeTable(pan: Pan)
    ensures IncomePoints(Some(pan)) == 20 <==> IncomeFigure(pan.incomeRange) >= 1000000
    ensures IncomePoints(Some(pan)) == 15 <==> 500000 <= IncomeFigure(pan.incomeRange) < 1000000
    ensures IncomePoints(Some(pan)) == 10 <==> 200000 <= IncomeFigure(pan.incomeRange) < 500000
    ensures IncomePoints(Some(pan)) == 0 <==> IncomeFigure(pan.incomeRange) < 200000
  {
  }

  // ---------------------------------------------------------------------------
  // Account age: whole milliseconds against fractional years
  // ---------------------------------------------------------------------------

  /** `elapsed / YearMs >= k` over the reals holds exactly when `elapsed >= k * YearMs`. */
  lemma YearsAtLeast(elapsed: int, k: nat)
    ensures (elapsed as real) / (YearMs as real) >= k as real <==> elapsed >= k * YearMs
  {
  }

  /** The age factor agrees with the source's formulation in fractional 365-day years. */
  lemma AgePointsMatchYears(elapsed: int)
    ensures AgePoints(elapsed)
            == (var years := (elapsed as real) / (YearMs as real);
                if years >= 5.0 then 20 else if years >= 3.0 then 15 else if years >= 1.0 then 10 else 0)
  {
  }

  lemma AgeTable(elapsed: int)
    ensures AgePoints(elapsed) == 20 <==> elapsed >= 5 * YearMs
    ensures AgePoints(elapsed) == 15 <==> 3 * YearMs <= elapsed < 5 * YearMs
    ensures AgePoints(elapsed) == 10 <==> YearMs <= elapsed < 3 * YearMs
    ensures AgePoints(elapsed) == 0 <==> elapsed < YearMs
  {
  }

  // ---------------------------------------------------------------------------
  // Income: the digits of the label, concatenated
  // ---------------------------------------------------------------------------

  predicate AllDigits(s: string) {
    forall i :: 0 <= i < |s| ==> IsDigit(s[i])
  }

  /** Stripping non-digits distributes over concatenation. */
  lemma {:induction false} DigitsOfConcat(a: string, b: string)
    ensures Digits(a + b) == Digits(a) + Digits(b)
  {
    if a == [] {
      assert a + b == b;
    } else {
      assert (a + b)[1..] == a[1..] + b;
      DigitsOfConcat(a[1..], b);
    }
  }

  /** A string of digits is left as it is. */
  lemma {:induction false} DigitsOfDigitString(s: string)
    requires AllDigits(s)
    ensures Digits(s) == s
  {
    if s != [] {
      DigitsOfDigitString(s[1..]);
    }
  }

  /** A string without digits is stripped to nothing. */
  lemma {:induction false} DigitsOfNonDigitString(s: string)
    requires forall i :: 0 <= i < |s| ==> !IsDigit(s[i])
    ensures Digits(s) == []
  {
    if s != [] {
      DigitsOfNonDigitString(s[1..]);
    }
  }

  /** Dropping the last digit of `a + b` drops the last digit of `b`. */
  lemma DecimalValueOfSnoc(a: string, b: string)
    requires b != []
    ensures DecimalValue(a + b) == DecimalValue(a + b[..|b| - 1]) * 10 + DigitValue(b[|b| - 1])
  {
    assert (a + b)[..|a + b| - 1] == a + b[..|b| - 1];
  }

  lemma ShiftByOneDigit(va: int, vb: int, p: int, d: int)
    ensures (va * p + vb) * 10 + d == va * (p * 10) + (vb * 10 + d)
  {
  }

  /** Reading the digits of `a + b` shifts the value of `a` past the digits of `b`. */
  lemma {:induction false} DecimalValueOfConcat(a: string, b: string)
    ensures DecimalValue(a + b) == DecimalValue(a) * Pow10(|b|) + DecimalValue(b)
  {
    if b == [] {
      assert a + b == a;
    } else {
      var b' := b[..|b| - 1];
      DecimalValueOfConcat(a, b');
      DecimalValueOfSnoc(a, b);
      ShiftByOneDigit(DecimalValue(a), DecimalValue(b'), Pow10(|b'|), DigitValue(b[|b| - 1]));
    }
  }

  /**
   * A range label "lo-hi" is read as the single number whose digits are those
   * of `lo` followed by those of `hi`, not as its lower bound.
   */
  lemma RangeLabelConcatenates(lo: string, hi: string)
    requires AllDigits(lo) && AllDigits(hi)
    ensures IncomeFigure(lo + "-" + hi) == DecimalValue(lo) * Pow10(|hi|) + DecimalValue(hi)
  {
    DigitsOfConcat(lo + "-", hi);
    DigitsOfConcat(lo, "-");
    DigitsOfDigitString(lo);
    DigitsOfDigitString(hi);
    assert Digits("-") == [];
    assert Digits(lo + "-" + hi) == lo + hi;
    DecimalValueOfConcat(lo, hi);
  }

  /** A label without any digit gives income 0 and no income points. */
  lemma NoDigitsNoIncome(pan: Pan)
    requires forall i :: 0 <= i < |pan.incomeRange| ==> !IsDigit(pan.incomeRange[i])
    ensures IncomeFigure(pan.incomeRange) == 0
    ensures IncomePoints(Some(pan)) == 0
  {
    DigitsOfNonDigitString(pan.incomeRange);
  }

  /** Leading zeros read as nothing, so a run of zeros is worth 0. */
  lemma {:induction false} DecimalValueOfZeros(z: string)
    requires forall i :: 0 <= i < |z| ==> z[i] == '0'
    ensures DecimalValue(z) == 0
  {
    if z != [] {
      DecimalValueOfZeros(z[..|z| - 1]);
    }
  }

  lemma BoundsOfSampleRange()
    ensures DecimalValue("500000") == 500000
    ensures DecimalValue("1000000") == 1000000
  {
    DecimalValueOfZeros("00000");
    DecimalValueOfZeros("000000");
    assert "500000" == "5" + "00000";
    assert "1000000" == "1" + "000000";
    DecimalValueOfConcat("5", "00000");
    DecimalValueOfConcat("1", "000000");
    assert "5"[..0] == "" && "1"[..0] == "";
  }

  /** The label "500000-1000000" is read as 5000001000000 and earns the top 20 points. */
  lemma SampleRangeLabel(pan: Pan)
    requires pan.incomeRange == "500000-1000000"
    ensures IncomeFigure(pan.incomeRange) == 5000001000000
    ensures IncomePoints(Some(pan)) == 20
  {
    assert "500000-1000000" == "500000" + "-" + "1000000";
    RangeLabelConcatenates("500000", "1000000");
    BoundsOfSampleRange();
    assert Pow10(7) == 10000000;
  }

  lemma DigitsOfLakhs()
    ensures Digits("5,00,000") == "500000"
  {
  }

  lemma DigitsOfTenLakhs()
    ensures Digits("10,00,000") == "1000000"
  {
  }

  /**
   * The rupee label "₹5,00,000-10,00,000" (written as its pieces joined, so
   * that the verifier does not unfold `Digits` over one long literal) is read
   * the same way: 20 points, not 15.
   */
  lemma RupeeRangeLabel(pan: Pan)
    requires pan.incomeRange == "₹" + "5,00,000" + "-" + "10,00,000"
    ensures IncomeFigure(pan.incomeRange) == 5000001000000
    ensures IncomePoints(Some(pan)) == 20
  {
    DigitsOfConcat("₹" + "5,00,000" + "-", "10,00,000");
    DigitsOfConcat("₹" + "5,00,000", "-");
    DigitsOfConcat("₹", "5,00,000");
    assert Digits("₹") == [] && Digits("-") == [];
    DigitsOfLakhs();
    DigitsOfTenLakhs();
    assert Digits("₹" + "5,00,000") == "500000";
    assert Digits("₹" + "5,00,000" + "-") == "500000";
    assert Digits(pan.incomeRange) == "500000" + "1000000";
    DecimalValueOfConcat("500000", "1000000");
    BoundsOfSampleRange();
    assert Pow10(7) == 10000000;
  }
}
