/**
 * The progress derivation of the spending-limit card: how far the current
 * period's spending has gone towards the active limit, and which colour band
 * the progress bar is drawn in. Both are pure functions of the (optional)
 * active limit and the current spending, recomputed on every render.
 */
module Progress {

  datatype Option<T> = None | Some(value: T)

  /** The active limit as the limit service returns it. */
  datatype Limit = Limit(amount: real, period: string)

  /** The three colours the progress bar can take, in increasing severity. */
  datatype Band = Primary | Warning | Error

  /** Severity rank of a band, used to state monotonicity. */
  function Severity(b: Band): nat
  {
    match b
    case Primary => 0
    case Warning => 1
    case Error => 2
  }

  /** The derivation divides by the limit amount, so a present limit must have a non-zero one. */
  predicate Divisible(limit: Option<Limit>)
  {
    limit.Some? ==> limit.value.amount != 0.0
  }

  /** Spending as a percentage of the limit amount, before any clamping. */
  function RawPercentage(amount: real, spending: real): (r: real)
    requires amount != 0.0
    ensures r * amount == spending * 100.0
  {
    spending / amount * 100.0
  }

  function Min(a: real, b: real): (m: real)
    ensures m <= a && m <= b
    ensures m == a || m == b
  {
    if a <= b then a else b
  }

  /** Width of the progress bar: 0 without a limit, otherwise the raw percentage capped at 100. */
  function Percentage(limit: Option<Limit>, spending: real): (p: real)
    requires Divisible(limit)
    ensures limit.None? ==> p == 0.0
    ensures limit.Some? ==> p <= 100.0 && p <= RawPercentage(limit.value.amount, spending)
    ensures limit.Some? ==> p == 100.0 || p == RawPercentage(limit.value.amount, spending)
  {
    if limit.None? then 0.0
    else Min(RawPercentage(limit.value.amount, spending), 100.0)
  }

  /** Colour of the progress bar: primary without a limit, else by inclusive thresholds at 100 and 80. */
  function Color(limit: Option<Limit>, spending: real): (b: Band)
    requires Divisible(limit)
    ensures limit.None? ==> b == Primary
    ensures limit.Some? ==> (b == Error <==> RawPercentage(limit.value.amount, spending) >= 100.0)
    ensures limit.Some? ==> (b == Warning <==> 80.0 <= RawPercentage(limit.value.amount, spending) < 100.0)
    ensures limit.Some? ==> (b == Primary <==> RawPercentage(limit.value.amount, spending) < 80.0)
  {
    if limit.None? then Primary
    else
      var percentage := RawPercentage(limit.value.amount, spending);
      if percentage >= 100.0 then Error
      else if percentage >= 80.0 then Warning
      else Primary
  }

  /** For a positive amount, the raw percentage reaches a threshold k exactly when spending reaches k% of the amount. */
  lemma RawPercentageAtLeast(amount: real, spending: real, k: real)
    requires amount > 0.0
    ensures RawPercentage(amount, spending) >= k <==> spending >= k / 100.0 * amount
  {
  }

  /** The colour bands in terms of spending against the amount: error from 100%, warning from 80%, both inclusive. */
  lemma ColorThresholds(limit: Limit, spending: real)
    requires limit.amount > 0.0
    ensures Color(Some(limit), spending) == Error <==> spending >= limit.amount
    ensures Color(Some(limit), spending) == Warning <==> 0.8 * limit.amount <= spending < limit.amount
    ensures Color(Some(limit), spending) == Primary <==> spending < 0.8 * limit.amount
  {
    RawPercentageAtLeast(limit.amount, spending, 100.0);
    RawPercentageAtLeast(limit.amount, spending, 80.0);
  }

  /** Spending exactly the amount fills the bar and turns it to error; exactly 80% of it is already a warning. */
  lemma BoundaryCases(limit: Limit)
    requires limit.amount > 0.0
    ensures Percentage(Some(limit), limit.amount) == 100.0
    ensures Color(Some(limit), limit.amount) == Error
    ensures Color(Some(limit), 0.8 * limit.amount) == Warning
  {
    ColorThresholds(limit, limit.amount);
    ColorThresholds(limit, 0.8 * limit.amount);
    PercentageFull(limit, limit.amount);
  }

  /** With a positive amount the percentage is exactly 100 precisely when spending has reached the amount. */
  lemma PercentageFull(limit: Limit, spending: real)
    requires limit.amount > 0.0
    ensures Percentage(Some(limit), spending) == 100.0 <==> spending >= limit.amount
  {
    RawPercentageAtLeast(limit.amount, spending, 100.0);
  }

  /** Below the amount the bar shows the true share of the limit spent. */
  lemma PercentageBelowLimit(limit: Limit, spending: real)
    requires limit.amount > 0.0
    requires spending < limit.amount
    ensures Percentage(Some(limit), spending) == spending / limit.amount * 100.0 < 100.0
  {
    RawPercentageAtLeast(limit.amount, spending, 100.0);
  }

  /** The upper end is clamped by the code; the lower end only by non-negative spending. */
  lemma PercentageBounds(limit: Limit, spending: real)
    requires limit.amount > 0.0
    requires spending >= 0.0
    ensures 0.0 <= Percentage(Some(limit), spending) <= 100.0
  {
    RawPercentageAtLeast(limit.amount, spending, 0.0);
  }

  /** Nothing clamps the lower end: negative spending gives a negative percentage. */
  lemma NegativeSpendingIsNotClamped(limit: Limit, spending: real)
    requires limit.amount > 0.0
    requires spending < 0.0
    ensures Percentage(Some(limit), spending) < 0.0
  {
  }

  /** The band is error exactly when the clamped percentage is at its cap of 100. */
  lemma ErrorIffFull(limit: Option<Limit>, spending: real)
    requires Divisible(limit)
    ensures Color(limit, spending) == Error <==> limit.Some? && Percentage(limit, spending) == 100.0
  {
  }

  /** For a fixed positive amount, more spending never gives a lower percentage. */
  lemma PercentageMonotone(limit: Limit, s1: real, s2: real)
    requires limit.amount > 0.0
    requires s1 <= s2
    ensures Percentage(Some(limit), s1) <= Percentage(Some(limit), s2)
  {
  }

  /** For a fixed positive amount, more spending never gives a less severe band. */
  lemma ColorMonotone(limit: Limit, s1: real, s2: real)
    requires limit.amount > 0.0
    requires s1 <= s2
    ensures Severity(Color(Some(limit), s1)) <= Severity(Color(Some(limit), s2))
  {
    ColorThresholds(limit, s1);
    ColorThresholds(limit, s2);
  }

  /** An active limit of 200 with 150 spent draws a 75% bar in the primary colour. */
  lemma ThreeQuartersScenario()
    ensures Percentage(Some(Limit(200.0, "monthly")), 150.0) == 75.0
    ensures Color(Some(Limit(200.0, "monthly")), 150.0) == Primary
  {
  }
}
