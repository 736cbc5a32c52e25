/**
 * Wall-clock time. Instants are milliseconds, as a JavaScript `Date` holds
 * them; the handlers receive the current instant as a parameter.
 */
module Clock {

  type Time = nat

  const MinuteMs: nat := 60_000

  /**
   * Length of one calendar month. Calendar arithmetic (months of different
   * lengths, day overflow) is not modelled: a month is a fixed positive span.
   */
  const MonthMs: nat := 30 * 24 * 60 * MinuteMs

  /** The instant `n` minutes after `t`, as `setMinutes(getMinutes() + n)` gives it. */
  function AddMinutes(t: Time, n: nat): (r: Time)
    ensures r >= t
    ensures n > 0 ==> r > t
  {
    t + n * MinuteMs
  }

  /** The instant `n` of the model's fixed months after `t`; stands in for `setMonth(getMonth() + n)`. */
  function AddMonths(t: Time, n: nat): (r: Time)
    ensures r >= t
    ensures n > 0 ==> r > t
  {
    t + n * MonthMs
  }
}
