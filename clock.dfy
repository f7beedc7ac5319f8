/** Time is modelled as an integer count of milliseconds, as `Date.now()` returns it. */
module Clock {

  const MillisPerDay: int := 24 * 60 * 60 * 1000
}
