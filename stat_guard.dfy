/**
 * `Require.Stat(value, name) atLeast least` and `... inRange start..end`:
 * bounds checks that either hand the value back or fail with
 * `InvalidStatValueException`.
 */
module StatGuard {
  import opened Wrappers

  /** `InvalidStatValueException`, carrying the stat's name and the rejected value. */
  datatype StatError = InvalidStatValue(stat: string, value: int)

  /** `Require.Stat(value, stat) atLeast least`. */
  function AtLeast(value: int, stat: string, least: int): (r: Result<int, StatError>)
    ensures r.Success? <==> least <= value
    ensures r.Success? ==> r.value == value
    ensures r.Failure? ==> r.error.stat == stat && r.error.value == value
  {
    if value < least then Failure(InvalidStatValue(stat, value)) else Success(value)
  }

  /** `Require.Stat(value, stat) inRange start..end`, an inclusive Kotlin range (empty when start > end). */
  function InRange(value: int, stat: string, start: int, end: int): (r: Result<int, StatError>)
    ensures r.Success? <==> start <= value <= end
    ensures r.Success? ==> r.value == value
    ensures r.Failure? ==> r.error.stat == stat && r.error.value == value
  {
    if value < start || end < value then Failure(InvalidStatValue(stat, value)) else Success(value)
  }

  /**
   * Property initialisers run in declaration order and the first failing
   * `Require` aborts construction: the outcome of a sequence of checks.
   */
  function FirstViolation(checks: seq<Result<int, StatError>>): (r: Outcome<StatError>)
    ensures r.Pass? <==> forall i :: 0 <= i < |checks| ==> checks[i].Success?
    ensures forall i :: 0 <= i < |checks| && checks[i].Failure? && (forall j :: 0 <= j < i ==> checks[j].Success?)
                        ==> r == Fail(checks[i].error)
  {
    if checks == [] then Pass
    else if checks[0].Failure? then Fail(checks[0].error)
    else
      var rest := FirstViolation(checks[1..]);
      assert forall i :: 1 <= i < |checks| ==> checks[i] == checks[1..][i - 1];
      rest
  }
}
