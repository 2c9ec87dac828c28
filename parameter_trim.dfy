/**
 The generic trimming of bounded parameters that every parameter of the meteo
 control file relies on: a value outside its bounds is silently moved onto the
 nearest bound. Values are reals; a value that is not set (a NaN in
 HydPy) is `None`.
 */
module ParameterTrim {

  datatype Option<T> = None | Some(value: T)

  /** The static bounds of a parameter. */
  datatype Span = Span(lower: real, upper: real)

  /** Number of values of a monthly parameter. */
  const Months: nat := 12

  /** The same value for every month. */
  function Uniform<T>(x: T): seq<T>
  {
    seq(Months, _ => x)
  }

  function Abs(x: real): real
  {
    if x < 0.0 then -x else x
  }

  /** Move `x` into `[lo, hi]`. */
  function Clamp(x: real, lo: real, hi: real): (r: real)
    requires lo <= hi
    ensures lo <= r <= hi
    ensures lo <= x <= hi ==> r == x
    ensures x < lo ==> r == lo
    ensures hi < x ==> r == hi
  {
    if x < lo then lo else if hi < x then hi else x
  }

  /** Of all values within the bounds, the clamped value is the closest to the input. */
  lemma ClampIsNearest(x: real, lo: real, hi: real, y: real)
    requires lo <= y <= hi
    ensures Abs(Clamp(x, lo, hi) - x) <= Abs(y - x)
  {
  }

  /** A bound given by the caller, or the span's bound when none is given. */
  function ScalarBound(bound: Option<real>, default: real): real
  {
    if bound.Some? then bound.value else default
  }

  /** Monthly bounds given by the caller, or the span's bound in every month when none are given. */
  function MonthlyBound(bound: Option<seq<real>>, default: real): seq<real>
    requires bound.Some? ==> |bound.value| == Months
  {
    if bound.Some? then bound.value else Uniform(default)
  }

  /** Monthly bounds passed by a caller have one entry per month. */
  predicate MonthlySized(bound: Option<seq<real>>)
  {
    bound.Some? ==> |bound.value| == Months
  }

  /** Every month holds a value. */
  predicate AllSet(values: seq<Option<real>>)
  {
    forall m :: 0 <= m < |values| ==> values[m].Some?
  }

  /** Every lower bound lies at or below its upper bound. */
  predicate Ordered(lower: seq<real>, upper: seq<real>)
  {
    |lower| == |upper| && forall m :: 0 <= m < |lower| ==> lower[m] <= upper[m]
  }

  /** Every value lies within its month's bounds. */
  predicate Within(values: seq<Option<real>>, lower: seq<real>, upper: seq<real>)
    requires |values| == |lower| == |upper|
  {
    forall m :: 0 <= m < |values| ==> values[m].Some? && lower[m] <= values[m].value <= upper[m]
  }

  /** The elementwise trim of a monthly parameter: month `m` is clamped into `[lower[m], upper[m]]`. */
  function ClampMonths(values: seq<Option<real>>, lower: seq<real>, upper: seq<real>): (r: seq<Option<real>>)
    requires AllSet(values) && |values| == |lower| && Ordered(lower, upper)
    ensures |r| == |values|
    ensures Within(r, lower, upper)
  {
    seq(|values|, m requires 0 <= m < |values| => Some(Clamp(values[m].value, lower[m], upper[m])))
  }

  /** Values already within their bounds are left as they are. */
  lemma ClampMonthsKeepsValid(values: seq<Option<real>>, lower: seq<real>, upper: seq<real>)
    requires |values| == |lower| && Ordered(lower, upper)
    requires Within(values, lower, upper)
    ensures AllSet(values)
    ensures ClampMonths(values, lower, upper) == values
  {
  }

  /** Trimming twice with the same bounds gives what trimming once gives. */
  lemma ClampMonthsIdempotent(values: seq<Option<real>>, lower: seq<real>, upper: seq<real>)
    requires AllSet(values) && |values| == |lower| && Ordered(lower, upper)
    ensures AllSet(ClampMonths(values, lower, upper))
    ensures ClampMonths(ClampMonths(values, lower, upper), lower, upper) == ClampMonths(values, lower, upper)
  {
  }

  /** The generic trim, in place: each month of `values` is clamped into its bounds. */
  method TrimMonths(values: array<Option<real>>, lower: seq<real>, upper: seq<real>)
    requires AllSet(values[..]) && values.Length == |lower| && Ordered(lower, upper)
    modifies values
    ensures values[..] == ClampMonths(old(values[..]), lower, upper)
  {
    var m := 0;
    while m < values.Length
      invariant 0 <= m <= values.Length
      invariant forall k :: 0 <= k < m ==> values[k] == Some(Clamp(old(values[k]).value, lower[k], upper[k]))
      invariant forall k :: m <= k < values.Length ==> values[k] == old(values[k])
    {
      values[m] := Some(Clamp(values[m].value, lower[m], upper[m]));
      m := m + 1;
    }
  }
}
