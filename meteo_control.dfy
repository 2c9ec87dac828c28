/**
 The control parameters of the meteo model: latitude and longitude, and the
 monthly Angstrom coefficients used to estimate global radiation.

 The "a" coefficient (AngstromConstant) and the "b" coefficient
 (AngstromFactor) constrain each other: trimming one of them bounds every
 month from above by one minus the other's value for that month, or by one
 where the other is not set. The sibling is read, never written.
 */
module MeteoControl {
  import opened ParameterTrim

  const LatitudeSpan: Span := Span(-90.0, 90.0)
  const LongitudeSpan: Span := Span(-180.0, 180.0)
  /** The span [0, 1] that AngstromConstant and AngstromFactor each declare; their trims share it. */
  const CoefficientSpan: Span := Span(0.0, 1.0)
  const AngstromAlternativeSpan: Span := Span(0.0, 1.0)

  const AngstromConstantInit: real := 0.25
  const AngstromFactorInit: real := 0.5
  const AngstromAlternativeInit: real := 0.15

  /** The static spans and defaults, as the parameter declarations give them. */
  lemma SpansAndDefaults()
    ensures LatitudeSpan.lower == -90.0 && LatitudeSpan.upper == 90.0
    ensures LongitudeSpan.lower == -180.0 && LongitudeSpan.upper == 180.0
    ensures CoefficientSpan == AngstromAlternativeSpan == Span(0.0, 1.0)
    ensures AngstromConstantInit == 0.25 && AngstromFactorInit == 0.5 && AngstromAlternativeInit == 0.15
  {
  }

  /** The upper bound a sibling coefficient leaves for each month: one where it is unset, one minus its value otherwise. */
  function SiblingUpper(sibling: seq<Option<real>>): (r: seq<real>)
    ensures |r| == |sibling|
  {
    seq(|sibling|, m requires 0 <= m < |sibling| => if sibling[m].None? then 1.0 else 1.0 - sibling[m].value)
  }

  /**
   What the docstrings promise of a coefficient `x` next to its sibling's value
   for the same month: the two sum to at most one, or, with the sibling unset,
   `x` is at most one.
   */
  predicate JointlyAdmissible(x: real, sibling: Option<real>)
  {
    match sibling
    case None => x <= 1.0
    case Some(s) => x + s <= 1.0
  }

  /** The sibling-derived bound admits exactly the jointly admissible values, in both directions. */
  lemma SiblingUpperIsExact(sibling: seq<Option<real>>, m: int, x: real)
    requires 0 <= m < |sibling|
    ensures x <= SiblingUpper(sibling)[m] <==> JointlyAdmissible(x, sibling[m])
  {
  }

  /** The upper bounds a coefficient trim uses: the caller's, or those the sibling leaves. */
  function CoefficientUpper(upper: Option<seq<real>>, sibling: seq<Option<real>>): (r: seq<real>)
    requires MonthlySized(upper) && |sibling| == Months
    ensures |r| == Months
    ensures upper.Some? ==> r == upper.value
    ensures upper.None? ==> forall m, x :: 0 <= m < Months ==> (x <= r[m] <==> JointlyAdmissible(x, sibling[m]))
  {
    if upper.Some? then upper.value else SiblingUpper(sibling)
  }

  /** The lower bounds a coefficient trim uses: the caller's, or the lower end of the shared span. */
  function CoefficientLower(lower: Option<seq<real>>): (r: seq<real>)
    requires MonthlySized(lower)
    ensures |r| == Months
  {
    MonthlyBound(lower, CoefficientSpan.lower)
  }

  /** When a coefficient trim is defined: its own values are set and its bounds do not cross. */
  predicate CoefficientTrimmable(values: seq<Option<real>>, lower: Option<seq<real>>, upper: Option<seq<real>>, sibling: seq<Option<real>>)
  {
    |values| == Months && |sibling| == Months && AllSet(values) &&
    MonthlySized(lower) && MonthlySized(upper) &&
    Ordered(CoefficientLower(lower), CoefficientUpper(upper, sibling))
  }

  /** The values a trim of AngstromConstant (or AngstromFactor) leaves, given the sibling's values. */
  function TrimmedCoefficient(values: seq<Option<real>>, lower: Option<seq<real>>, upper: Option<seq<real>>, sibling: seq<Option<real>>): (r: seq<Option<real>>)
    requires CoefficientTrimmable(values, lower, upper, sibling)
    ensures |r| == Months && AllSet(r)
    ensures Within(r, CoefficientLower(lower), CoefficientUpper(upper, sibling))
    ensures forall m :: 0 <= m < Months && CoefficientLower(lower)[m] <= values[m].value <= CoefficientUpper(upper, sibling)[m] ==> r[m] == values[m]
  {
    ClampMonths(values, CoefficientLower(lower), CoefficientUpper(upper, sibling))
  }

  /** Every set value of the sibling lies in the span [0, 1]. */
  predicate SiblingInSpan(sibling: seq<Option<real>>)
  {
    forall m :: 0 <= m < |sibling| && sibling[m].Some? ==> 0.0 <= sibling[m].value <= 1.0
  }

  /** Every set value of the sibling is at most one, so one minus it is not negative. */
  predicate SiblingAtMostOne(sibling: seq<Option<real>>)
  {
    forall m :: 0 <= m < |sibling| && sibling[m].Some? ==> sibling[m].value <= 1.0
  }

  /**
   Without caller bounds, a trim is defined exactly when every set value of
   the sibling is at most one: only then does the derived upper bound stay at
   or above the span's lower bound zero.
   */
  lemma DefaultTrimDefined(values: seq<Option<real>>, sibling: seq<Option<real>>)
    requires |values| == Months && |sibling| == Months && AllSet(values)
    ensures CoefficientTrimmable(values, None, None, sibling) <==> SiblingAtMostOne(sibling)
  {
  }

  /**
   Without a caller's lower bound, the span's lower end applies: every trimmed
   month is at least zero, and a month below zero is raised to exactly zero.
   */
  lemma TrimRaisesToSpanLower(values: seq<Option<real>>, upper: Option<seq<real>>, sibling: seq<Option<real>>, m: int)
    requires CoefficientTrimmable(values, None, upper, sibling)
    requires 0 <= m < Months
    ensures TrimmedCoefficient(values, None, upper, sibling)[m].value >= CoefficientSpan.lower
    ensures values[m].value < CoefficientSpan.lower ==> TrimmedCoefficient(values, None, upper, sibling)[m].value == CoefficientSpan.lower
  {
  }

  /**
   Without a caller's upper bound, every trimmed month keeps the joint
   constraint with the sibling: the sum is at most one, or the value is at most
   one where the sibling is unset.
   */
  lemma TrimKeepsJointBound(values: seq<Option<real>>, lower: Option<seq<real>>, sibling: seq<Option<real>>, m: int)
    requires CoefficientTrimmable(values, lower, None, sibling)
    requires 0 <= m < Months
    ensures JointlyAdmissible(TrimmedCoefficient(values, lower, None, sibling)[m].value, sibling[m])
  {
  }

  /** Without caller bounds and with the sibling within [0, 1], the trimmed values stay within the span [0, 1]. */
  lemma TrimStaysInSpan(values: seq<Option<real>>, sibling: seq<Option<real>>)
    requires |values| == Months && |sibling| == Months && AllSet(values)
    requires SiblingInSpan(sibling)
    ensures CoefficientTrimmable(values, None, None, sibling)
    ensures Within(TrimmedCoefficient(values, None, None, sibling), Uniform(0.0), Uniform(1.0))
  {
  }

  /** Trimming a second time, with the sibling unchanged, changes nothing. */
  lemma TrimIdempotent(values: seq<Option<real>>, lower: Option<seq<real>>, upper: Option<seq<real>>, sibling: seq<Option<real>>)
    requires CoefficientTrimmable(values, lower, upper, sibling)
    ensures CoefficientTrimmable(TrimmedCoefficient(values, lower, upper, sibling), lower, upper, sibling)
    ensures TrimmedCoefficient(TrimmedCoefficient(values, lower, upper, sibling), lower, upper, sibling)
         == TrimmedCoefficient(values, lower, upper, sibling)
  {
  }

  /** Values that already lie within their bounds are left unchanged by a trim. */
  lemma TrimKeepsValidValues(values: seq<Option<real>>, lower: Option<seq<real>>, upper: Option<seq<real>>, sibling: seq<Option<real>>)
    requires |values| == Months && |sibling| == Months && MonthlySized(lower) && MonthlySized(upper)
    requires Ordered(CoefficientLower(lower), CoefficientUpper(upper, sibling))
    requires Within(values, CoefficientLower(lower), CoefficientUpper(upper, sibling))
    ensures CoefficientTrimmable(values, lower, upper, sibling)
    ensures TrimmedCoefficient(values, lower, upper, sibling) == values
  {
  }

  /** A caller's upper bound is used as given: the sibling's values make no difference. */
  lemma ExplicitUpperIgnoresSibling(values: seq<Option<real>>, lower: Option<seq<real>>, upper: seq<real>, sibling: seq<Option<real>>, other: seq<Option<real>>)
    requires CoefficientTrimmable(values, lower, Some(upper), sibling) && |other| == Months
    ensures CoefficientTrimmable(values, lower, Some(upper), other)
    ensures TrimmedCoefficient(values, lower, Some(upper), sibling) == TrimmedCoefficient(values, lower, Some(upper), other)
    ensures TrimmedCoefficient(values, lower, Some(upper), sibling) == ClampMonths(values, CoefficientLower(lower), upper)
  {
  }

  /**
   Trimming one coefficient and then the other, both without caller bounds,
   leaves both set and every month's pair summing to at most one.
   */
  lemma TrimBothKeepsSumBound(constant: seq<Option<real>>, factor: seq<Option<real>>)
    requires |constant| == Months && |factor| == Months && AllSet(constant) && AllSet(factor)
    requires SiblingInSpan(factor)
    ensures CoefficientTrimmable(constant, None, None, factor)
    ensures var c := TrimmedCoefficient(constant, None, None, factor);
            CoefficientTrimmable(factor, None, None, c) &&
            var f := TrimmedCoefficient(factor, None, None, c);
            forall m :: 0 <= m < Months ==> c[m].value + f[m].value <= 1.0
  {
  }

  /**
   The outcome depends on which coefficient is trimmed first: with both at 0.8,
   trimming the constant first gives (0.2, 0.8), trimming the factor first
   gives (0.8, 0.2).
   */
  lemma TrimOrderMatters()
    ensures CoefficientTrimmable(Uniform(Some(0.8)), None, None, Uniform(Some(0.8)))
    ensures TrimmedCoefficient(Uniform(Some(0.8)), None, None, Uniform(Some(0.8))) == Uniform(Some(0.2))
    ensures CoefficientTrimmable(Uniform(Some(0.8)), None, None, Uniform(Some(0.2)))
    ensures TrimmedCoefficient(Uniform(Some(0.8)), None, None, Uniform(Some(0.2))) == Uniform(Some(0.8))
  {
  }

  /**
   A sibling below zero, which assigning its value without a trim can leave,
   raises the bound above one: with AngstromFactor at -0.2, calling
   AngstromConstant with 1.1 keeps 1.1 and calling it with 0.5 keeps 0.5.
   */
  lemma NegativeSiblingRaisesBound()
    ensures CoefficientTrimmable(Uniform(Some(1.1)), None, None, Uniform(Some(-0.2)))
    ensures TrimmedCoefficient(Uniform(Some(1.1)), None, None, Uniform(Some(-0.2))) == Uniform(Some(1.1))
    ensures CoefficientTrimmable(Uniform(Some(0.5)), None, None, Uniform(Some(-0.2)))
    ensures TrimmedCoefficient(Uniform(Some(0.5)), None, None, Uniform(Some(-0.2))) == Uniform(Some(0.5))
  {
  }

  /**
   The doctest scenarios, for either coefficient: assigning 1.5 with the
   sibling unset gives 1.0 in every month; assigning 0.5 with the sibling at
   0.6 gives 0.4 in every month.
   */
  lemma DoctestScenarios()
    ensures CoefficientTrimmable(Uniform(Some(1.5)), None, None, Uniform(None))
    ensures TrimmedCoefficient(Uniform(Some(1.5)), None, None, Uniform(None)) == Uniform(Some(1.0))
    ensures CoefficientTrimmable(Uniform(Some(0.5)), None, None, Uniform(Some(0.6)))
    ensures TrimmedCoefficient(Uniform(Some(0.5)), None, None, Uniform(Some(0.6))) == Uniform(Some(0.4))
  {
  }

  /**
   Computes the upper bounds a sibling leaves, as the trims do: the sibling's
   values are read into a fresh buffer, which then holds one where the sibling
   is unset and one minus the sibling's value elsewhere.
   */
  method SiblingUpperBounds(sibling: array<Option<real>>) returns (upper: seq<real>)
    ensures |upper| == sibling.Length
    ensures forall m :: 0 <= m < sibling.Length && sibling[m].None? ==> upper[m] == 1.0
    ensures forall m :: 0 <= m < sibling.Length && sibling[m].Some? ==> upper[m] == 1.0 - sibling[m].value
    ensures upper == SiblingUpper(sibling[..])
  {
    var buffer := new real[sibling.Length];
    var m := 0;
    while m < sibling.Length
      invariant 0 <= m <= sibling.Length
      invariant forall k :: 0 <= k < m ==> buffer[k] == SiblingUpper(sibling[..])[k]
    {
      match sibling[m] {
        case None => buffer[m] := 1.0;
        case Some(s) => buffer[m] := 1.0 - s;
      }
      m := m + 1;
    }
    upper := buffer[..];
  }

  /**
   The control parameters of one meteo model instance. The three monthly
   coefficients are arrays of twelve values each, updated in place; latitude
   and longitude are single values.
   */
  class ControlParameters {
    var latitude: Option<real>
    var longitude: Option<real>
    const angstromConstant: array<Option<real>>
    const angstromFactor: array<Option<real>>
    const angstromAlternative: array<Option<real>>

    ghost predicate Valid()
    {
      angstromConstant.Length == Months &&
      angstromFactor.Length == Months &&
      angstromAlternative.Length == Months &&
      angstromConstant != angstromFactor &&
      angstromConstant != angstromAlternative &&
      angstromFactor != angstromAlternative
    }

    /**
     A fresh parameter set. Without defaults every value is unset; with
     defaults the coefficients take their initial values in every month.
     */
    constructor (useDefaults: bool)
      ensures Valid()
      ensures fresh(angstromConstant) && fresh(angstromFactor) && fresh(angstromAlternative)
      ensures latitude == None && longitude == None
      ensures angstromConstant[..] == Uniform(if useDefaults then Some(AngstromConstantInit) else None)
      ensures angstromFactor[..] == Uniform(if useDefaults then Some(AngstromFactorInit) else None)
      ensures angstromAlternative[..] == Uniform(if useDefaults then Some(AngstromAlternativeInit) else None)
    {
      latitude, longitude := None, None;
      angstromConstant := new Option<real>[Months](_ => if useDefaults then Some(AngstromConstantInit) else None);
      angstromFactor := new Option<real>[Months](_ => if useDefaults then Some(AngstromFactorInit) else None);
      angstromAlternative := new Option<real>[Months](_ => if useDefaults then Some(AngstromAlternativeInit) else None);
    }

    /** Trims the latitude into the caller's bounds or the span [-90, 90]. */
    method TrimLatitude(lower: Option<real>, upper: Option<real>)
      requires latitude.Some?
      requires ScalarBound(lower, LatitudeSpan.lower) <= ScalarBound(upper, LatitudeSpan.upper)
      modifies this`latitude
      ensures latitude == Some(Clamp(old(latitude).value, ScalarBound(lower, LatitudeSpan.lower), ScalarBound(upper, LatitudeSpan.upper)))
    {
      latitude := Some(Clamp(latitude.value, ScalarBound(lower, LatitudeSpan.lower), ScalarBound(upper, LatitudeSpan.upper)));
    }

    /** Trims the longitude into the caller's bounds or the span [-180, 180]. */
    method TrimLongitude(lower: Option<real>, upper: Option<real>)
      requires longitude.Some?
      requires ScalarBound(lower, LongitudeSpan.lower) <= ScalarBound(upper, LongitudeSpan.upper)
      modifies this`longitude
      ensures longitude == Some(Clamp(old(longitude).value, ScalarBound(lower, LongitudeSpan.lower), ScalarBound(upper, LongitudeSpan.upper)))
    {
      longitude := Some(Clamp(longitude.value, ScalarBound(lower, LongitudeSpan.lower), ScalarBound(upper, LongitudeSpan.upper)));
    }

    /** Trims AngstromAlternative into the caller's bounds or the span [0, 1]; it has no sibling. */
    method TrimAngstromAlternative(lower: Option<seq<real>>, upper: Option<seq<real>>)
      requires Valid() && AllSet(angstromAlternative[..])
      requires MonthlySized(lower) && MonthlySized(upper)
      requires Ordered(MonthlyBound(lower, AngstromAlternativeSpan.lower), MonthlyBound(upper, AngstromAlternativeSpan.upper))
      modifies angstromAlternative
      ensures angstromAlternative[..] == ClampMonths(old(angstromAlternative[..]),
        MonthlyBound(lower, AngstromAlternativeSpan.lower), MonthlyBound(upper, AngstromAlternativeSpan.upper))
    {
      TrimMonths(angstromAlternative, MonthlyBound(lower, AngstromAlternativeSpan.lower), MonthlyBound(upper, AngstromAlternativeSpan.upper));
    }

    /**
     Trims AngstromConstant. Without a caller's upper bound, each month is
     bounded by what AngstromFactor leaves; AngstromFactor itself is not
     changed.
     */
    method TrimAngstromConstant(lower: Option<seq<real>>, upper: Option<seq<real>>)
      requires Valid()
      requires CoefficientTrimmable(angstromConstant[..], lower, upper, angstromFactor[..])
      modifies angstromConstant
      ensures angstromConstant[..] == TrimmedCoefficient(old(angstromConstant[..]), lower, upper, old(angstromFactor[..]))
      ensures angstromFactor[..] == old(angstromFactor[..])
      ensures angstromAlternative[..] == old(angstromAlternative[..])
      ensures upper.None? ==> forall m :: 0 <= m < Months ==> JointlyAdmissible(angstromConstant[m].value, angstromFactor[m])
      ensures upper.Some? ==> angstromConstant[..] == ClampMonths(old(angstromConstant[..]), CoefficientLower(lower), upper.value)
    {
      var bounds: seq<real>;
      if upper.None? {
        bounds := SiblingUpperBounds(angstromFactor);
      } else {
        bounds := upper.value;
      }
      TrimMonths(angstromConstant, CoefficientLower(lower), bounds);
    }

    /**
     Trims AngstromFactor. Without a caller's upper bound, each month is
     bounded by what AngstromConstant leaves; AngstromConstant itself is not
     changed.
     */
    method TrimAngstromFactor(lower: Option<seq<real>>, upper: Option<seq<real>>)
      requires Valid()
      requires CoefficientTrimmable(angstromFactor[..], lower, upper, angstromConstant[..])
      modifies angstromFactor
      ensures angstromFactor[..] == TrimmedCoefficient(old(angstromFactor[..]), lower, upper, old(angstromConstant[..]))
      ensures angstromConstant[..] == old(angstromConstant[..])
      ensures angstromAlternative[..] == old(angstromAlternative[..])
      ensures upper.None? ==> forall m :: 0 <= m < Months ==> JointlyAdmissible(angstromFactor[m].value, angstromConstant[m])
      ensures upper.Some? ==> angstromFactor[..] == ClampMonths(old(angstromFactor[..]), CoefficientLower(lower), upper.value)
    {
      var bounds: seq<real>;
      if upper.None? {
        bounds := SiblingUpperBounds(angstromConstant);
      } else {
        bounds := upper.value;
      }
      TrimMonths(angstromFactor, CoefficientLower(lower), bounds);
    }

    /** Sets every month of AngstromFactor without trimming, as assigning its value does. */
    method SetAngstromFactorValue(x: real)
      requires Valid()
      modifies angstromFactor
      ensures angstromFactor[..] == Uniform(Some(x))
      ensures angstromConstant[..] == old(angstromConstant[..])
    {
      forall m | 0 <= m < Months {
        angstromFactor[m] := Some(x);
      }
    }

    /** Sets every month of AngstromConstant without trimming, as assigning its value does. */
    method SetAngstromConstantValue(x: real)
      requires Valid()
      modifies angstromConstant
      ensures angstromConstant[..] == Uniform(Some(x))
      ensures angstromFactor[..] == old(angstromFactor[..])
    {
      forall m | 0 <= m < Months {
        angstromConstant[m] := Some(x);
      }
    }

    /** Calls AngstromConstant with one value for all months: the value is set, then trimmed without caller bounds. */
    method CallAngstromConstant(x: real)
      requires Valid() && SiblingAtMostOne(angstromFactor[..])
      modifies angstromConstant
      ensures angstromConstant[..] == TrimmedCoefficient(Uniform(Some(x)), None, None, old(angstromFactor[..]))
      ensures angstromFactor[..] == old(angstromFactor[..])
    {
      SetAngstromConstantValue(x);
      TrimAngstromConstant(None, None);
    }

    /** Calls AngstromFactor with one value for all months: the value is set, then trimmed without caller bounds. */
    method CallAngstromFactor(x: real)
      requires Valid() && SiblingAtMostOne(angstromConstant[..])
      modifies angstromFactor
      ensures angstromFactor[..] == TrimmedCoefficient(Uniform(Some(x)), None, None, old(angstromConstant[..]))
      ensures angstromConstant[..] == old(angstromConstant[..])
    {
      SetAngstromFactorValue(x);
      TrimAngstromFactor(None, None);
    }
  }

  /**
   The AngstromConstant doctest on a fresh parameter set: calling it with 1.5
   gives 1.0; after setting AngstromFactor to 0.6, calling it with 0.5 gives 0.4.
   */
  method AngstromConstantDoctest() returns (first: seq<Option<real>>, second: seq<Option<real>>)
    ensures first == Uniform(Some(1.0))
    ensures second == Uniform(Some(0.4))
  {
    DoctestScenarios();
    var pars := new ControlParameters(false);
    pars.CallAngstromConstant(1.5);
    first := pars.angstromConstant[..];
    pars.SetAngstromFactorValue(0.6);
    pars.CallAngstromConstant(0.5);
    second := pars.angstromConstant[..];
  }

  /**
   The AngstromFactor doctest on a fresh parameter set: calling it with 1.5
   gives 1.0; after setting AngstromConstant to 0.6, calling it with 0.5 gives 0.4.
   */
  method AngstromFactorDoctest() returns (first: seq<Option<real>>, second: seq<Option<real>>)
    ensures first == Uniform(Some(1.0))
    ensures second == Uniform(Some(0.4))
  {
    DoctestScenarios();
    var pars := new ControlParameters(false);
    pars.CallAngstromFactor(1.5);
    first := pars.angstromFactor[..];
    pars.SetAngstromConstantValue(0.6);
    pars.CallAngstromFactor(0.5);
    second := pars.angstromFactor[..];
  }
}
