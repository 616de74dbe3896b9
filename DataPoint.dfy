/** One measurement of the chart: a state-of-charge percentage and a power
    value, compared approximately rather than bit for bit. */
module Points {

  function Abs(x: real): real { if x < 0.0 then -x else x }

  function Min(x: real, y: real): real { if x <= y then x else y }

  /** Qt's fuzzy comparison of two doubles, read over the reals: the two
      values agree when their difference, scaled by 10^12, does not exceed
      the smaller of their magnitudes. */
  predicate ApproxEq(a: real, b: real)
  {
    Abs(a - b) * 1000000000000.0 <= Min(Abs(a), Abs(b))
  }

  lemma ApproxEqReflexive(a: real)
    ensures ApproxEq(a, a)
  {
  }

  lemma ApproxEqSymmetric(a: real, b: real)
    ensures ApproxEq(a, b) <==> ApproxEq(b, a)
  {
  }

  /** The well-known corner of the fuzzy compare: nothing but zero itself is
      approximately equal to zero. */
  lemma ApproxEqZero(x: real)
    ensures ApproxEq(0.0, x) <==> x == 0.0
  {
  }

  /** Approximately equal values have the same sign and lie within one part
      in 10^12 of each other. */
  lemma ApproxEqClose(a: real, b: real)
    requires ApproxEq(a, b)
    ensures (a < 0.0 <==> b < 0.0) && (a > 0.0 <==> b > 0.0)
    ensures Abs(a - b) * 1000000000000.0 <= Abs(a)
  {
  }

  /** The measurement; the constructor stores both values as given and the
      destructors `soc` and `power` are the two getters. */
  datatype DataPoint = DataPoint(soc: real, power: real)

  /** setSocPercentage: replaces the state of charge, keeps the power. */
  function WithSoc(p: DataPoint, newSoc: real): (r: DataPoint)
    ensures r.soc == newSoc && r.power == p.power
  {
    p.(soc := newSoc)
  }

  /** setPower: replaces the power, keeps the state of charge. */
  function WithPower(p: DataPoint, newPower: real): (r: DataPoint)
    ensures r.power == newPower && r.soc == p.soc
  {
    p.(power := newPower)
  }

  /** operator==: both components fuzzily equal. */
  predicate Equal(a: DataPoint, b: DataPoint)
  {
    ApproxEq(a.soc, b.soc) && ApproxEq(a.power, b.power)
  }

  /** operator!=: the negation of operator==, so it holds as soon as one
      component differs beyond the fuzzy tolerance. */
  function NotEqual(a: DataPoint, b: DataPoint): (r: bool)
    ensures r <==> !ApproxEq(a.soc, b.soc) || !ApproxEq(a.power, b.power)
    ensures r != Equal(a, b)
  {
    !Equal(a, b)
  }

  /** operator== is reflexive and symmetric, so identical points always
      compare equal, whichever side they are on. */
  lemma EqualReflexiveSymmetric(a: DataPoint, b: DataPoint)
    ensures Equal(a, a)
    ensures Equal(a, b) <==> Equal(b, a)
  {
    ApproxEqReflexive(a.soc);
    ApproxEqReflexive(a.power);
    ApproxEqSymmetric(a.soc, b.soc);
    ApproxEqSymmetric(a.power, b.power);
  }

  /** operator== tells a point at zero power from any point with power. */
  lemma EqualSeparatesZeroPower(a: DataPoint, b: DataPoint)
    requires a.power == 0.0 && b.power != 0.0
    ensures !Equal(a, b) && NotEqual(a, b)
  {
    ApproxEqZero(b.power);
  }

  /** QVector<DataPoint>::operator==: same length and element-wise
      operator==. */
  predicate VectorEqual(a: seq<DataPoint>, b: seq<DataPoint>)
  {
    |a| == |b| && forall i :: 0 <= i < |a| ==> Equal(a[i], b[i])
  }

  /** A vector always equals itself, and the empty vector equals only the
      empty vector. */
  lemma VectorEqualProperties(a: seq<DataPoint>, b: seq<DataPoint>)
    ensures VectorEqual(a, a)
    ensures VectorEqual([], b) <==> b == []
  {
    forall i | 0 <= i < |a|
      ensures Equal(a[i], a[i])
    {
      EqualReflexiveSymmetric(a[i], a[i]);
    }
  }
}
