/** The series store: an ordered vector of measurements, an incrementally
    tracked peak power, a generation timer and the change notifications it
    emits. */
module Provider {
  import opened Points

  /** The two notification channels of the store. */
  datatype Notification = PointsChanged | PeakChanged

  /** Period handed to the generation timer when it is started, in ms. */
  const GenerationPeriodMs: int := 5000

  /** Ends of the synthetic power ramp. */
  const RampMin: real := 100.0
  const RampMax: real := 300.0

  function Max(x: real, y: real): real { if x >= y then x else y }

  /** The largest power among `ps`, or 0 when none is larger: the value the
      peak holds when every point since the last clear was added one by one. */
  function PeakOf(ps: seq<DataPoint>): real
  {
    if ps == [] then 0.0 else Max(ps[0].power, PeakOf(ps[1..]))
  }

  /** The peak after addPoint(p): raised to p's power only when it is
      strictly larger, never lowered. */
  function RaisedPeak(peak: real, p: DataPoint): (r: real)
    ensures r >= peak && r >= p.power
    ensures r == peak || r == p.power
    ensures r != peak <==> p.power > peak
  {
    if p.power > peak then p.power else peak
  }

  /** PeakOf really is the maximum of zero and all the powers. */
  lemma {:induction false} PeakOfIsMaximum(ps: seq<DataPoint>)
    ensures PeakOf(ps) >= 0.0
    ensures forall i :: 0 <= i < |ps| ==> ps[i].power <= PeakOf(ps)
    ensures PeakOf(ps) == 0.0 || exists i :: 0 <= i < |ps| && ps[i].power == PeakOf(ps)
  {
    if ps != [] {
      PeakOfIsMaximum(ps[1..]);
      assert forall i :: 1 <= i < |ps| ==> ps[i] == ps[1..][i - 1];
      if PeakOf(ps) != 0.0 && PeakOf(ps) != ps[0].power {
        var j :| 0 <= j < |ps[1..]| && ps[1..][j].power == PeakOf(ps[1..]);
        assert ps[j + 1].power == PeakOf(ps);
      }
    }
  }

  /** Appending one point moves the maximum exactly as addPoint moves the
      peak: this is the step that keeps the peak equal to the maximum over
      any run of addPoint calls that starts from clearData. */
  lemma {:induction false} PeakOfAppend(ps: seq<DataPoint>, p: DataPoint)
    ensures PeakOf(ps + [p]) == RaisedPeak(PeakOf(ps), p)
  {
    if ps == [] {
      assert [p][1..] == [];
    } else {
      assert (ps + [p])[1..] == ps[1..] + [p];
      PeakOfAppend(ps[1..], p);
    }
  }

  /** Power of point `i` of a synthetic series of `count` points, before the
      random offset: a linear ramp from RampMin to RampMax by index. */
  function RampPower(count: int, i: int): real
    requires count >= 5
  {
    RampMin + (i as real) * ((RampMax - RampMin) / ((count - 1) as real))
  }

  /** The ramp starts at 100, ends at 300 and rises strictly in between. */
  lemma RampShape(count: int, i: int, j: int)
    requires count >= 5
    requires 0 <= i < j < count
    ensures RampPower(count, 0) == RampMin
    ensures RampPower(count, count - 1) == RampMax
    ensures RampPower(count, i) < RampPower(count, j)
    ensures RampMin <= RampPower(count, i) && RampPower(count, j) <= RampMax
  {
    var step := (RampMax - RampMin) / ((count - 1) as real);
    assert step > 0.0;
    assert ((count - 1) as real) * step == RampMax - RampMin;
    assert (i as real) * step < (j as real) * step;
    assert (j as real) * step <= ((count - 1) as real) * step;
  }

  /** The synthetic power of point `i`: the ramp value plus the offset
      `draw - 5` made from a uniform draw in [0, 10). */
  function SyntheticPower(count: int, i: int, draw: real): real
    requires count >= 5
  {
    RampPower(count, i) + (draw - 5.0)
  }

  /** Every synthetic power lies in [95, 305). */
  lemma SyntheticPowerBounds(count: int, i: int, draw: real)
    requires count >= 5 && 0 <= i < count
    requires 0.0 <= draw < 10.0
    ensures 95.0 <= SyntheticPower(count, i, draw) < 305.0
  {
    if i < count - 1 {
      RampShape(count, i, count - 1);
    } else {
      RampShape(count, 0, i);
    }
  }

  /** The unsorted series the generator starts from: one point per drawn
      state of charge, all at power 0. */
  function Seeds(socDraws: seq<int>): seq<DataPoint>
  {
    seq(|socDraws|, k requires 0 <= k < |socDraws| => DataPoint(socDraws[k] as real, 0.0))
  }

  /** `ps` with every power reset to 0. */
  function SocsOnly(ps: seq<DataPoint>): seq<DataPoint>
  {
    seq(|ps|, k requires 0 <= k < |ps| => DataPoint(ps[k].soc, 0.0))
  }

  predicate SortedBySoc(s: seq<DataPoint>)
  {
    forall i, j :: 0 <= i < j < |s| ==> s[i].soc <= s[j].soc
  }

  predicate IsIntegral(x: real) { x == x.Floor as real }

  /** A series whose states of charge are a rearrangement of the drawn ones
      inherits their range: every soc is a whole number in [25, 85). */
  lemma SocsFromDraws(ps: seq<DataPoint>, socDraws: seq<int>)
    requires forall k :: 0 <= k < |socDraws| ==> 25 <= socDraws[k] < 85
    requires multiset(SocsOnly(ps)) == multiset(Seeds(socDraws))
    ensures forall i :: 0 <= i < |ps| ==> 25.0 <= ps[i].soc < 85.0 && IsIntegral(ps[i].soc)
  {
    forall i | 0 <= i < |ps|
      ensures 25.0 <= ps[i].soc < 85.0 && IsIntegral(ps[i].soc)
    {
      var d := SocsOnly(ps)[i];
      assert d in multiset(SocsOnly(ps));
      assert d in Seeds(socDraws);
      var k :| 0 <= k < |socDraws| && Seeds(socDraws)[k] == d;
      assert ps[i].soc == socDraws[k] as real;
    }
  }

  /** Sorts `a` ascending by state of charge, in place; the order among
      equal states of charge is not specified, as for std::sort. */
  method SortBySoc(a: array<DataPoint>)
    modifies a
    ensures SortedBySoc(a[..])
    ensures multiset(a[..]) == multiset(old(a[..]))
  {
    var i := 0;
    while i < a.Length
      invariant 0 <= i <= a.Length
      invariant SortedBySoc(a[..i])
      invariant multiset(a[..]) == multiset(old(a[..]))
    {
      InsertIntoPrefix(a, i);
      i := i + 1;
    }
  }

  /** Moves a[i] down into the sorted prefix a[..i]. */
  method InsertIntoPrefix(a: array<DataPoint>, i: int)
    requires 0 <= i < a.Length
    requires SortedBySoc(a[..i])
    modifies a
    ensures SortedBySoc(a[..i + 1])
    ensures multiset(a[..]) == multiset(old(a[..]))
    ensures a[i + 1..] == old(a[i + 1..])
  {
    var j := i;
    while j > 0 && a[j - 1].soc > a[j].soc
      invariant 0 <= j <= i
      invariant forall k, l :: 0 <= k < l <= i && l != j ==> a[k].soc <= a[l].soc
      invariant forall l :: j < l <= i ==> a[j].soc <= a[l].soc
      invariant multiset(a[..]) == multiset(old(a[..]))
      invariant a[i + 1..] == old(a[i + 1..])
    {
      SwapWithPrevious(a, j);
      j := j - 1;
    }
  }

  /** A permutation of the seed series still has every power at 0. */
  lemma PermutedSeedsHaveZeroPower(s: seq<DataPoint>, socDraws: seq<int>)
    requires multiset(s) == multiset(Seeds(socDraws))
    ensures SocsOnly(s) == s
  {
    forall k | 0 <= k < |s|
      ensures s[k].power == 0.0
    {
      assert s[k] in multiset(Seeds(socDraws));
    }
  }

  /** First loop of generateRandomData: one point per drawn state of
      charge, appended in draw order, all at power 0. */
  method NewSeedArray(socDraws: seq<int>) returns (a: array<DataPoint>)
    ensures fresh(a) && a[..] == Seeds(socDraws)
  {
    a := new DataPoint[|socDraws|];
    for i := 0 to |socDraws|
      invariant forall k :: 0 <= k < i ==> a[k] == DataPoint(socDraws[k] as real, 0.0)
    {
      a[i] := DataPoint(socDraws[i] as real, 0.0);
    }
  }

  /** Second loop of generateRandomData: overwrites each point's power with
      the ramp value plus its offset, keeping its state of charge. The step
      divides by count - 1, which is at least 4. */
  method ApplyRamp(a: array<DataPoint>, offsetDraws: seq<real>)
    requires a.Length >= 5 && |offsetDraws| == a.Length
    modifies a
    ensures forall k :: 0 <= k < a.Length ==>
              a[k] == DataPoint(old(a[k]).soc, SyntheticPower(a.Length, k, offsetDraws[k]))
  {
    var count := a.Length;
    var step := (RampMax - RampMin) / ((count - 1) as real);
    for i := 0 to count
      invariant forall k :: 0 <= k < i ==>
                  a[k] == DataPoint(old(a[k]).soc, SyntheticPower(count, k, offsetDraws[k]))
      invariant forall k :: i <= k < count ==> a[k] == old(a[k])
    {
      var power := RampMin + (i as real) * step;
      power := power + (offsetDraws[i] - 5.0);
      a[i] := DataPoint(a[i].soc, power);
    }
  }

  /** Exchanges a[j - 1] and a[j]. */
  method SwapWithPrevious(a: array<DataPoint>, j: int)
    requires 0 < j < a.Length
    modifies a
    ensures a[j - 1] == old(a[j]) && a[j] == old(a[j - 1])
    ensures forall k :: 0 <= k < a.Length && k != j - 1 && k != j ==> a[k] == old(a[k])
    ensures multiset(a[..]) == multiset(old(a[..]))
  {
    a[j - 1], a[j] := a[j], a[j - 1];
  }

  class DataProvider {
    var points: seq<DataPoint>
    var peak: real
    var timerActive: bool
    var timerInterval: int
    /** Every notification emitted so far, oldest first. */
    var notifications: seq<Notification>

    constructor ()
      ensures points == [] && peak == 0.0 && notifications == []
      ensures !timerActive && timerInterval == 0
    {
      points := [];
      peak := 0.0;
      timerActive := false;
      timerInterval := 0;
      notifications := [];
    }

    /** isAutoGenerating: whether the generation timer is running. */
    function IsAutoGenerating(): bool
      reads this
    {
      timerActive
    }

    /** The peak is the maximum of zero and the stored powers, as it is
      after clearData followed by any number of addPoint calls. */
    ghost predicate PeakIsMaximum()
      reads this
    {
      peak == PeakOf(points)
    }

    /** setDataPoints: a value-guarded bulk replace that leaves the peak
        alone. */
    method SetDataPoints(newPoints: seq<DataPoint>)
      modifies this`points, this`notifications
      ensures VectorEqual(old(points), newPoints) ==>
                points == old(points) && notifications == old(notifications)
      ensures !VectorEqual(old(points), newPoints) ==>
                points == newPoints && notifications == old(notifications) + [PointsChanged]
    {
      if VectorEqual(points, newPoints) {
        return;
      }
      points := newPoints;
      notifications := notifications + [PointsChanged];
    }

    /** setPeakPower: a value-guarded (fuzzy) write of the peak. */
    method SetPeakPower(newPeak: real)
      modifies this`peak, this`notifications
      ensures ApproxEq(old(peak), newPeak) ==>
                peak == old(peak) && notifications == old(notifications)
      ensures !ApproxEq(old(peak), newPeak) ==>
                peak == newPeak && notifications == old(notifications) + [PeakChanged]
    {
      if ApproxEq(peak, newPeak) {
        return;
      }
      peak := newPeak;
      notifications := notifications + [PeakChanged];
    }

    /** addPoint: appends, raises the peak when the new power is strictly
        larger (announcing that first), then announces the new points. */
    method AddPoint(p: DataPoint)
      modifies this`points, this`peak, this`notifications
      ensures points == old(points) + [p]
      ensures peak == RaisedPeak(old(peak), p) && peak >= old(peak)
      ensures notifications == old(notifications) +
                (if p.power > old(peak) then [PeakChanged, PointsChanged] else [PointsChanged])
      ensures old(PeakIsMaximum()) ==> PeakIsMaximum()
    {
      PeakOfAppend(points, p);
      points := points + [p];
      if p.power > peak {
        peak := p.power;
        notifications := notifications + [PeakChanged];
      }
      notifications := notifications + [PointsChanged];
    }

    /** clearData: unconditional reset; both channels fire even when the
        store is already empty. */
    method ClearData()
      modifies this`points, this`peak, this`notifications
      ensures points == [] && peak == 0.0 && PeakIsMaximum()
      ensures notifications == old(notifications) + [PointsChanged, PeakChanged]
    {
      points := [];
      peak := 0.0;
      notifications := notifications + [PointsChanged, PeakChanged];
    }

    /** startRandomGeneration: arms the timer with the 5000 ms period unless
        it is already running. */
    method StartRandomGeneration()
      modifies this`timerActive, this`timerInterval
      ensures IsAutoGenerating()
      ensures old(timerActive) ==> timerInterval == old(timerInterval)
      ensures !old(timerActive) ==> timerInterval == GenerationPeriodMs
    {
      if !timerActive {
        timerActive := true;
        timerInterval := GenerationPeriodMs;
      }
    }

    /** stopRandomGeneration: stops the timer if it is running. */
    method StopRandomGeneration()
      modifies this`timerActive
      ensures !IsAutoGenerating()
    {
      if timerActive {
        timerActive := false;
      }
    }

    /** generateRandomData, with the random draws passed in: `count` from
        [5, 15), one whole state of charge from [25, 85) per point and one
        offset draw from [0, 10) per point. */
    method GenerateRandomData(count: int, socDraws: seq<int>, offsetDraws: seq<real>)
      requires 5 <= count < 15
      requires |socDraws| == count && |offsetDraws| == count
      requires forall k :: 0 <= k < count ==> 25 <= socDraws[k] < 85
      requires forall k :: 0 <= k < count ==> 0.0 <= offsetDraws[k] < 10.0
      modifies this`points, this`peak, this`notifications
      ensures |points| == count
      ensures SortedBySoc(points)
      ensures multiset(SocsOnly(points)) == multiset(Seeds(socDraws))
      ensures forall i :: 0 <= i < count ==> 25.0 <= points[i].soc < 85.0 && IsIntegral(points[i].soc)
      ensures forall i :: 0 <= i < count ==> points[i].power == SyntheticPower(count, i, offsetDraws[i])
      ensures peak == 0.0
      ensures notifications == old(notifications) + [PointsChanged, PeakChanged, PointsChanged]
    {
      ClearData();
      var newData := NewSeedArray(socDraws);
      SortBySoc(newData);
      ghost var sorted := newData[..];
      PermutedSeedsHaveZeroPower(sorted, socDraws);
      ApplyRamp(newData, offsetDraws);
      assert SocsOnly(newData[..]) == SocsOnly(sorted);
      SocsFromDraws(newData[..], socDraws);
      assert !VectorEqual(points, newData[..]);
      SetDataPoints(newData[..]);
    }
  }
}
