/** The jerk-based outlier test the virtual analog stick applies to each
    rotation-sensor sample. A sample's per-axis rates are compared with the rates
    last used; if any axis changed faster than the threshold the whole sample is
    replaced by the last rates. The test is one-sided: only a positive jerk above
    the threshold counts. */
module SensorFilter {

  /** `(float) Math.pow(10f, -5f)`. */
  const OutlierThreshold: real := 0.00001

  /** The number of sensor axes the filter looks at. */
  const Axes: nat := 3

  /** `orientation_jerk` of axis `k`: the change of its rate over the time step. */
  function Jerk(delta: seq<real>, last: seq<real>, dt: real, k: nat): real
    requires k < |delta| && k < |last| && dt != 0.0
  {
    (delta[k] - last[k]) / dt
  }

  /** A sample is an outlier when some axis's jerk exceeds the threshold. */
  ghost predicate IsOutlier(delta: seq<real>, last: seq<real>, dt: real)
    requires Axes <= |delta| && Axes <= |last| && dt != 0.0
  {
    exists k :: 0 <= k < Axes && Jerk(delta, last, dt, k) > OutlierThreshold
  }

  /** `Math.max` as the source uses it. */
  function Max(a: real, b: real): (m: real)
    ensures a <= m && b <= m && (m == a || m == b)
  {
    if a >= b then a else b
  }

  /** The running maximum `jerk` holds after the first `n` axes have been seen. */
  function MaxJerk(jerk0: real, delta: seq<real>, last: seq<real>, dt: real, n: nat): real
    requires n <= |delta| && n <= |last| && dt != 0.0
  {
    if n == 0 then jerk0 else Max(MaxJerk(jerk0, delta, last, dt, n - 1), Jerk(delta, last, dt, n - 1))
  }

  /** The running maximum never decreases, bounds every jerk seen, and is either
      where it started or one of those jerks. */
  lemma {:induction false} MaxJerkBounds(jerk0: real, delta: seq<real>, last: seq<real>, dt: real, n: nat)
    requires n <= |delta| && n <= |last| && dt != 0.0
    ensures jerk0 <= MaxJerk(jerk0, delta, last, dt, n)
    ensures forall k :: 0 <= k < n ==> Jerk(delta, last, dt, k) <= MaxJerk(jerk0, delta, last, dt, n)
    ensures var j := MaxJerk(jerk0, delta, last, dt, n);
            j == jerk0 || exists k :: 0 <= k < n && j == Jerk(delta, last, dt, k)
  {
    if n > 0 {
      MaxJerkBounds(jerk0, delta, last, dt, n - 1);
    }
  }

  /** The rates the sample is finally taken to have: the last rates for an outlier,
      its own otherwise. */
  ghost function FilteredDeltas(delta: seq<real>, last: seq<real>, dt: real): (used: seq<real>)
    requires Axes <= |delta| && Axes <= |last| && dt != 0.0
    ensures |used| == Axes
    ensures IsOutlier(delta, last, dt) ==> used == last[..Axes]
    ensures !IsOutlier(delta, last, dt) ==> used == delta[..Axes]
  {
    if IsOutlier(delta, last, dt) then last[..Axes] else delta[..Axes]
  }

  /** The test has no absolute value: with time moving forward, a sample whose
      rates all fell (however sharply) is never an outlier, while any axis rising
      by more than the threshold times the time step makes one. */
  lemma OneSidedTest(delta: seq<real>, last: seq<real>, dt: real)
    requires Axes <= |delta| && Axes <= |last| && 0.0 < dt
    ensures (forall k :: 0 <= k < Axes ==> delta[k] <= last[k]) ==> !IsOutlier(delta, last, dt)
    ensures (exists k :: 0 <= k < Axes && delta[k] - last[k] > OutlierThreshold * dt) ==> IsOutlier(delta, last, dt)
  {
    if forall k :: 0 <= k < Axes ==> delta[k] <= last[k] {
      forall k | 0 <= k < Axes
        ensures Jerk(delta, last, dt, k) <= 0.0
      {
        NonPositiveOverPositive(delta[k] - last[k], dt);
      }
    }
    if k :| 0 <= k < Axes && delta[k] - last[k] > OutlierThreshold * dt {
      AboveThreshold(delta[k] - last[k], dt);
      assert Jerk(delta, last, dt, k) > OutlierThreshold;
    }
  }

  lemma NonPositiveOverPositive(a: real, b: real)
    requires a <= 0.0 && 0.0 < b
    ensures a / b <= 0.0
  {
  }

  lemma AboveThreshold(a: real, b: real)
    requires 0.0 < b && a > OutlierThreshold * b
    ensures a / b > OutlierThreshold
  {
    assert a / b * b == a;
  }
}
