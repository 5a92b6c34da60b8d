/** The axis-limit search of src/data_generator.py: for every degree of
    azimuth, the elevation at which an X/Y antenna mount pointed along that
    azimuth first comes within tolerance of one of its rectangular X/Y
    limits. */
module DataGenerator {
  import opened Numerics
  import opened Vectors
  import opened PointingConversion

  /** The mount's axis limits in degrees: (x_min, x_max) and (y_min, y_max). */
  datatype Limits = Limits(x: (real, real), y: (real, real))

  /** The default limits, those of the legacy 26 m antenna. */
  const DefaultLimits := Limits((-86.0, 86.0), (-76.0, 76.0))

  /** `math.isclose(a, b, rel_tol=0.05)` with its default `abs_tol` of zero:
      every value is close to itself, and nothing but zero is close to zero. */
  function IsClose(a: real, b: real): (r: bool)
    ensures a == b ==> r
    ensures r && b == 0.0 ==> a == 0.0
  {
    Abs(a - b) <= 0.05 * Max(Abs(a), Abs(b))
  }

  predicate InRange(v: real, range: (real, real))
  {
    range.0 <= v <= range.1
  }

  /** `v` is close to one of the two bounds of its axis. */
  predicate NearBound(v: real, range: (real, real))
  {
    IsClose(v, range.0) || IsClose(v, range.1)
  }

  // ---------------------------------------------------------------------
  // `test_limits`
  // ---------------------------------------------------------------------

  /** `test_limits`: (False, False) outside the limits, (True, False) inside
      them, (True, True) inside and close to a bound. The range tests look at
      the coordinates rounded to two digits, the closeness tests at the
      coordinates themselves. */
  function TestLimits(m: Maths, lim: Limits, p: (real, real)): (r: (bool, bool))
    ensures !r.0 ==> !r.1
    ensures !InRange(m.round2(p.0), lim.x) ==> r == (false, false)
    ensures r.0 <==> InRange(m.round2(p.0), lim.x) && InRange(m.round2(p.1), lim.y)
    ensures r.1 <==> r.0 && (NearBound(p.0, lim.x) || NearBound(p.1, lim.y))
  {
    var (x, y) := p;
    if !(lim.x.0 <= m.round2(x) <= lim.x.1) then
      (false, false)
    else if !(lim.y.0 <= m.round2(y) <= lim.y.1) then
      (false, false)
    else
      var xLim := IsClose(x, lim.x.0) || IsClose(x, lim.x.1);
      var yLim := IsClose(y, lim.y.0) || IsClose(y, lim.y.1);
      if xLim || yLim then (true, true) else (true, false)
  }

  /** Closeness to a positive bound `b` is the band [0.95 b, b / 0.95]. */
  lemma IsCloseToPositive(v: real, b: real)
    requires 0.0 < b
    ensures IsClose(v, b) <==> 0.95 * b <= v && 0.95 * v <= b
  {
  }

  /** Closeness does not depend on the sign, so a negative bound has the
      mirrored band. */
  lemma IsCloseNegated(a: real, b: real)
    ensures IsClose(-a, -b) <==> IsClose(a, b)
  {
    assert Abs(-a - -b) == Abs(a - b);
    assert Abs(-a) == Abs(a) && Abs(-b) == Abs(b);
  }

  /** With round(v, 2) within half a hundredth of v, a point at least that far
      inside the default limits is classified by how close it is to an edge:
      |x| >= 81.7 (95 % of 86) or |y| >= 72.2 (95 % of 76). */
  lemma DefaultLimitsInside(m: Maths, p: (real, real))
    requires RoundBound(m)
    requires Abs(p.0) <= 85.995 && Abs(p.1) <= 75.995
    ensures TestLimits(m, DefaultLimits, p) == (true, 81.7 <= Abs(p.0) || 72.2 <= Abs(p.1))
  {
    var (x, y) := p;
    assert -0.005 <= m.round2(x) - x <= 0.005;
    assert -0.005 <= m.round2(y) - y <= 0.005;
    IsCloseToPositive(x, 86.0);
    IsCloseToPositive(-x, 86.0);
    IsCloseNegated(x, -86.0);
    IsCloseToPositive(y, 76.0);
    IsCloseToPositive(-y, 76.0);
    IsCloseNegated(y, -76.0);
  }

  /** A point more than half a hundredth outside the default limits on
      either axis is outside. */
  lemma DefaultLimitsOutside(m: Maths, p: (real, real))
    requires RoundBound(m)
    requires 86.005 < Abs(p.0) || 76.005 < Abs(p.1)
    ensures TestLimits(m, DefaultLimits, p) == (false, false)
  {
    assert -0.005 <= m.round2(p.0) - p.0 <= 0.005;
    assert -0.005 <= m.round2(p.1) - p.1 <= 0.005;
  }

  // ---------------------------------------------------------------------
  // `recursive_find_el`
  // ---------------------------------------------------------------------

  /** What `recursive_find_el` yields: an elevation, Python's `None` when the
      bracket is inverted, or a `RecursionError` once the interpreter's
      recursion depth is used up. */
  datatype SearchResult = Found(el: real) | NoneResult | OutOfFuel

  /** The probe of a bracket, `(el_max + el_min) / 2.05`. For a non-negative
      bracket it lies below 40/41 of the top, and it falls below the bottom
      exactly when the top is less than 1.05 times the bottom: the search can
      leave its bracket downwards. */
  function Mid(lo: real, hi: real): (mid: real)
    ensures 0.0 <= lo <= hi ==> 0.0 <= mid <= hi * 40.0 / 41.0
    ensures 0.0 <= lo <= hi ==> (mid < lo <==> hi < 1.05 * lo)
  {
    (hi + lo) / 2.05
  }

  /** The X and Y an ENU object re-pointed with `from_azel(az, el)` reports. */
  function Pointing(m: Maths): (real, real) -> (real, real)
  {
    (az, el) => AzElToXY(m, az, el)
  }

  /** The brackets the search from [lo, hi] with `fuel` calls left visits:
      the first one, then those of the recursive call its probe makes. A
      (True, True) probe makes none. */
  predicate Reached(m: Maths, lim: Limits, xyOf: (real, real) -> (real, real), az: real, lo: real, hi: real, fuel: nat, a: real, b: real)
    decreases fuel
  {
    || (a == lo && b == hi)
    || (0 < fuel && lo <= hi &&
        var mid := Mid(lo, hi);
        var t := TestLimits(m, lim, xyOf(az, mid));
        if t.0 && t.1 then false
        else if t.0 || t.1 then Reached(m, lim, xyOf, az, lo, mid, fuel - 1, a, b)
        else Reached(m, lim, xyOf, az, mid, hi, fuel - 1, a, b))
  }

  /** The search for azimuth `az` in the bracket [lo, hi] with `fuel` calls
      left before the recursion limit; `xyOf` gives the X and Y of an
      azimuth and elevation. A found elevation is the probe of a bracket the
      search reached. */
  function Search(m: Maths, lim: Limits, xyOf: (real, real) -> (real, real), az: real, lo: real, hi: real, fuel: nat): (r: SearchResult)
    ensures r.Found? ==> TestLimits(m, lim, xyOf(az, r.el)) == (true, true)
    ensures r.Found? ==> exists a: real, b: real :: Reached(m, lim, xyOf, az, lo, hi, fuel, a, b) && a <= b && r.el == Mid(a, b)
    ensures r.Found? && 0.0 <= lo && 0.0 <= hi ==> 0.0 <= r.el <= hi * 40.0 / 41.0
    ensures 0 < fuel && hi < lo ==> r == NoneResult
    decreases fuel
  {
    if fuel == 0 then
      OutOfFuel
    else if hi >= lo then
      var mid := Mid(lo, hi);
      var t := TestLimits(m, lim, xyOf(az, mid));
      if t.0 && t.1 then
        assert Reached(m, lim, xyOf, az, lo, hi, fuel, lo, hi);
        Found(mid)
      else if t.0 || t.1 then
        Search(m, lim, xyOf, az, lo, mid, fuel - 1)
      else
        Search(m, lim, xyOf, az, mid, hi, fuel - 1)
    else
      NoneResult
  }

  /** From a non-negative bracket every bracket the search reaches stays
      non-negative and below the first ceiling. */
  lemma {:induction false} ReachedWithin(m: Maths, lim: Limits, xyOf: (real, real) -> (real, real), az: real, lo: real, hi: real, fuel: nat, a: real, b: real)
    requires 0.0 <= lo && 0.0 <= hi
    requires Reached(m, lim, xyOf, az, lo, hi, fuel, a, b)
    ensures 0.0 <= a && b <= hi
    decreases fuel
  {
    if !(a == lo && b == hi) {
      var mid := Mid(lo, hi);
      var t := TestLimits(m, lim, xyOf(az, mid));
      if t.0 || t.1 {
        ReachedWithin(m, lim, xyOf, az, lo, mid, fuel - 1, a, b);
      } else {
        ReachedWithin(m, lim, xyOf, az, mid, hi, fuel - 1, a, b);
      }
    }
  }

  /** The three-way branch on the probe's classification: (True, True)
      stops at the probe; (True, False) lowers the ceiling to it, leaving a
      bracket (hi - 1.05 lo) / 2.05 wide; (False, False) raises the floor to
      it, leaving one (1.05 hi - lo) / 2.05 wide. */
  lemma SearchBranches(m: Maths, lim: Limits, xyOf: (real, real) -> (real, real), az: real, lo: real, hi: real, fuel: nat)
    requires 0 < fuel && lo <= hi
    ensures var mid := Mid(lo, hi);
      var t := TestLimits(m, lim, xyOf(az, mid));
      && (t == (true, true) ==> Search(m, lim, xyOf, az, lo, hi, fuel) == Found(mid))
      && (t == (true, false) ==>
            && Search(m, lim, xyOf, az, lo, hi, fuel) == Search(m, lim, xyOf, az, lo, mid, fuel - 1)
            && Reached(m, lim, xyOf, az, lo, hi, fuel, lo, mid)
            && mid - lo == (hi - 1.05 * lo) / 2.05)
      && (t == (false, false) ==>
            && Search(m, lim, xyOf, az, lo, hi, fuel) == Search(m, lim, xyOf, az, mid, hi, fuel - 1)
            && Reached(m, lim, xyOf, az, lo, hi, fuel, mid, hi)
            && hi - mid == (1.05 * hi - lo) / 2.05)
  {
  }

  /** More recursion depth does not change a search that finished. */
  lemma {:induction false} SearchFuelMonotone(m: Maths, lim: Limits, xyOf: (real, real) -> (real, real), az: real, lo: real, hi: real, fuel: nat, more: nat)
    requires fuel <= more
    requires !Search(m, lim, xyOf, az, lo, hi, fuel).OutOfFuel?
    ensures Search(m, lim, xyOf, az, lo, hi, more) == Search(m, lim, xyOf, az, lo, hi, fuel)
    decreases fuel
  {
    if hi >= lo {
      var mid := Mid(lo, hi);
      var t := TestLimits(m, lim, xyOf(az, mid));
      if t.0 && t.1 {
      } else if t.0 || t.1 {
        SearchFuelMonotone(m, lim, xyOf, az, lo, mid, fuel - 1, more - 1);
      } else {
        SearchFuelMonotone(m, lim, xyOf, az, mid, hi, fuel - 1, more - 1);
      }
    }
  }

  /** When no elevation along the azimuth is inside the limits, every probe
      raises the floor and the bracket never inverts: the search ends only
      at the recursion limit, whatever the depth. */
  lemma {:induction false} NeverInsideRunsOutOfFuel(m: Maths, lim: Limits, xyOf: (real, real) -> (real, real), az: real, lo: real, hi: real, fuel: nat)
    requires forall e :: !TestLimits(m, lim, xyOf(az, e)).0
    requires lo <= hi && 0.0 <= hi
    ensures Search(m, lim, xyOf, az, lo, hi, fuel) == OutOfFuel
    decreases fuel
  {
    if fuel > 0 {
      var mid := Mid(lo, hi);
      assert !TestLimits(m, lim, xyOf(az, mid)).0;
      NeverInsideRunsOutOfFuel(m, lim, xyOf, az, mid, hi, fuel - 1);
    }
  }

  // ---------------------------------------------------------------------
  // `find_limits`
  // ---------------------------------------------------------------------

  /** The search `find_limits` runs for one whole-degree azimuth, from the
      bracket (1, 90). */
  function Solve(m: Maths, lim: Limits, xyOf: (real, real) -> (real, real), depth: nat, az: int): (r: SearchResult)
    ensures r.Found? ==> TestLimits(m, lim, xyOf(az as real, r.el)) == (true, true)
    ensures r.Found? ==> 0.0 <= r.el <= 90.0 * 40.0 / 41.0
  {
    Search(m, lim, xyOf, az as real, 1.0, 90.0, depth)
  }

  /** The entry `find_limits` appends for a finished search. */
  function Elevation(r: SearchResult): Option<real>
    requires !r.OutOfFuel?
  {
    if r.Found? then Some(r.el) else None
  }

  /** `limit_list` after the sweep over the azimuths 0 .. n-1, which stops at
      the first search that runs out of depth. */
  function Sweep(m: Maths, lim: Limits, xyOf: (real, real) -> (real, real), depth: nat, n: nat): (s: seq<(int, Option<real>)>)
    ensures |s| <= n
    decreases n
  {
    if n == 0 then
      []
    else
      var prev := Sweep(m, lim, xyOf, depth, n - 1);
      if |prev| < n - 1 then
        prev
      else
        var r := Solve(m, lim, xyOf, depth, n - 1);
        if r.OutOfFuel? then prev else prev + [(n - 1, Elevation(r))]
  }

  /** Entry i of the sweep is azimuth i with the elevation its search found;
      a list shorter than n ends where a search ran out of depth. */
  lemma {:induction false} SweepShape(m: Maths, lim: Limits, xyOf: (real, real) -> (real, real), depth: nat, n: nat)
    ensures var s := Sweep(m, lim, xyOf, depth, n);
      && |s| <= n
      && (forall i :: 0 <= i < |s| ==> s[i].0 == i && !Solve(m, lim, xyOf, depth, i).OutOfFuel?)
      && (forall i :: 0 <= i < |s| ==> s[i].1 == Elevation(Solve(m, lim, xyOf, depth, i)))
      && (|s| < n ==> Solve(m, lim, xyOf, depth, |s|).OutOfFuel?)
    decreases n
  {
    if n > 0 {
      SweepShape(m, lim, xyOf, depth, n - 1);
    }
  }

  /** The sweep lists every azimuth exactly when no search runs out of depth. */
  lemma SweepComplete(m: Maths, lim: Limits, xyOf: (real, real) -> (real, real), depth: nat, n: nat)
    ensures |Sweep(m, lim, xyOf, depth, n)| == n <==> forall i :: 0 <= i < n ==> !Solve(m, lim, xyOf, depth, i).OutOfFuel?
  {
    SweepShape(m, lim, xyOf, depth, n);
    var s := Sweep(m, lim, xyOf, depth, n);
    if |s| < n {
      assert Solve(m, lim, xyOf, depth, |s|).OutOfFuel?;
    }
  }

  /** Once a search has run out of depth the list grows no further. */
  lemma {:induction false} SweepStalled(m: Maths, lim: Limits, xyOf: (real, real) -> (real, real), depth: nat, n: nat, total: nat)
    requires n <= total
    requires |Sweep(m, lim, xyOf, depth, n)| < n
    ensures Sweep(m, lim, xyOf, depth, total) == Sweep(m, lim, xyOf, depth, n)
    decreases total
  {
    if n < total {
      SweepStalled(m, lim, xyOf, depth, n, total - 1);
    }
  }

  /** Limits with an empty X range leave the list empty. */
  lemma EmptyRangeSweep(m: Maths, lim: Limits, xyOf: (real, real) -> (real, real), depth: nat, n: nat)
    requires lim.x.1 < lim.x.0
    ensures Sweep(m, lim, xyOf, depth, n) == []
  {
    if 0 < n {
      NeverInsideRunsOutOfFuel(m, lim, xyOf, 0.0, 1.0, 90.0, depth);
      SweepStalled(m, lim, xyOf, depth, 1, n);
    }
  }

  // ---------------------------------------------------------------------
  // The DataGen object
  // ---------------------------------------------------------------------

  class DataGen {
    /** The X and Y limits, `self.x` and `self.y`. */
    const limits: Limits
    /** The ENU object every probe points. */
    const enu: ENU
    /** The recursion depth available to each search. */
    const depth: nat
    /** Pairs of an azimuth and the elevation found for it, if any. */
    var limitList: seq<(int, Option<real>)>

    /** `DataGen(xy)`: stores the limits, builds an ENU object from X = Y = 0
        and runs `find_limits`. */
    constructor (maths: Maths, xy: Limits, depth: nat)
      requires Axioms(maths)
      ensures limits == xy && this.depth == depth && enu.maths == maths
      ensures limitList == Sweep(maths, xy, Pointing(maths), depth, 359)
    {
      limits := xy;
      this.depth := depth;
      enu := new ENU(maths, None, Some((0.0, 0.0)));
      new;
      var _ := FindLimits();
    }

    /** `self.enu.from_azel(azimuth, el)` followed by reading `self.enu.xy`. */
    method PointAt(azimuth: real, el: real) returns (xy: (real, real))
      requires Axioms(enu.maths)
      modifies enu
      ensures xy == Pointing(enu.maths)(azimuth, el)
      ensures enu.vector == Some(AzElVector(enu.maths, azimuth, el)) && enu.Consistent() && enu.xy == xy
    {
      enu.FromAzEl(azimuth, el);
      xy := enu.xy;
    }

    /** `recursive_find_el`: each probe re-points the ENU object with
        `from_azel` and classifies the X and Y it reports. */
    method RecursiveFindEl(azimuth: real, elMin: real, elMax: real, fuel: nat) returns (r: SearchResult)
      requires Axioms(enu.maths)
      modifies enu
      ensures r == Search(enu.maths, limits, Pointing(enu.maths), azimuth, elMin, elMax, fuel)
      decreases fuel
    {
      if fuel == 0 {
        return OutOfFuel;
      }
      if elMax >= elMin {
        var mid := Mid(elMin, elMax);
        var xy := PointAt(azimuth, mid);
        var all := TestLimits(enu.maths, limits, xy);
        if all.0 && all.1 {
          return Found(mid);
        }
        var any := TestLimits(enu.maths, limits, xy);
        if any.0 || any.1 {
          r := RecursiveFindEl(azimuth, elMin, mid, fuel - 1);
        } else {
          r := RecursiveFindEl(azimuth, mid, elMax, fuel - 1);
        }
      } else {
        r := NoneResult;
      }
    }

    /** `find_limits`: rebuilds the list over the azimuths 0 .. 358, each
        searched from the bracket (1, 90). `completed` is false when a search
        ran out of depth, where the source raises RecursionError. */
    method FindLimits() returns (completed: bool)
      requires Axioms(enu.maths)
      modifies this, enu
      ensures limitList == Sweep(enu.maths, limits, Pointing(enu.maths), depth, 359)
      ensures completed <==> |limitList| == 359
    {
      limitList := [];
      var azimuth := 0;
      while azimuth < 359
        invariant 0 <= azimuth <= 359
        invariant limitList == Sweep(enu.maths, limits, Pointing(enu.maths), depth, azimuth)
        invariant |limitList| == azimuth
      {
        var elMin, elMax := 1.0, 90.0;
        var elevation := RecursiveFindEl(azimuth as real, elMin, elMax, depth);
        if elevation.OutOfFuel? {
          SweepStalled(enu.maths, limits, Pointing(enu.maths), depth, azimuth + 1, 359);
          return false;
        }
        limitList := limitList + [(azimuth, Elevation(elevation))];
        azimuth := azimuth + 1;
      }
      return true;
    }
  }
}
