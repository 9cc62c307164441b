/**
 The feedback controller. A factor is persisted with four decimals, so it is modelled as an
 integer number of ten-thousandths; an incoming stored factor may still be non-finite.
 */
module Controller {
  import opened Money
  import opened Pricing

  datatype FactorEvent = RentSuccess | BoughtOut | StaleDay | Reset

  const UNIT := 10000.0

  function FactorOf(q: int): real { q as real / UNIT }

  /** Round4 in ten-thousandths. */
  function Units(v: real): int { HalfAway(v * UNIT) }

  /** The controller move before rounding. */
  function Moved(cur: Num, ev: FactorEvent, p: ControllerParams): real
  {
    if !cur.Fin? then 1.0
    else
      match ev
      case RentSuccess => cur.r + p.stepUp
      case BoughtOut => cur.r + 2.0 * p.stepUp
      case StaleDay => cur.r - p.stepDown
      case Reset => 1.0
  }

  function Bound(x: real, p: ControllerParams): real
  {
    var y := if x < p.fMin then p.fMin else x;
    if y > p.fMax then p.fMax else y
  }

  function NextFactor(cur: Num, ev: FactorEvent, p: ControllerParams): int
  {
    Units(Bound(Moved(cur, ev, p), p))
  }

  /** The stored floor test of the stale scan: within one unit of f_min. */
  predicate AtFloor(q: int, p: ControllerParams)
  {
    AbsR(FactorOf(q) - p.fMin) < 0.0001
  }

  lemma UnitsMonotone(a: real, b: real)
    requires a <= b
    ensures Units(a) <= Units(b)
  {
    HalfAwayMonotone(a * UNIT, b * UNIT);
  }

  /**
   From any stored factor, even a corrupted one, every event leaves the factor within
   [FMin, FMax] up to rounding, and exactly within when the bounds have four decimals.
   */
  lemma FactorStaysBounded(cur: Num, ev: FactorEvent, p: ControllerParams)
    requires p.fMin <= p.fMax
    ensures Units(p.fMin) <= NextFactor(cur, ev, p) <= Units(p.fMax)
    ensures p.fMin - 0.00005 <= FactorOf(NextFactor(cur, ev, p)) <= p.fMax + 0.00005
  {
    var y := Bound(Moved(cur, ev, p), p);
    UnitsMonotone(p.fMin, y);
    UnitsMonotone(y, p.fMax);
    HalfAwayBounds(y * UNIT);
  }

  /** Where an event sends a factor, before the bounds; a corrupted factor is reset by any event. */
  function Aim(cur: Num, ev: FactorEvent, p: ControllerParams): real
  {
    if ev == Reset || cur == NaN || cur == PosInf || cur == NegInf then 1.0
    else cur.r + if ev == StaleDay then -p.stepDown else if ev == RentSuccess then p.stepUp else p.stepUp + p.stepUp
  }

  /** The next factor is the one with four decimals that is nearest to the aim, held within the bounds. */
  lemma NextFactorNearest(cur: Num, ev: FactorEvent, p: ControllerParams, n: int)
    requires p.fMin <= p.fMax
    ensures var x := Aim(cur, ev, p);
            var y := if x < p.fMin then p.fMin else if p.fMax < x then p.fMax else x;
            Dist(NextFactor(cur, ev, p), y * 10000.0) <= Dist(n, y * 10000.0)
  {
    HalfAwayNearest(Bound(Moved(cur, ev, p), p) * UNIT, n);
  }

  // ---- four-decimal parameters ----

  /** Parameters given with four decimals, in ten-thousandths. */
  predicate OnGrid(p: ControllerParams, lo: int, hi: int, up: int, down: int)
  {
    lo <= hi && p.fMin == FactorOf(lo) && p.fMax == FactorOf(hi) && p.stepUp == FactorOf(up) &&
      p.stepDown == FactorOf(down)
  }

  /** The move of an event in ten-thousandths. */
  function Shifted(q: int, ev: FactorEvent, up: int, down: int): int
  {
    match ev
    case RentSuccess => q + up
    case BoughtOut => q + 2 * up
    case StaleDay => q - down
    case Reset => 10000
  }

  lemma GridUnits(x: real, q: int)
    requires x == FactorOf(q)
    ensures Units(x) == q
  {
    assert x * UNIT == q as real;
    HalfAwayInt(q);
  }

  /**
   With four-decimal parameters the controller is saturating integer arithmetic: rounding never loses
   or adds a unit.
   */
  lemma ControllerSaturates(q: int, ev: FactorEvent, p: ControllerParams, lo: int, hi: int, up: int, down: int)
    requires OnGrid(p, lo, hi, up, down)
    ensures NextFactor(Fin(FactorOf(q)), ev, p) == ClampInt(Shifted(q, ev, up, down), lo, hi)
  {
    var n := Shifted(q, ev, up, down);
    assert Moved(Fin(FactorOf(q)), ev, p) == FactorOf(n);
    GridUnits(Bound(FactorOf(n), p), ClampInt(n, lo, hi));
  }

  /** A buy-out is worth exactly two successful rentals, even against the upper bound. */
  lemma BoughtOutIsTwoSuccesses(q: int, p: ControllerParams, lo: int, hi: int, up: int, down: int)
    requires OnGrid(p, lo, hi, up, down) && up >= 0 && lo <= q <= hi
    ensures var once := NextFactor(Fin(FactorOf(q)), RentSuccess, p);
            && q <= once
            && NextFactor(Fin(FactorOf(once)), RentSuccess, p) == NextFactor(Fin(FactorOf(q)), BoughtOut, p)
  {
    ControllerSaturates(q, RentSuccess, p, lo, hi, up, down);
    ControllerSaturates(q, BoughtOut, p, lo, hi, up, down);
    ControllerSaturates(ClampInt(q + up, lo, hi), RentSuccess, p, lo, hi, up, down);
  }

  lemma CloseUnits(a: real, b: real)
    requires -0.00005 <= a - b <= 0.00005
    ensures -1 <= Units(a) - Units(b) <= 1
  {
    HalfAwayBounds(a * UNIT);
    HalfAwayBounds(b * UNIT);
    UnitsMonotone(b, b + 0.0001);
    UnitsMonotone(b - 0.0001, b);
  }

  /** With finer parameters rounding twice may cost a unit against rounding once, but never more. */
  lemma BoughtOutWithinAUnit(cur: real, p: ControllerParams)
    requires p.fMin <= p.fMax && p.stepUp >= 0.0 && p.fMin <= cur
    ensures var once := NextFactor(Fin(cur), RentSuccess, p);
            -1 <= NextFactor(Fin(FactorOf(once)), RentSuccess, p) - NextFactor(Fin(cur), BoughtOut, p) <= 1
  {
    var first := Bound(cur + p.stepUp, p);
    var once := Units(first);
    RoundingCost(first);
    BoundKeepsClose(FactorOf(once) + p.stepUp, first + p.stepUp, p);
    BoundTwice(cur, p);
    CloseUnits(Bound(FactorOf(once) + p.stepUp, p), Bound(cur + 2.0 * p.stepUp, p));
    assert once == NextFactor(Fin(cur), RentSuccess, p);
  }

  lemma RoundingCost(x: real)
    ensures -0.00005 <= FactorOf(Units(x)) - x <= 0.00005
  {
    HalfAwayBounds(x * UNIT);
  }

  lemma BoundKeepsClose(a: real, b: real, p: ControllerParams)
    requires p.fMin <= p.fMax && -0.00005 <= a - b <= 0.00005
    ensures -0.00005 <= Bound(a, p) - Bound(b, p) <= 0.00005
  {
  }

  lemma BoundTwice(cur: real, p: ControllerParams)
    requires p.fMin <= p.fMax && p.stepUp >= 0.0 && p.fMin <= cur
    ensures Bound(Bound(cur + p.stepUp, p) + p.stepUp, p) == Bound(cur + 2.0 * p.stepUp, p)
  {
  }

  /** And it can: steps of 0.00004 are lost one by one, but not two at a time. */
  lemma FineStepsAreLost()
    ensures var p := ControllerParams(0.5, 1.5, 0.00004, 0.05, 7);
            && NextFactor(Fin(1.0), RentSuccess, p) == 10000
            && NextFactor(Fin(1.0), BoughtOut, p) == 10001
  {
  }

  // ---- the stale scan ----

  /** One stale scan of an idle listing. */
  function Scan(q: int, p: ControllerParams): int
  {
    NextFactor(Fin(FactorOf(q)), if AtFloor(q, p) then Reset else StaleDay, p)
  }

  function Scans(q: int, p: ControllerParams, n: nat): int
    decreases n
  {
    if n == 0 then q else Scans(Scan(q, p), p, n - 1)
  }

  function FloorUnits(p: ControllerParams): int { Units(p.fMin) }

  /** Rounding never hides the floor: the quantized f_min is always recognised. */
  lemma FloorIsRecognised(p: ControllerParams)
    ensures AtFloor(FloorUnits(p), p)
  {
    HalfAwayBounds(p.fMin * UNIT);
  }

  lemma StaleStep(q: int, p: ControllerParams)
    requires p.fMin <= p.fMax && p.stepDown >= 0.0001 && !AtFloor(q, p)
    ensures FloorUnits(p) <= Scan(q, p)
    ensures FactorOf(q) > p.fMin ==> Scan(q, p) < q
    ensures FactorOf(q) <= p.fMin ==> Scan(q, p) == FloorUnits(p)
  {
    FactorStaysBounded(Fin(FactorOf(q)), StaleDay, p);
    var x := FactorOf(q) - p.stepDown;
    assert FactorOf(q) * UNIT == q as real;
    if FactorOf(q) > p.fMin {
      assert FactorOf(q) >= p.fMin + 0.0001;
      var y := Bound(x, p);
      assert y * UNIT <= (q - 1) as real;
      HalfAwayMonotone(y * UNIT, (q - 1) as real);
      HalfAwayInt(q - 1);
    }
  }

  function Above(q: int, p: ControllerParams): nat { if q > FloorUnits(p) then q - FloorUnits(p) else 0 }

  /**
   A listing that sees only stale scans strictly descends by whole units, is recognised as at the
   floor after at most (units above the floor + 1) scans, and the scan after that resets it.
   */
  lemma {:induction false} StaleReachesFloorAndResets(q: int, p: ControllerParams) returns (n: nat)
    requires p.fMin <= p.fMax && p.stepDown >= 0.0001
    ensures n <= Above(q, p) + 1 && AtFloor(Scans(q, p, n), p)
    ensures forall i | 0 <= i < n :: !AtFloor(Scans(q, p, i), p)
    ensures forall i | 0 <= i < n && FactorOf(Scans(q, p, i)) > p.fMin :: Scans(q, p, i + 1) < Scans(q, p, i)
    ensures Scans(q, p, n + 1) == Units(Bound(1.0, p))
    decreases Above(q, p), if AtFloor(q, p) then 0 else 1
  {
    FloorIsRecognised(p);
    if AtFloor(q, p) {
      n := 0;
      assert Scans(q, p, 1) == Scan(q, p);
    } else {
      StaleStep(q, p);
      if FactorOf(q) <= p.fMin {
        assert FactorOf(q) * UNIT == q as real;
        HalfAwayMonotone(q as real, p.fMin * UNIT);
        HalfAwayInt(q);
      }
      var m := StaleReachesFloorAndResets(Scan(q, p), p);
      n := m + 1;
      ScansShift(q, p, n);
      ScansShift(q, p, n + 1);
      forall i | 1 <= i <= n ensures Scans(q, p, i) == Scans(Scan(q, p), p, i - 1) { ScansShift(q, p, i); }
      assert Scans(q, p, 1) == Scan(q, p);
    }
  }

  lemma ScansShift(q: int, p: ControllerParams, n: nat)
    requires n > 0
    ensures Scans(q, p, n) == Scans(Scan(q, p), p, n - 1)
  {
  }

  /**
   How small a step may be: away from the bounds, a stale scan moves a positive factor if and
   only if the step exceeds half a unit; a smaller step is rounded away and the factor never descends.
   */
  lemma SmallStepsAreRoundedAway(q: int, p: ControllerParams)
    requires q >= 1 && p.stepDown >= 0.0 && !AtFloor(q, p)
    requires p.fMin <= FactorOf(q) - p.stepDown && FactorOf(q) - p.stepDown <= p.fMax
    ensures Scan(q, p) < q <==> p.stepDown > 0.00005
    ensures p.stepDown <= 0.00005 ==> Scan(q, p) == q
  {
    var x := (FactorOf(q) - p.stepDown) * UNIT;
    assert x == q as real - p.stepDown * UNIT;
    if p.stepDown > 0.00005 {
      HalfAwayBounds(x);
    } else {
      HalfAwayInt(q);
      HalfAwayMonotone(x, q as real);
      HalfAwayBounds(x);
    }
  }

  /**
   When the reset helps: a listing at the floor leaves it if and only if neutral, capped by FMax and
   rounded, lies at least one unit above FMin; otherwise it sits at the floor for good.
   */
  lemma ResetLeavesFloorIff(q: int, p: ControllerParams)
    requires p.fMin <= p.fMax && AtFloor(q, p)
    ensures !AtFloor(Scan(q, p), p) <==> FactorOf(Units(MinR(1.0, p.fMax))) >= p.fMin + 0.0001
  {
    HalfAwayBounds(Bound(1.0, p) * UNIT);
    HalfAwayBounds(MinR(1.0, p.fMax) * UNIT);
    if p.fMin > 1.0 { HalfAwayMonotone(UNIT, p.fMin * UNIT); HalfAwayInt(10000); }
  }

  lemma {:induction false} StuckAtFloor(q: int, p: ControllerParams, n: nat)
    requires p.fMin <= p.fMax && AtFloor(q, p) && FactorOf(Units(MinR(1.0, p.fMax))) < p.fMin + 0.0001
    ensures AtFloor(Scans(q, p, n), p)
    decreases n
  {
    if n > 0 {
      ResetLeavesFloorIff(q, p);
      StuckAtFloor(Scan(q, p), p, n - 1);
    }
  }

  // ---- event sequences ----

  function Fold(cur: Num, evs: seq<(FactorEvent, ControllerParams)>): Num
  {
    if evs == [] then cur
    else
      var (ev, p) := evs[|evs| - 1];
      Fin(FactorOf(NextFactor(Fold(cur, evs[..|evs| - 1]), ev, p)))
  }

  /**
   Over every event sequence, whatever the parameters were before, the factor is within the bounds in
   force at the last event.
   */
  lemma {:induction false} FoldBounded(cur: Num, evs: seq<(FactorEvent, ControllerParams)>)
    requires evs != [] && evs[|evs| - 1].1.fMin <= evs[|evs| - 1].1.fMax
    ensures var p := evs[|evs| - 1].1;
            Fold(cur, evs).Fin? && p.fMin - 0.00005 <= Fold(cur, evs).r <= p.fMax + 0.00005
  {
    var n := |evs| - 1;
    FactorStaysBounded(Fold(cur, evs[..n]), evs[n].0, evs[n].1);
  }
}
