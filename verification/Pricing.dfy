/**
 Pricing parameters and the pricing decision `Decide`. Prices are reals in currency units; decided
 terms are in cents.
 */
module Pricing {
  import opened Domain
  import opened Money
  import opened Listings

  datatype BaselineParams = BaselineParams(topN: int, k1: real, k2: real, k3: real, minLeaseRatio: real)

  datatype ControllerParams = ControllerParams(fMin: real, fMax: real, stepUp: real, stepDown: real, staleDays: int)

  datatype Guardrails = Guardrails(
    minRent: real, maxRent: real, maxChangeRatio: real, noiseRatio: real,
    cooldownMinutes: int, depositFloorRatio: real, depositCapRatio: real)

  datatype Params = Params(baseline: BaselineParams, ctrl: ControllerParams, guard: Guardrails, uuMaxDays: int,
    ecoMaxDays: int)

  /** Params.Validate */
  predicate Valid(p: Params)
  {
    && p.ctrl.fMin <= p.ctrl.fMax
    && p.guard.maxChangeRatio >= 0.0 && p.guard.noiseRatio >= 0.0
    && 0.0 <= p.guard.minRent <= p.guard.maxRent
    && p.guard.depositFloorRatio >= 0.0 && p.guard.depositCapRatio >= 0.0
  }

  datatype Base = Base(short: Num, long: Num, deposit: Num)

  /** The listing's current terms; a rent of 0 means none. */
  datatype Current = Current(rent: real, long: real, deposit: real, days: int, termsKnown: bool,
    lastAction: Option<int>)

  datatype Input = Input(
    channel: Channel, anchor: Option<Num>, base: Option<Base>, factor: Num, cur: Current,
    params: Params, now: int, dayMin: int, dayMax: int, ignoreNoise: bool)

  datatype SkipReason =
    | NoValueAnchor | NoBaseline | NonFiniteInput | GuardrailConflict | DepositCapExceeded | Cooldown | Noise

  datatype Decision = Skip(reason: SkipReason) | Accept(terms: Terms)

  function MinR(a: real, b: real): real { if a <= b then a else b }

  function MaxR(a: real, b: real): real { if a >= b then a else b }

  function ClampR(v: real, lo: real, hi: real): real { MinR(MaxR(v, lo), hi) }

  /** v <= 0 in floating point: false for NaN. */
  predicate NonPositive(n: Num) { n.NegInf? || (n.Fin? && n.r <= 0.0) }

  /** Whether the inputs pass the checks that come before any arithmetic. */
  function InputCheck(i: Input): Option<SkipReason>
  {
    if i.anchor == None || NonPositive(i.anchor.value) then Some(NoValueAnchor)
    else if i.base == None || NonPositive(i.base.value.short) then Some(NoBaseline)
    else if !i.anchor.value.Fin? || !i.base.value.short.Fin? || !i.base.value.long.Fin? ||
      !i.base.value.deposit.Fin? || !i.factor.Fin? then
      Some(NonFiniteInput)
    else None
  }

  // ---- rent ----

  /** Baseline times the clamped factor: what the controller asks for, before any guardrail. */
  function Asked(i: Input): real
    requires InputCheck(i) == None
  {
    i.base.value.short.r * ClampR(i.factor.r, i.params.ctrl.fMin, i.params.ctrl.fMax)
  }

  function Bounded(rent: real, g: Guardrails): real
  {
    var r := if rent < g.minRent then g.minRent else rent;
    if r > g.maxRent then g.maxRent else r
  }

  /** The change cap around the current rent. */
  function CapDown(rent: real, ratio: real): real { rent * (1.0 - ratio) }

  function CapUp(rent: real, ratio: real): real { rent * (1.0 + ratio) }

  function FloorRent(i: Input, v: real): real
  {
    var g, ratio := i.params.guard, i.params.baseline.minLeaseRatio;
    var f := if ratio > 0.0 then MaxR(g.minRent, ratio * v) else g.minRent;
    if i.cur.rent > 0.0 then MaxR(f, CapDown(i.cur.rent, g.maxChangeRatio)) else f
  }

  function CeilingRent(i: Input): real
  {
    var g := i.params.guard;
    if i.cur.rent > 0.0 then MinR(g.maxRent, CapUp(i.cur.rent, g.maxChangeRatio)) else g.maxRent
  }

  /** One billionth of a cent. */
  const TOL := 0.000000001

  function CeilR(x: real): int { -(-x).Floor }

  function FloorCents(i: Input, v: real): int { CeilR(FloorRent(i, v) * 100.0 - TOL) }

  function CeilingCents(i: Input): int { (CeilingRent(i) * 100.0 + TOL).Floor }

  function ClampedRent(i: Input): real
    requires InputCheck(i) == None
  {
    ClampR(Bounded(Asked(i), i.params.guard), ToMoney(FloorCents(i, i.anchor.value.r)), ToMoney(CeilingCents(i)))
  }

  // ---- the other terms ----

  function EcoDays(i: Input): int
  {
    var d := if i.dayMin > 0 && i.params.ecoMaxDays < i.dayMin then i.dayMin else i.params.ecoMaxDays;
    if i.dayMax > 0 && d > i.dayMax then i.dayMax else d
  }

  /** A daily price over a whole term. */
  function ForDays(price: real, days: int): real { price * days as real }

  function EcoDeposit(v: real, rent: real, long: real, days: int): real
  {
    var derived := MaxR(v * 1.4, ForDays(rent, days));
    if long > 0.0 then MaxR(derived, ForDays(long, days)) else derived
  }

  /** Long price, days and unrounded deposit; None is a breach of the ECO deposit cap. */
  function OtherTerms(i: Input, rent: real): Option<(real, int, real)>
    requires InputCheck(i) == None
  {
    var v, g := i.anchor.value.r, i.params.guard;
    var long := MinR(rent * 0.98, i.base.value.long.r);
    match i.channel
    case ECO =>
      var days := EcoDays(i);
      var derived := EcoDeposit(v, rent, long, days);
      if g.depositCapRatio > 0.0 && derived > g.depositCapRatio * v then None else Some((long, days, derived))
    case UU =>
      var deposit := MaxR(i.base.value.deposit.r, g.depositFloorRatio * v);
      Some((if i.params.uuMaxDays < 8 then 0.0 else long, i.params.uuMaxDays, deposit))
  }

  function AbsR(x: real): real { if x >= 0.0 then x else -x }

  predicate IsNoise(i: Input, t: Terms)
  {
    var c := i.cur;
    var changed := c.termsKnown && (ToMoney(t.long) != c.long || ToMoney(t.deposit) != c.deposit || t.days != c.days);
    c.rent > 0.0 && AbsR(ToMoney(t.rent) - c.rent) / MaxR(c.rent, 0.01) < i.params.guard.noiseRatio &&
      !i.ignoreNoise && !changed
  }

  predicate Cooling(i: Input)
  {
    i.cur.lastAction.Some? && i.now - i.cur.lastAction.value < i.params.guard.cooldownMinutes * 60
  }

  function Decide(i: Input): Decision
  {
    var bad := InputCheck(i);
    if bad.Some? then Skip(bad.value)
    else if FloorCents(i, i.anchor.value.r) > CeilingCents(i) then Skip(GuardrailConflict)
    else
      var rent := Cents(ClampedRent(i));
      var rest := OtherTerms(i, ToMoney(rent));
      if rest == None then Skip(DepositCapExceeded)
      else if Cooling(i) then Skip(Cooldown)
      else
        var (long, days, deposit) := rest.value;
        var t := Terms(rent, Cents(MaxR(MinR(long, ToMoney(rent)), 0.0)), days, Cents(deposit));
        if IsNoise(i, t) then Skip(Noise) else Accept(t)
  }

  // ---- what the rent satisfies ----

  /** A whole number of cents that meets every guardrail, each within a billionth of a cent. */
  ghost predicate Meets(i: Input, v: real, n: int)
  {
    var g, x, tol := i.params.guard, n as real, 0.000000001;
    && g.minRent * 100.0 - tol <= x <= g.maxRent * 100.0 + tol
    && (i.params.baseline.minLeaseRatio > 0.0 ==> i.params.baseline.minLeaseRatio * v * 100.0 - tol <= x)
    && (i.cur.rent > 0.0 ==>
          && i.cur.rent * (1.0 - g.maxChangeRatio) * 100.0 - tol <= x
          && x <= i.cur.rent * (1.0 + g.maxChangeRatio) * 100.0 + tol)
  }

  /** The short baseline at the factor, held within the controller's bounds. */
  function Wish(i: Input): real
    requires InputCheck(i) == None
  {
    var f, c := i.factor.r, i.params.ctrl;
    i.base.value.short.r * (if f < c.fMin then c.fMin else if c.fMax < f then c.fMax else f)
  }

  lemma AskedIsWish(i: Input)
    requires InputCheck(i) == None && i.params.ctrl.fMin <= i.params.ctrl.fMax
    ensures Asked(i) == Wish(i)
  {
  }

  lemma CeilLe(x: real, n: int)
    ensures CeilR(x) <= n <==> x <= n as real
  {
  }

  lemma FloorGe(x: real, n: int)
    ensures n <= x.Floor <==> n as real <= x
  {
  }

  /** The quantized interval holds exactly the cents that meet the guardrails. */
  lemma IntervalIsMeets(i: Input, v: real, n: int)
    ensures FloorCents(i, v) <= n <= CeilingCents(i) <==> Meets(i, v, n)
  {
    CeilLe(FloorRent(i, v) * 100.0 - TOL, n);
    FloorGe(CeilingRent(i) * 100.0 + TOL, n);
  }

  /** guardrail_conflict is returned exactly when the inputs are usable and no cent price meets every guardrail. */
  lemma ConflictIff(i: Input)
    ensures Decide(i) == Skip(GuardrailConflict) <==>
            InputCheck(i) == None && !exists n :: Meets(i, i.anchor.value.r, n)
  {
    if InputCheck(i) == None {
      var v := i.anchor.value.r;
      if FloorCents(i, v) <= CeilingCents(i) {
        IntervalIsMeets(i, v, FloorCents(i, v));
      }
      forall n | Meets(i, v, n) ensures FloorCents(i, v) <= CeilingCents(i) { IntervalIsMeets(i, v, n); }
    }
  }

  function ClampInt(n: int, lo: int, hi: int): int { Domain.Min(Domain.Max(n, lo), hi) }

  lemma RoundOfClamp(x: real, lo: int, hi: int)
    requires lo <= hi
    ensures HalfAway(ClampR(x, ToMoney(lo), ToMoney(hi)) * 100.0) == ClampInt(HalfAway(x * 100.0), lo, hi)
  {
    var y := ClampR(x * 100.0, lo as real, hi as real);
    assert ClampR(x, ToMoney(lo), ToMoney(hi)) * 100.0 == y;
    HalfAwayInt(lo);
    HalfAwayInt(hi);
    if x * 100.0 <= lo as real { HalfAwayMonotone(x * 100.0, lo as real); }
    if hi as real <= x * 100.0 { HalfAwayMonotone(hi as real, x * 100.0); }
    if lo as real <= x * 100.0 <= hi as real {
      HalfAwayMonotone(lo as real, x * 100.0);
      HalfAwayMonotone(x * 100.0, hi as real);
    }
  }

  /** The absolute bounds applied first are absorbed by the quantized interval. */
  lemma BoundsAbsorbed(a: real, g: Guardrails, lo: int, hi: int)
    requires lo <= hi && g.minRent * 100.0 - TOL <= lo as real && hi as real <= g.maxRent * 100.0 + TOL
    ensures ClampInt(HalfAway(Bounded(a, g) * 100.0), lo, hi) == ClampInt(HalfAway(a * 100.0), lo, hi)
  {
    HalfAwayInt(lo);
    HalfAwayInt(hi);
    if a < g.minRent {
      HalfAwayMonotone(a * 100.0, g.minRent * 100.0);
      NearInt(g.minRent * 100.0, lo);
    }
    if a > g.maxRent {
      HalfAwayMonotone(g.maxRent * 100.0, a * 100.0);
      NearIntBelow(g.maxRent * 100.0, hi);
    }
    if a < g.minRent && g.minRent > g.maxRent {
      NearIntBelow(g.maxRent * 100.0, hi);
    }
  }

  lemma NearInt(x: real, n: int)
    requires x - TOL <= n as real
    ensures HalfAway(x) <= n
  {
    HalfAwayBounds(x);
  }

  lemma NearIntBelow(x: real, n: int)
    requires n as real <= x + TOL
    ensures n <= HalfAway(x)
  {
    HalfAwayBounds(x);
  }

  /** The decided rent in cents, when it is in Round2's range. */
  lemma RentIsClamp(i: Input)
    requires InputCheck(i) == None && FloorCents(i, i.anchor.value.r) <= CeilingCents(i) && InRange(ClampedRent(i))
    ensures Cents(ClampedRent(i)) ==
            ClampInt(HalfAway(Asked(i) * 100.0), FloorCents(i, i.anchor.value.r), CeilingCents(i))
  {
    var v := i.anchor.value.r;
    var lo, hi := FloorCents(i, v), CeilingCents(i);
    RoundOfClamp(Bounded(Asked(i), i.params.guard), lo, hi);
    assert Meets(i, v, lo) && Meets(i, v, hi) by {
      IntervalIsMeets(i, v, lo);
      IntervalIsMeets(i, v, hi);
    }
    BoundsAbsorbed(Asked(i), i.params.guard, lo, hi);
  }

  /** No cent price that meets the guardrails is nearer to the baseline at the bounded factor. */
  ghost predicate BestRent(i: Input, rent: int)
    requires InputCheck(i) == None
  {
    && Meets(i, i.anchor.value.r, rent)
    && forall n | Meets(i, i.anchor.value.r, n) :: Dist(rent, Wish(i) * 100.0) <= Dist(n, Wish(i) * 100.0)
  }

  lemma ClampIsNearest(x: real, lo: int, hi: int, n: int)
    requires lo <= n <= hi
    ensures Dist(ClampInt(HalfAway(x), lo, hi), x) <= Dist(n, x)
  {
    HalfAwayBounds(x);
    HalfAwayNearest(x, n);
  }

  lemma InRangeRentIsBest(i: Input)
    requires i.params.ctrl.fMin <= i.params.ctrl.fMax
    requires InputCheck(i) == None && FloorCents(i, i.anchor.value.r) <= CeilingCents(i) && InRange(ClampedRent(i))
    ensures BestRent(i, Cents(ClampedRent(i)))
  {
    RentIsClamp(i);
    ClampIsBest(i, FloorCents(i, i.anchor.value.r), CeilingCents(i));
  }

  lemma ClampIsBest(i: Input, lo: int, hi: int)
    requires InputCheck(i) == None && lo <= hi && lo == FloorCents(i, i.anchor.value.r) && hi == CeilingCents(i)
    requires i.params.ctrl.fMin <= i.params.ctrl.fMax
    ensures BestRent(i, ClampInt(HalfAway(Asked(i) * 100.0), lo, hi))
  {
    var v, x := i.anchor.value.r, Asked(i) * 100.0;
    var rent := ClampInt(HalfAway(x), lo, hi);
    AskedIsWish(i);
    IntervalIsMeets(i, v, rent);
    forall n | Meets(i, v, n) ensures Dist(rent, x) <= Dist(n, x) {
      IntervalIsMeets(i, v, n);
      ClampIsNearest(x, lo, hi, n);
    }
  }

  lemma CollapsedRentIsNotBest(i: Input)
    requires Valid(i.params) && InputCheck(i) == None && FloorCents(i, i.anchor.value.r) <= CeilingCents(i) &&
             !InRange(ClampedRent(i))
    ensures !BestRent(i, Cents(ClampedRent(i)))
  {
    var v := i.anchor.value.r;
    var lo, hi, x := FloorCents(i, v), CeilingCents(i), Asked(i) * 100.0;
    AskedIsWish(i);
    CeilLe(FloorRent(i, v) * 100.0 - TOL, -1);
    RoundOfClamp(Bounded(Asked(i), i.params.guard), lo, hi);
    IntervalIsMeets(i, v, lo);
    IntervalIsMeets(i, v, hi);
    IntervalIsMeets(i, v, 0);
    BoundsAbsorbed(Asked(i), i.params.guard, lo, hi);
    var best := ClampInt(HalfAway(x), lo, hi);
    HalfAwayMonotone(LIMIT * 100.0, ClampedRent(i) * 100.0);
    HalfAwayInt(100000000000000000);
    assert best >= 100000000000000000;
    IntervalIsMeets(i, v, best);
    HalfAwayBounds(x);
    if lo <= 0 { assert x >= 1.0; }
  }

  /**
   Soundness, completeness and optimality of the rent, with the exact boundary of Round2's range
   guard: an accepted rent is the best cent price that meets the guardrails if and only if the
   clamped price stays below 1e15; beyond that it collapses to 0.
   */
  lemma AcceptedRentIsBest(i: Input)
    requires Valid(i.params) && Decide(i).Accept?
    ensures InputCheck(i) == None
    ensures BestRent(i, Decide(i).terms.rent) <==> InRange(ClampedRent(i))
    ensures !InRange(ClampedRent(i)) ==> Decide(i).terms.rent == 0
  {
    if InRange(ClampedRent(i)) { InRangeRentIsBest(i); } else { CollapsedRentIsNotBest(i); }
  }

  // ---- the ECO deposit ----

  /** derivedDeposit of the ECO adapter, on the published terms. */
  function DerivedDeposit(t: Terms): int
  {
    var dep := ToMoney(t.deposit);
    var v := ForDays(ToMoney(t.rent), t.days);
    var dep1 := if v > dep then v else dep;
    var w := ForDays(ToMoney(t.long), t.days);
    var dep2 := if t.long > 0 && w > dep1 then w else dep1;
    Cents(dep2)
  }

  lemma ScaledMoney(c: int, days: int)
    ensures ForDays(ToMoney(c), days) * 100.0 == (c * days) as real
  {
    ToMoneyCents(c);
  }

  lemma LongIsAtMostRent(long: real, rent: int)
    requires rent >= 0 && InRange(MaxR(MinR(long, ToMoney(rent)), 0.0))
    ensures 0 <= Cents(MaxR(MinR(long, ToMoney(rent)), 0.0)) <= rent
  {
    var x := MaxR(MinR(long, ToMoney(rent)), 0.0);
    ToMoneyCents(rent);
    HalfAwayInt(rent);
    HalfAwayInt(0);
    HalfAwayMonotone(x * 100.0, rent as real);
    HalfAwayMonotone(0.0, x * 100.0);
  }

  lemma DepositCoversRent(rent: int, days: int, derived: real)
    requires InRange(derived) && ForDays(ToMoney(rent), days) <= derived
    ensures rent * days <= Cents(derived)
  {
    ScaledMoney(rent, days);
    HalfAwayInt(rent * days);
    HalfAwayMonotone((rent * days) as real, derived * 100.0);
  }

  lemma LongCoversLess(rent: int, long: int, days: int, deposit: int)
    requires 0 <= long <= rent && 0 <= deposit && rent * days <= deposit
    ensures long * days <= deposit
  {
    if days >= 0 { assert long * days <= rent * days; } else { assert long * days <= 0; }
  }

  /** A deposit that covers rent and long price for the whole term is what the adapter sends. */
  lemma DepositSurvivesAdapter(t: Terms)
    requires 0 <= t.long <= t.rent && 0 <= t.deposit < 100000000000000000 && t.rent * t.days <= t.deposit
    ensures DerivedDeposit(t) == t.deposit
  {
    var v, w := ForDays(ToMoney(t.rent), t.days), ForDays(ToMoney(t.long), t.days);
    ScaledMoney(t.rent, t.days);
    ScaledMoney(t.long, t.days);
    LongCoversLess(t.rent, t.long, t.days, t.deposit);
    ToMoneyCents(t.deposit);
    assert v * 100.0 <= ToMoney(t.deposit) * 100.0 && w * 100.0 <= ToMoney(t.deposit) * 100.0;
    CentsOfMoney(t.deposit);
  }

  /** The adapter sends the greatest of the deposit, the rent and the long price for the whole term. */
  lemma AdapterSendsTheGreatest(t: Terms)
    requires 0 <= t.deposit < 100000000000000000 && t.rent * t.days < 100000000000000000
    requires t.long > 0 ==> t.long * t.days < 100000000000000000
    ensures var d := Domain.Max(t.deposit, t.rent * t.days);
            DerivedDeposit(t) == if t.long > 0 then Domain.Max(d, t.long * t.days) else d
  {
    ScaledMoney(t.rent, t.days);
    ScaledMoney(t.long, t.days);
    ToMoneyCents(t.deposit);
    var d := Domain.Max(t.deposit, t.rent * t.days);
    var sent := if t.long > 0 then Domain.Max(d, t.long * t.days) else d;
    CentsOfMoney(sent);
    ToMoneyCents(sent);
  }

  /** The deposit that an ECO decision derives from its rent, before rounding. */
  function EcoDerived(i: Input): real
    requires InputCheck(i) == None
  {
    var rent := ToMoney(Cents(ClampedRent(i)));
    EcoDeposit(i.anchor.value.r, rent, MinR(rent * 0.98, i.base.value.long.r), EcoDays(i))
  }

  const CENT_LIMIT := 100000000000000000

  /** The deposit cap; a ratio of 0 turns it off. */
  function DepositCap(i: Input): Option<real>
    requires InputCheck(i) == None
  {
    var ratio := i.params.guard.depositCapRatio;
    if ratio > 0.0 then Some(ratio * i.anchor.value.r) else None
  }

  /** Round2 collapses neither the derived deposit nor, when it counts, the cap. */
  predicate DepositFits(derived: real, cap: Option<real>)
  {
    var cents := HalfAway(derived * 100.0);
    cents < CENT_LIMIT && (cap.Some? && cents > 0 ==> InRange(cap.value))
  }

  /** What the cap check and the adapter are meant to guarantee together. */
  predicate DepositHolds(t: Terms, derived: real, cap: Option<real>)
  {
    && Dist(t.deposit, derived * 100.0) <= 0.5
    && t.rent * t.days <= t.deposit
    && (cap.Some? ==> t.deposit <= Cents(cap.value))
    && DerivedDeposit(t) == t.deposit
  }

  lemma EcoDepositCovers(v: real, rent: real, long: real, days: int)
    requires v > 0.0
    ensures 0.0 < EcoDeposit(v, rent, long, days) && ForDays(rent, days) <= EcoDeposit(v, rent, long, days)
  {
  }

  /** The long price never exceeds the rent, out of range or not. */
  lemma LongWithinRent(estimate: real, rent: int)
    requires 0 <= rent <= CENT_LIMIT
    ensures 0 <= Cents(MaxR(MinR(estimate, ToMoney(rent)), 0.0)) <= rent
  {
    if InRange(MaxR(MinR(estimate, ToMoney(rent)), 0.0)) { LongIsAtMostRent(estimate, rent); }
  }

  /** The ECO terms for a given rent, long estimate, unrounded deposit and cap. */
  lemma EcoTerms(t: Terms, derived: real, cap: real)
    requires 0 <= t.long <= t.rent && 0.0 < derived && HalfAway(derived * 100.0) < CENT_LIMIT
    requires ForDays(ToMoney(t.rent), t.days) <= derived && t.deposit == Cents(derived)
    ensures Dist(t.deposit, derived * 100.0) <= 0.5 && t.rent * t.days <= t.deposit && DerivedDeposit(t) == t.deposit
    ensures derived <= cap && (t.deposit > 0 ==> InRange(cap)) ==> t.deposit <= Cents(cap)
  {
    HalfAwayBounds(derived * 100.0);
    assert InRange(derived);
    DepositCoversRent(t.rent, t.days, derived);
    CentsMonotone(0.0, derived);
    if derived <= cap && InRange(cap) { CentsMonotone(derived, cap); }
    DepositSurvivesAdapter(t);
  }

  /** Beyond that the deposit is lost: it collapses, the adapter's recomputation does, or the cap does. */
  lemma LostDeposit(t: Terms, derived: real, cap: real)
    requires 0.0 < derived && t.deposit == Cents(derived)
    requires HalfAway(derived * 100.0) >= CENT_LIMIT ||
             (HalfAway(derived * 100.0) > 0 && derived <= cap && !InRange(cap))
    ensures Dist(t.deposit, derived * 100.0) > 0.5 || DerivedDeposit(t) != t.deposit || t.deposit > Cents(cap)
  {
    HalfAwayBounds(derived * 100.0);
    if InRange(derived) && HalfAway(derived * 100.0) >= CENT_LIMIT { ToMoneyCents(t.deposit); }
  }

  lemma AcceptedShape(i: Input)
    requires Decide(i).Accept?
    ensures InputCheck(i) == None && i.anchor.value.r > 0.0 && FloorCents(i, i.anchor.value.r) <= CeilingCents(i)
    ensures Decide(i).terms.rent == Cents(ClampedRent(i)) && OtherTerms(i, ToMoney(Decide(i).terms.rent)).Some?
    ensures var (long, days, deposit) := OtherTerms(i, ToMoney(Decide(i).terms.rent)).value;
            Decide(i).terms == Terms(Decide(i).terms.rent, Cents(MaxR(MinR(long, ToMoney(Decide(i).terms.rent)), 0.0)),
              days, Cents(deposit))
  {
  }

  lemma EcoShape(i: Input, rent: real)
    requires InputCheck(i) == None && i.channel == ECO && OtherTerms(i, rent).Some?
    ensures var estimate := MinR(rent * 0.98, i.base.value.long.r);
            var derived := EcoDeposit(i.anchor.value.r, rent, estimate, EcoDays(i));
            && OtherTerms(i, rent).value == (estimate, EcoDays(i), derived)
            && (i.params.guard.depositCapRatio > 0.0 ==> derived <= i.params.guard.depositCapRatio * i.anchor.value.r)
  {
  }

  lemma EcoRent(i: Input)
    requires Valid(i.params) && InputCheck(i) == None && FloorCents(i, i.anchor.value.r) <= CeilingCents(i)
    ensures 0 <= Cents(ClampedRent(i)) <= CENT_LIMIT
  {
    if InRange(ClampedRent(i)) { RentWithinInterval(i); }
  }

  /** The terms of an ECO decision for a given rent. */
  lemma EcoTermFacts(i: Input, t: Terms)
    requires InputCheck(i) == None && i.channel == ECO && i.anchor.value.r > 0.0
    requires t.rent == Cents(ClampedRent(i)) && 0 <= t.rent <= CENT_LIMIT && OtherTerms(i, ToMoney(t.rent)).Some?
    requires var (long, days, deposit) := OtherTerms(i, ToMoney(t.rent)).value;
             t == Terms(t.rent, Cents(MaxR(MinR(long, ToMoney(t.rent)), 0.0)), days, Cents(deposit))
    ensures var derived, cap := EcoDerived(i), DepositCap(i);
            && 0 <= t.long <= t.rent && 0.0 < derived && t.deposit == Cents(derived)
            && ForDays(ToMoney(t.rent), t.days) <= derived && (cap.Some? ==> derived <= cap.value)
  {
    EcoShape(i, ToMoney(t.rent));
    var (estimate, days, derived) := OtherTerms(i, ToMoney(t.rent)).value;
    EcoDepositCovers(i.anchor.value.r, ToMoney(t.rent), estimate, days);
    LongWithinRent(estimate, t.rent);
  }

  lemma EcoFacts(i: Input)
    requires Valid(i.params) && i.channel == ECO && Decide(i).Accept?
    ensures InputCheck(i) == None
    ensures var t, derived, cap := Decide(i).terms, EcoDerived(i), DepositCap(i);
            && 0 <= t.long <= t.rent && 0.0 < derived && t.deposit == Cents(derived)
            && ForDays(ToMoney(t.rent), t.days) <= derived && (cap.Some? ==> derived <= cap.value)
  {
    AcceptedShape(i);
    EcoRent(i);
    EcoTermFacts(i, Decide(i).terms);
  }

  /** For given terms, unrounded deposit and cap. */
  lemma DepositHoldsIff(t: Terms, derived: real, cap: Option<real>)
    requires 0 <= t.long <= t.rent && 0.0 < derived && t.deposit == Cents(derived)
    requires ForDays(ToMoney(t.rent), t.days) <= derived && (cap.Some? ==> derived <= cap.value)
    ensures DepositHolds(t, derived, cap) <==> DepositFits(derived, cap)
  {
    var c := if cap.Some? then cap.value else derived;
    if HalfAway(derived * 100.0) < CENT_LIMIT { HalfAwayBounds(derived * 100.0); }
    if DepositFits(derived, cap) { EcoTerms(t, derived, c); } else { LostDeposit(t, derived, c); }
  }

  /**
   The ECO deposit approved by the cap check is the one sent, exactly when the amounts fit: it is the
   derived deposit to the nearest cent, covers the whole rent, stays within the rounded cap, and the
   adapter's recomputation on publish returns it unchanged.
   */
  lemma EcoDepositIsTheOneSent(i: Input)
    requires Valid(i.params) && i.channel == ECO && Decide(i).Accept?
    ensures InputCheck(i) == None && 0 <= Decide(i).terms.long <= Decide(i).terms.rent
    ensures DepositHolds(Decide(i).terms, EcoDerived(i), DepositCap(i)) <==> DepositFits(EcoDerived(i), DepositCap(i))
  {
    EcoFacts(i);
    DepositHoldsIff(Decide(i).terms, EcoDerived(i), DepositCap(i));
  }

  lemma RentWithinInterval(i: Input)
    requires Valid(i.params) && InputCheck(i) == None && FloorCents(i, i.anchor.value.r) <= CeilingCents(i) &&
             InRange(ClampedRent(i))
    ensures 0 <= FloorCents(i, i.anchor.value.r) <= Cents(ClampedRent(i)) <= CeilingCents(i)
    ensures Cents(ClampedRent(i)) <= 100000000000000000
  {
    RentIsClamp(i);
    CeilLe(FloorRent(i, i.anchor.value.r) * 100.0 - TOL, -1);
    HalfAwayBounds(ClampedRent(i) * 100.0);
  }
}
