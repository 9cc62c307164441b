/**
 Repeated repricing of one listing: for a fixed market, anchor, factor and parameters, every
 accepted decision is fed back as the listing's current terms.
 */
module Reprice {
  import opened Domain
  import opened Money
  import opened Listings
  import opened Pricing

  /** A listing as the repricing loop sees it between rounds. */
  datatype Repriced = Repriced(terms: Terms, lastAction: Option<int>)

  /** The pricing input of a round: the fixed market with the listing's stored terms and the round's time. */
  function AtRound(m: Input, s: Repriced, now: int): Input
  {
    m.(cur := Current(ToMoney(s.terms.rent), ToMoney(s.terms.long), ToMoney(s.terms.deposit), s.terms.days, true,
      s.lastAction),
       now := now, ignoreNoise := false)
  }

  function Round(m: Input, s: Repriced, now: int): Repriced
  {
    var d := Decide(AtRound(m, s, now));
    if d.Accept? then Repriced(d.terms, Some(now)) else s
  }

  function Rounds(m: Input, s: Repriced, times: seq<int>): Repriced
    decreases |times|
  {
    if times == [] then s else Rounds(m, Round(m, s, times[0]), times[1..])
  }

  function Accepts(m: Input, s: Repriced, times: seq<int>): nat
    decreases |times|
  {
    if times == [] then 0
    else (if Decide(AtRound(m, s, times[0])).Accept? then 1 else 0) + Accepts(m, Round(m, s, times[0]), times[1..])
  }

  /** A market the inputs of which are usable, with valid parameters and a price cap in range. */
  predicate Market(m: Input)
  {
    InputCheck(m) == None && Valid(m.params) && m.params.guard.noiseRatio > 0.0 && m.params.guard.maxRent + 1.0 < LIMIT
  }

  // ---- the target ----

  function Unpriced(m: Input): Input { m.(cur := Current(0.0, 0.0, 0.0, 0, false, None)) }

  function Lowest(m: Input): int requires InputCheck(m) == None { FloorCents(Unpriced(m), m.anchor.value.r) }

  function Highest(m: Input): int { CeilingCents(Unpriced(m)) }

  /** The cent price a listing without current terms would get. */
  function TargetRent(m: Input): int
    requires InputCheck(m) == None
  {
    ClampInt(HalfAway(Asked(m) * 100.0), Lowest(m), Highest(m))
  }

  /** The target is the cent price nearest to the wish among those that meet every guardrail but the change cap. */
  lemma TargetIsBest(m: Input)
    requires Market(m) && Lowest(m) <= Highest(m)
    ensures InputCheck(Unpriced(m)) == None && Wish(Unpriced(m)) == Wish(m) && BestRent(Unpriced(m), TargetRent(m))
  {
    assert Asked(Unpriced(m)) == Asked(m);
    ClampIsBest(Unpriced(m), Lowest(m), Highest(m));
  }

  // ---- one round in integers ----

  function CapLow(m: Input, c: int): int { CeilR(CapDown(ToMoney(c), m.params.guard.maxChangeRatio) * 100.0 - TOL) }

  function CapHigh(m: Input, c: int): int { (CapUp(ToMoney(c), m.params.guard.maxChangeRatio) * 100.0 + TOL).Floor }

  lemma CapAroundCurrent(m: Input, c: int)
    requires m.params.guard.maxChangeRatio >= 0.0 && c > 0
    ensures CapLow(m, c) <= c <= CapHigh(m, c)
  {
    var r, x := m.params.guard.maxChangeRatio, ToMoney(c);
    assert x * r >= 0.0;
    assert x * (1.0 - r) * 100.0 == c as real - x * r * 100.0;
    assert x * (1.0 + r) * 100.0 == c as real + x * r * 100.0;
    CeilLe(x * (1.0 - r) * 100.0 - TOL, c);
    FloorGe(x * (1.0 + r) * 100.0 + TOL, c);
  }

  lemma CeilOfMax(x: real, y: real)
    ensures CeilR(MaxR(x, y) * 100.0 - TOL) == Domain.Max(CeilR(x * 100.0 - TOL), CeilR(y * 100.0 - TOL))
  {
    CeilMonotone(x * 100.0 - TOL, y * 100.0 - TOL);
    CeilMonotone(y * 100.0 - TOL, x * 100.0 - TOL);
  }

  lemma CeilMonotone(x: real, y: real)
    ensures x <= y ==> CeilR(x) <= CeilR(y)
  {
  }

  lemma FloorOfMin(x: real, y: real)
    ensures (MinR(x, y) * 100.0 + TOL).Floor == Domain.Min((x * 100.0 + TOL).Floor, (y * 100.0 + TOL).Floor)
  {
  }

  lemma SameQuestion(m: Input, s: Repriced, now: int)
    requires InputCheck(m) == None
    ensures var i := AtRound(m, s, now); InputCheck(i) == None && Asked(i) == Asked(m)
  {
  }

  lemma SameTerms(m: Input, s: Repriced, now: int, rent: real)
    requires InputCheck(m) == None
    ensures InputCheck(AtRound(m, s, now)) == None && OtherTerms(AtRound(m, s, now), rent) == OtherTerms(m, rent)
  {
  }

  lemma RoundFloor(m: Input, s: Repriced, now: int, v: real)
    ensures FloorCents(AtRound(m, s, now), v) ==
      if s.terms.rent > 0 then Domain.Max(FloorCents(Unpriced(m), v), CapLow(m, s.terms.rent))
        else FloorCents(Unpriced(m), v)
  {
    CeilOfMax(FloorRent(Unpriced(m), v), CapDown(ToMoney(s.terms.rent), m.params.guard.maxChangeRatio));
  }

  lemma RoundCeiling(m: Input, s: Repriced, now: int)
    ensures CeilingCents(AtRound(m, s, now)) ==
            if s.terms.rent > 0 then Domain.Min(Highest(m), CapHigh(m, s.terms.rent)) else Highest(m)
  {
    FloorOfMin(m.params.guard.maxRent, CapUp(ToMoney(s.terms.rent), m.params.guard.maxChangeRatio));
  }

  lemma RoundInterval(m: Input, s: Repriced, now: int)
    requires Market(m)
    ensures var i := AtRound(m, s, now); InputCheck(i) == None && Asked(i) == Asked(m)
    ensures var i, c := AtRound(m, s, now), s.terms.rent;
            && FloorCents(i, m.anchor.value.r) == (if c > 0 then Domain.Max(Lowest(m), CapLow(m, c)) else Lowest(m))
            && CeilingCents(i) == (if c > 0 then Domain.Min(Highest(m), CapHigh(m, c)) else Highest(m))
  {
    SameQuestion(m, s, now);
    RoundFloor(m, s, now, m.anchor.value.r);
    RoundCeiling(m, s, now);
  }

  lemma HighestInRange(m: Input)
    requires Market(m)
    ensures Lowest(m) >= 0 && Highest(m) < 100000000000000000
  {
    var v := m.anchor.value.r;
    CeilLe(FloorRent(Unpriced(m), v) * 100.0 - TOL, -1);
    FloorGe(m.params.guard.maxRent * 100.0 + TOL, 100000000000000000);
  }

  /** The rent decided in a round, when the guardrails leave one. */
  function NextRent(m: Input, c: int): int
    requires InputCheck(m) == None
  {
    if c > 0 then ClampInt(HalfAway(Asked(m) * 100.0), Domain.Max(Lowest(m), CapLow(m, c)),
      Domain.Min(Highest(m), CapHigh(m, c)))
    else TargetRent(m)
  }

  lemma ClampInsideRange(x: real, lo: int, hi: int)
    requires 0 <= lo <= hi < 100000000000000000
    ensures InRange(ClampR(x, ToMoney(lo), ToMoney(hi)))
  {
  }

  /** Whenever the guardrails leave a price, the round's rent is NextRent. */
  lemma RoundRent(m: Input, s: Repriced, now: int)
    requires Market(m) && FloorCents(AtRound(m, s, now), m.anchor.value.r) <= CeilingCents(AtRound(m, s, now))
    ensures var i := AtRound(m, s, now); InputCheck(i) == None && Cents(ClampedRent(i)) == NextRent(m, s.terms.rent)
  {
    var i := AtRound(m, s, now);
    RoundInterval(m, s, now);
    HighestInRange(m);
    ClampInsideRange(Bounded(Asked(i), i.params.guard), FloorCents(i, m.anchor.value.r), CeilingCents(i));
    RentIsClamp(i);
  }

  lemma AcceptedRent(m: Input, s: Repriced, now: int)
    requires Market(m) && Decide(AtRound(m, s, now)).Accept?
    ensures Decide(AtRound(m, s, now)).terms.rent == NextRent(m, s.terms.rent)
    ensures s.terms.rent > 0 ==>
              Domain.Max(Lowest(m), CapLow(m, s.terms.rent)) <= Domain.Min(Highest(m), CapHigh(m, s.terms.rent))
    ensures Lowest(m) <= Highest(m)
  {
    var i := AtRound(m, s, now);
    AcceptedShape(i);
    RoundInterval(m, s, now);
    RoundRent(m, s, now);
  }

  predicate Between(x: int, a: int, b: int) { a <= x <= b || b <= x <= a }

  lemma ClampTowards(r: int, a: int, b: int, l: int, h: int, c: int)
    requires l <= c <= h && Domain.Max(a, l) <= Domain.Min(b, h)
    ensures Between(ClampInt(r, Domain.Max(a, l), Domain.Min(b, h)), c, ClampInt(r, a, b))
  {
  }

  lemma NextRentMoves(m: Input, c: int)
    requires InputCheck(m) == None && m.params.guard.maxChangeRatio >= 0.0
    requires c > 0 ==> Domain.Max(Lowest(m), CapLow(m, c)) <= Domain.Min(Highest(m), CapHigh(m, c))
    ensures Between(NextRent(m, c), c, TargetRent(m))
  {
    if c > 0 {
      CapAroundCurrent(m, c);
      ClampTowards(HalfAway(Asked(m) * 100.0), Lowest(m), Highest(m), CapLow(m, c), CapHigh(m, c), c);
    }
  }

  /** Every accepted rent lies between the current rent and the target: never away from it, never past it. */
  lemma AcceptMovesTowardsTarget(m: Input, s: Repriced, now: int)
    requires Market(m) && Decide(AtRound(m, s, now)).Accept?
    ensures Between(Decide(AtRound(m, s, now)).terms.rent, s.terms.rent, TargetRent(m))
  {
    AcceptedRent(m, s, now);
    NextRentMoves(m, s.terms.rent);
  }

  // ---- how often a round can accept ----

  /** The full terms that go with a rent. */
  function TermsFor(m: Input, rent: int): Option<Terms>
    requires InputCheck(m) == None
  {
    var rest := OtherTerms(m, ToMoney(rent));
    if rest == None then None
    else
      var (long, days, deposit) := rest.value;
      Some(Terms(rent, Cents(MaxR(MinR(long, ToMoney(rent)), 0.0)), days, Cents(deposit)))
  }

  predicate Consistent(m: Input, t: Terms) requires InputCheck(m) == None { TermsFor(m, t.rent) == Some(t) }

  lemma ShapeIsConsistent(m: Input, i: Input, t: Terms)
    requires InputCheck(m) == None && InputCheck(i) == None &&
             OtherTerms(i, ToMoney(t.rent)) == OtherTerms(m, ToMoney(t.rent))
    requires OtherTerms(i, ToMoney(t.rent)).Some?
    requires var (long, days, deposit) := OtherTerms(i, ToMoney(t.rent)).value;
             t == Terms(t.rent, Cents(MaxR(MinR(long, ToMoney(t.rent)), 0.0)), days, Cents(deposit))
    ensures Consistent(m, t)
  {
  }

  lemma AcceptedIsConsistent(m: Input, s: Repriced, now: int)
    requires Market(m) && Decide(AtRound(m, s, now)).Accept?
    ensures Consistent(m, Decide(AtRound(m, s, now)).terms)
  {
    var i := AtRound(m, s, now);
    AcceptedShape(i);
    SameTerms(m, s, now, ToMoney(Decide(i).terms.rent));
    ShapeIsConsistent(m, i, Decide(i).terms);
  }

  /** Consistent terms at an unchanged positive rent are noise. */
  lemma UnchangedIsNoise(m: Input, s: Repriced, now: int)
    requires Market(m) && s.terms.rent > 0 && Consistent(m, s.terms)
    ensures Decide(AtRound(m, s, now)).Accept? ==> Decide(AtRound(m, s, now)).terms.rent != s.terms.rent
  {
    var i := AtRound(m, s, now);
    var d := Decide(i);
    if d.Accept? && d.terms.rent == s.terms.rent {
      AcceptedIsConsistent(m, s, now);
      assert d.terms == s.terms;
      assert AbsR(ToMoney(d.terms.rent) - i.cur.rent) == 0.0;
      ZeroIsNoise(MaxR(i.cur.rent, 0.01), m.params.guard.noiseRatio);
      assert IsNoise(i, d.terms);
      AcceptIsNotNoise(i);
    }
  }

  lemma AcceptIsNotNoise(i: Input)
    requires Decide(i).Accept?
    ensures !IsNoise(i, Decide(i).terms)
  {
  }

  lemma ZeroIsNoise(scale: real, ratio: real)
    requires scale > 0.0 && ratio > 0.0
    ensures 0.0 / scale < ratio
  {
  }

  function Gap(m: Input, c: int): nat
    requires InputCheck(m) == None
  {
    var d := c - TargetRent(m);
    if d >= 0 then d else -d
  }

  /** Cents still to go, plus one when the other terms are out of step with the rent. */
  function Work(m: Input, t: Terms): nat
    requires InputCheck(m) == None
  {
    Gap(m, t.rent) + if Consistent(m, t) then 0 else 1
  }

  // ---- the exact condition ----

  /** A market that asks for a rent of 0 and grants it: 0 reads as "no current rent", so noise never applies to it. */
  predicate AsksForZero(m: Input)
    requires InputCheck(m) == None
  {
    TargetRent(m) == 0 && Lowest(m) <= Highest(m) && OtherTerms(m, 0.0).Some?
  }

  /** Terms that are not caught in the zero rent. */
  predicate Settles(m: Input, t: Terms)
    requires InputCheck(m) == None
  {
    t.rent > 0 || !AsksForZero(m)
  }

  /** Every accepted round uses up some of the remaining work. */
  lemma AcceptDoesWork(m: Input, s: Repriced, now: int)
    requires Market(m) && Settles(m, s.terms) && Decide(AtRound(m, s, now)).Accept?
    ensures Work(m, Decide(AtRound(m, s, now)).terms) < Work(m, s.terms)
  {
    AcceptMovesTowardsTarget(m, s, now);
    AcceptedIsConsistent(m, s, now);
    AcceptedRent(m, s, now);
    if s.terms.rent > 0 && Consistent(m, s.terms) { UnchangedIsNoise(m, s, now); }
    if s.terms.rent == 0 == TargetRent(m) { ZeroIsGranted(m, s, now); }
  }

  lemma ZeroIsGranted(m: Input, s: Repriced, now: int)
    requires Market(m) && Decide(AtRound(m, s, now)).Accept? && Decide(AtRound(m, s, now)).terms.rent == 0
    ensures OtherTerms(m, 0.0).Some?
  {
    AcceptedShape(AtRound(m, s, now));
    SameTerms(m, s, now, 0.0);
    assert ToMoney(0) == 0.0;
  }

  lemma RoundProgress(m: Input, s: Repriced, now: int)
    requires Market(m) && Settles(m, s.terms)
    ensures var s' := Round(m, s, now);
            && Between(s'.terms.rent, s.terms.rent, TargetRent(m))
            && Work(m, s'.terms) + (if Decide(AtRound(m, s, now)).Accept? then 1 else 0) <= Work(m, s.terms)
  {
    if Decide(AtRound(m, s, now)).Accept? {
      AcceptDoesWork(m, s, now);
      AcceptMovesTowardsTarget(m, s, now);
    }
  }

  /** No run of rounds arrives at a rent of 0 in a market that asks for it. */
  ghost predicate NeverAtZero(m: Input, s: Repriced)
    requires InputCheck(m) == None
  {
    forall times: seq<int> :: Settles(m, Rounds(m, s, times).terms)
  }

  lemma NeverAtZeroNext(m: Input, s: Repriced, now: int)
    requires InputCheck(m) == None && NeverAtZero(m, s)
    ensures Settles(m, s.terms) && NeverAtZero(m, Round(m, s, now))
  {
    assert Rounds(m, s, []) == s;
    forall times: seq<int> ensures Settles(m, Rounds(m, Round(m, s, now), times).terms) {
      assert ([now] + times)[1..] == times;
      assert Rounds(m, s, [now] + times) == Rounds(m, Round(m, s, now), times);
    }
  }

  /**
   Repricing converges: over any sequence of round times, at most (initial cent distance + 1)
   decisions are accepted; afterwards only skips remain. The rent never leaves the stretch between
   where it started and the target.
   */
  lemma {:induction false} RepricingConverges(m: Input, s: Repriced, times: seq<int>)
    requires Market(m) && NeverAtZero(m, s)
    decreases |times|
    ensures Accepts(m, s, times) <= Gap(m, s.terms.rent) + 1
    ensures Accepts(m, s, times) + Work(m, Rounds(m, s, times).terms) <= Work(m, s.terms)
    ensures Between(Rounds(m, s, times).terms.rent, s.terms.rent, TargetRent(m))
  {
    if times != [] {
      NeverAtZeroNext(m, s, times[0]);
      RoundProgress(m, s, times[0]);
      RepricingConverges(m, Round(m, s, times[0]), times[1..]);
    }
  }

  /** A time at which the cooldown is over. */
  function Awake(m: Input, s: Repriced): (now: int)
    ensures !Cooling(AtRound(m, s, now))
  {
    (if s.lastAction.Some? then s.lastAction.value else 0) + m.params.guard.cooldownMinutes * 60
  }

  /** At a rent of 0 in a market that asks for it, every round past the cooldown is accepted, at 0 again. */
  lemma ZeroRentIsAcceptedAgain(m: Input, s: Repriced, now: int)
    requires Market(m) && AsksForZero(m) && s.terms.rent <= 0 && !Cooling(AtRound(m, s, now))
    ensures Decide(AtRound(m, s, now)).Accept? && Round(m, s, now).terms.rent == 0
  {
    var i := AtRound(m, s, now);
    RoundInterval(m, s, now);
    RoundRent(m, s, now);
    assert ToMoney(0) == 0.0 && i.cur.rent <= 0.0;
    SameTerms(m, s, now, 0.0);
  }

  /** It is repriced as often as one likes, each time one cooldown later. */
  lemma {:induction false} ZeroRentNeverSettles(m: Input, s: Repriced, n: nat) returns (times: seq<int>)
    requires Market(m) && AsksForZero(m) && s.terms.rent <= 0
    ensures |times| == n && Accepts(m, s, times) == n
    decreases n
  {
    if n == 0 {
      times := [];
    } else {
      var now := Awake(m, s);
      ZeroRentIsAcceptedAgain(m, s, now);
      var more := ZeroRentNeverSettles(m, Round(m, s, now), n - 1);
      times := [now] + more;
      assert times[1..] == more;
    }
  }

  lemma {:induction false} AcceptsInTurn(m: Input, s: Repriced, first: seq<int>, then': seq<int>)
    ensures Accepts(m, s, first + then') == Accepts(m, s, first) + Accepts(m, Rounds(m, s, first), then')
    decreases |first|
  {
    if first == [] {
      assert first + then' == then';
    } else {
      AcceptsInTurn(m, Round(m, s, first[0]), first[1..], then');
      assert (first + then')[1..] == first[1..] + then';
    }
  }

  ghost predicate AcceptsAtMost(m: Input, s: Repriced, b: nat) { forall times: seq<int> :: Accepts(m, s, times) <= b }

  /**
   Exactly when repricing stops: the accepted decisions are bounded if and only if no run of rounds
   arrives at a rent of 0 in a market that asks for 0.
   */
  lemma RepricingStopsIff(m: Input, s: Repriced)
    requires Market(m)
    ensures (exists b: nat :: AcceptsAtMost(m, s, b)) <==> NeverAtZero(m, s)
  {
    if NeverAtZero(m, s) {
      forall times: seq<int> ensures Accepts(m, s, times) <= Gap(m, s.terms.rent) + 1 {
        RepricingConverges(m, s, times);
      }
      assert AcceptsAtMost(m, s, Gap(m, s.terms.rent) + 1);
    } else {
      var first: seq<int> :| !Settles(m, Rounds(m, s, first).terms);
      forall b: nat ensures !AcceptsAtMost(m, s, b) {
        var more := ZeroRentNeverSettles(m, Rounds(m, s, first), b + 1);
        AcceptsInTurn(m, s, first, more);
      }
    }
  }

  // ---- when a listing can arrive at the zero rent ----

  /** A change cap below 100 %, by more than the tolerance. */
  predicate PartialCap(m: Input) { 1.0 - m.params.guard.maxChangeRatio > TOL }

  lemma CapKeepsPositive(m: Input, c: int)
    requires c > 0 && PartialCap(m)
    ensures CapLow(m, c) > 0
  {
    var q, x := 1.0 - m.params.guard.maxChangeRatio, ToMoney(c);
    assert x * q * 100.0 == c as real * q;
    assert c as real * q >= q by { assert (c as real - 1.0) * q >= 0.0; }
    CeilLe(x * q * 100.0 - TOL, 0);
  }

  lemma RoundKeepsSettling(m: Input, s: Repriced, now: int)
    requires Market(m) && PartialCap(m) && Settles(m, s.terms)
    ensures Settles(m, Round(m, s, now).terms)
  {
    if Decide(AtRound(m, s, now)).Accept? && s.terms.rent > 0 {
      AcceptedRent(m, s, now);
      CapKeepsPositive(m, s.terms.rent);
    }
  }

  lemma {:induction false} PartialCapKeepsOff(m: Input, s: Repriced, times: seq<int>)
    requires Market(m) && PartialCap(m) && Settles(m, s.terms)
    ensures Settles(m, Rounds(m, s, times).terms)
    decreases |times|
  {
    if times != [] {
      RoundKeepsSettling(m, s, times[0]);
      PartialCapKeepsOff(m, Round(m, s, times[0]), times[1..]);
    }
  }

  /** Terms that differ from those of a rent of 0 in nothing but the rent. */
  predicate LikeZero(m: Input, t: Terms) requires InputCheck(m) == None { TermsFor(m, 0) == Some(t.(rent := 0)) }

  /**
   Whether repricing never stops, before the first round: the market asks for 0, and the listing is at 0
   already or a full change cap lets it drop there in one step that does not pass for noise.
   */
  predicate Loops(m: Input, t: Terms)
    requires InputCheck(m) == None
  {
    AsksForZero(m) && (t.rent <= 0 || (!PartialCap(m) && (m.params.guard.noiseRatio <= 1.0 || !LikeZero(m, t))))
  }

  lemma NonPositiveProduct(x: real, y: real)
    requires x >= 0.0 && y <= 0.0
    ensures x * y <= 0.0
  {
  }

  lemma FullCapReachesZero(m: Input, c: int)
    requires m.params.guard.maxChangeRatio >= 1.0 && c > 0
    ensures CapLow(m, c) <= 0
  {
    NonPositiveProduct(ToMoney(c), 1.0 - m.params.guard.maxChangeRatio);
    CeilLe(CapDown(ToMoney(c), m.params.guard.maxChangeRatio) * 100.0 - TOL, 0);
  }

  lemma ZeroClamp(r: int, lo: int, hi: int, l: int, h: int)
    requires 0 <= lo <= hi && ClampInt(r, lo, hi) == 0 && l <= 0 < h
    ensures Domain.Max(lo, l) <= Domain.Min(hi, h) && ClampInt(r, Domain.Max(lo, l), Domain.Min(hi, h)) == 0
  {
  }

  lemma FullCapAsksZero(m: Input, s: Repriced, now: int)
    requires Market(m) && AsksForZero(m) && m.params.guard.maxChangeRatio >= 1.0 && s.terms.rent > 0
    ensures var i := AtRound(m, s, now);
            InputCheck(i) == None && FloorCents(i, m.anchor.value.r) <= CeilingCents(i) && Cents(ClampedRent(i)) == 0
  {
    var c := s.terms.rent;
    HighestInRange(m);
    FullCapReachesZero(m, c);
    CapAroundCurrent(m, c);
    ZeroClamp(HalfAway(Asked(m) * 100.0), Lowest(m), Highest(m), CapLow(m, c), CapHigh(m, c));
    RoundInterval(m, s, now);
    RoundRent(m, s, now);
  }

  lemma FullCapDecision(m: Input, s: Repriced, now: int)
    requires Market(m) && AsksForZero(m) && m.params.guard.maxChangeRatio >= 1.0 && s.terms.rent > 0
    ensures var d := Decide(AtRound(m, s, now));
            d.Accept? <==> !Cooling(AtRound(m, s, now)) && (m.params.guard.noiseRatio <= 1.0 || !LikeZero(m, s.terms))
    ensures Decide(AtRound(m, s, now)).Accept? ==> Decide(AtRound(m, s, now)).terms.rent == 0
  {
    var i := AtRound(m, s, now);
    FullCapAsksZero(m, s, now);
    SameTerms(m, s, now, 0.0);
    assert ToMoney(0) == 0.0;
    var t := TermsFor(m, 0).value;
    DropIsNoise(i, m, s, t);
  }

  lemma DropIsNoise(i: Input, m: Input, s: Repriced, t: Terms)
    requires InputCheck(m) == None && TermsFor(m, 0) == Some(t) && s.terms.rent > 0
    requires i.cur == Current(ToMoney(s.terms.rent), ToMoney(s.terms.long), ToMoney(s.terms.deposit), s.terms.days,
             true, s.lastAction)
    requires i.params == m.params && !i.ignoreNoise
    ensures IsNoise(i, t) <==> m.params.guard.noiseRatio > 1.0 && LikeZero(m, s.terms)
  {
    var c := i.cur.rent;
    assert t.rent == 0 && c >= 0.01;
    assert AbsR(ToMoney(t.rent) - c) == c && MaxR(c, 0.01) == c && c / c == 1.0;
    assert ToMoney(t.long) == ToMoney(s.terms.long) <==> t.long == s.terms.long;
    assert ToMoney(t.deposit) == ToMoney(s.terms.deposit) <==> t.deposit == s.terms.deposit;
  }

  lemma {:induction false} StuckAbove(m: Input, s: Repriced, times: seq<int>)
    requires Market(m) && AsksForZero(m) && m.params.guard.maxChangeRatio >= 1.0 && s.terms.rent > 0
    requires m.params.guard.noiseRatio > 1.0 && LikeZero(m, s.terms)
    ensures Rounds(m, s, times) == s
    decreases |times|
  {
    if times != [] {
      FullCapDecision(m, s, times[0]);
      StuckAbove(m, s, times[1..]);
    }
  }

  /** The reachability of the zero rent, read off the market and the listing's terms. */
  lemma NeverAtZeroIff(m: Input, s: Repriced)
    requires Market(m) && (PartialCap(m) || m.params.guard.maxChangeRatio >= 1.0)
    ensures NeverAtZero(m, s) <==> !Loops(m, s.terms)
  {
    if Loops(m, s.terms) {
      if s.terms.rent <= 0 {
        assert Rounds(m, s, []) == s;
      } else {
        var now := Awake(m, s);
        FullCapDecision(m, s, now);
        assert [now][1..] == [];
        assert Rounds(m, s, [now]) == Rounds(m, Round(m, s, now), []) == Round(m, s, now);
        assert !Settles(m, Rounds(m, s, [now]).terms);
      }
    } else {
      forall times: seq<int> ensures Settles(m, Rounds(m, s, times).terms) {
        if PartialCap(m) {
          PartialCapKeepsOff(m, s, times);
        } else if AsksForZero(m) {
          StuckAbove(m, s, times);
        }
      }
    }
  }

  /** Exactly when repricing stops, as a check on the market and the listing before the first round. */
  lemma RepricingStopsUnlessItLoops(m: Input, s: Repriced)
    requires Market(m) && (PartialCap(m) || m.params.guard.maxChangeRatio >= 1.0)
    ensures (exists b: nat :: AcceptsAtMost(m, s, b)) <==> !Loops(m, s.terms)
  {
    RepricingStopsIff(m, s);
    NeverAtZeroIff(m, s);
  }

  /** A market that asks for 0: a base price of one cent at a factor of 0.4, with no minimum rent. */
  function PennyMarket(): Input
  {
    Input(UU, Some(Fin(1.0)), Some(Base(Fin(0.01), Fin(0.02), Fin(0.0))), Fin(0.4),
      Current(0.0, 0.0, 0.0, 0, false, None),
      Params(BaselineParams(15, 0.97, 0.95, 0.98, 0.0), ControllerParams(0.4, 1.25, 0.03, 0.05, 7),
             Guardrails(0.0, 20000.0, 0.15, 0.02, 30, 0.3, 2.0), 60, 30),
      0, 0, 0, false)
  }

  /** The failure at a concrete input: an unpriced listing in that market is repriced without end. */
  lemma PennyMarketNeverSettles()
    ensures Market(PennyMarket()) && !exists b: nat ::
            AcceptsAtMost(PennyMarket(), Repriced(Terms(0, 0, 0, 0), None), b)
  {
    var m := PennyMarket();
    assert Asked(m) == 0.004;
    assert HalfAway(0.4) == 0;
    assert Lowest(m) == 0;
    assert Highest(m) == 2000000;
    assert AsksForZero(m);
    RepricingStopsUnlessItLoops(m, Repriced(Terms(0, 0, 0, 0), None));
  }

  // ---- where it comes to rest ----

  lemma NoiseShape(i: Input)
    requires Decide(i) == Skip(Noise)
    ensures InputCheck(i) == None && FloorCents(i, i.anchor.value.r) <= CeilingCents(i)
    ensures AbsR(ToMoney(Cents(ClampedRent(i))) - i.cur.rent) / MaxR(i.cur.rent, 0.01) < i.params.guard.noiseRatio
  {
  }

  predicate RestsAt(m: Input, c: int)
    requires InputCheck(m) == None
  {
    Domain.Max(Lowest(m), CapLow(m, c)) <= Domain.Min(Highest(m), CapHigh(m, c))
  }

  lemma ClampStops(r: int, a: int, b: int, l: int, h: int)
    requires Domain.Max(a, l) <= Domain.Min(b, h)
    ensures var x := ClampInt(r, Domain.Max(a, l), Domain.Min(b, h)); x == ClampInt(r, a, b) || x == l || x == h
  {
  }

  lemma NextRentStops(m: Input, c: int)
    requires InputCheck(m) == None && c > 0 && RestsAt(m, c)
    ensures NextRent(m, c) == TargetRent(m) || NextRent(m, c) == CapLow(m, c) || NextRent(m, c) == CapHigh(m, c)
  {
    ClampStops(HalfAway(Asked(m) * 100.0), Lowest(m), Highest(m), CapLow(m, c), CapHigh(m, c));
  }

  lemma NoiseIsNear(m: Input, s: Repriced, now: int)
    requires Market(m) && s.terms.rent > 0 && Decide(AtRound(m, s, now)) == Skip(Noise)
    ensures RestsAt(m, s.terms.rent)
    ensures var c := s.terms.rent;
            AbsR(ToMoney(NextRent(m, c)) - ToMoney(c)) / MaxR(ToMoney(c), 0.01) < m.params.guard.noiseRatio
  {
    NoiseShape(AtRound(m, s, now));
    RoundRent(m, s, now);
    assert RestsAt(m, s.terms.rent) by { RoundInterval(m, s, now); }
  }

  /**
   Where it comes to rest: a noise skip means the decided rent is within the noise band of the
   current one, and that rent is the target unless the change cap stopped short of it.
   */
  lemma RestIsCloseToTarget(m: Input, s: Repriced, now: int)
    requires Market(m) && s.terms.rent > 0 && Decide(AtRound(m, s, now)) == Skip(Noise)
    ensures var c := s.terms.rent; var c' := NextRent(m, c);
            && AbsR(ToMoney(c') - ToMoney(c)) / MaxR(ToMoney(c), 0.01) < m.params.guard.noiseRatio
            && (c' == TargetRent(m) || c' == CapLow(m, c) || c' == CapHigh(m, c))
  {
    NoiseIsNear(m, s, now);
    NextRentStops(m, s.terms.rent);
  }
}
