/** The pricing decision in words: which input is skipped for which reason, and the terms of an accepted one. */
module PricingMeaning {
  import opened Domain
  import opened Money
  import opened Listings
  import opened Pricing

  predicate NotPositive(n: Option<Num>) { n == None || n.value == NegInf || (n.value.Fin? && !(n.value.r > 0.0)) }

  function ShortOf(i: Input): Option<Num> { if i.base.Some? then Some(i.base.value.short) else None }

  /** Every number that a decision works with is a real one. */
  predicate AllReal(i: Input)
  {
    && i.anchor.Some? && i.anchor.value.Fin? && i.factor.Fin?
    && i.base.Some? && i.base.value.short.Fin? && i.base.value.long.Fin? && i.base.value.deposit.Fin?
  }

  /** Which inputs are refused before any arithmetic, and for which reason. */
  lemma RefusedInputIff(i: Input)
    ensures Decide(i) == Skip(NoValueAnchor) <==> NotPositive(i.anchor)
    ensures Decide(i) == Skip(NoBaseline) <==> !NotPositive(i.anchor) && NotPositive(ShortOf(i))
    ensures Decide(i) == Skip(NonFiniteInput) <==>
            !NotPositive(i.anchor) && !NotPositive(ShortOf(i)) && !AllReal(i)
    ensures InputCheck(i) == None <==> AllReal(i) && i.anchor.value.r > 0.0 && i.base.value.short.r > 0.0
  {
  }

  ghost predicate Greatest(x: real, s: seq<real>) { x in s && forall y | y in s :: y <= x }

  ghost predicate Smallest(x: real, s: seq<real>) { x in s && forall y | y in s :: x <= y }

  /** A term within the channel's limits, as far as it has any; the upper limit has the last word. */
  predicate TermWithin(d: int, wanted: int, lo: int, hi: int)
  {
    var low := if lo > 0 then Domain.Max(wanted, lo) else wanted;
    d == if hi > 0 then Domain.Min(low, hi) else low
  }

  /** The long price before rounding: 98 % of the rent or the long baseline, and none for a short UU term. */
  ghost predicate LongFor(i: Input, rent: real, days: int, long: real)
    requires AllReal(i)
  {
    if i.channel == UU && days < 8 then long == 0.0 else Smallest(long, [rent * 0.98, i.base.value.long.r])
  }

  /** The deposit before rounding. */
  ghost predicate DepositFor(i: Input, rent: real, days: int, long: real, deposit: real)
    requires AllReal(i)
  {
    var v := i.anchor.value.r;
    match i.channel
    case UU => Greatest(deposit, [i.base.value.deposit.r, i.params.guard.depositFloorRatio * v])
    case ECO =>
      Greatest(deposit, [v * 1.4, rent * days as real] + if long > 0.0 then [long * days as real] else [])
  }

  /** Days, long price and deposit that go with a rent, before rounding. */
  ghost predicate Rest(i: Input, rent: real, long: real, days: int, deposit: real)
    requires AllReal(i)
  {
    && (i.channel == UU ==> days == i.params.uuMaxDays)
    && (i.channel == ECO ==> TermWithin(days, i.params.ecoMaxDays, i.dayMin, i.dayMax))
    && LongFor(i, rent, days, long) && DepositFor(i, rent, days, long, deposit)
  }

  /** A deposit beyond the ECO cap; a cap of 0 is none. */
  predicate Excessive(i: Input, deposit: real)
    requires AllReal(i)
  {
    var ratio := i.params.guard.depositCapRatio;
    i.channel == ECO && ratio > 0.0 && ratio * i.anchor.value.r < deposit
  }

  /** The last action is less than the cooldown ago. */
  predicate TooSoon(i: Input)
  {
    i.cur.lastAction.Some? && i.cur.lastAction.value + 60 * i.params.guard.cooldownMinutes > i.now
  }

  /** The rent is within the noise band of the current one, nothing else changes, and noise is not to be ignored. */
  predicate TooClose(i: Input, t: Terms)
  {
    var rent, c := ToMoney(t.rent), i.cur;
    var band := i.params.guard.noiseRatio * MaxR(c.rent, 0.01);
    && c.rent > 0.0 && !i.ignoreNoise && rent < c.rent + band && c.rent < rent + band
    && (c.termsKnown ==> ToMoney(t.long) == c.long && ToMoney(t.deposit) == c.deposit && t.days == c.days)
  }

  lemma Quotient(x: real, y: real, n: real)
    requires y > 0.0
    ensures x / y < n <==> x < n * y
  {
    assert x / y * y == x;
    if x / y < n { assert (n - x / y) * y > 0.0; } else { assert (x / y - n) * y >= 0.0; }
  }

  lemma NoiseIsTooClose(i: Input, t: Terms)
    ensures IsNoise(i, t) <==> TooClose(i, t)
  {
    Quotient(AbsR(ToMoney(t.rent) - i.cur.rent), MaxR(i.cur.rent, 0.01), i.params.guard.noiseRatio);
  }

  lemma EcoDaysWithin(i: Input)
    ensures TermWithin(EcoDays(i), i.params.ecoMaxDays, i.dayMin, i.dayMax)
  {
  }

  lemma EcoRest(i: Input, rent: real)
    requires InputCheck(i) == None && i.channel == ECO
    ensures var long, days := MinR(rent * 0.98, i.base.value.long.r), EcoDays(i);
            var deposit := EcoDeposit(i.anchor.value.r, rent, long, days);
            && Rest(i, rent, long, days, deposit)
            && OtherTerms(i, rent) == if Excessive(i, deposit) then None else Some((long, days, deposit))
  {
    var long := MinR(rent * 0.98, i.base.value.long.r);
    EcoDaysWithin(i);
    SmallerOfTwo(rent * 0.98, i.base.value.long.r);
    EcoDepositIsGreatest(i.anchor.value.r, rent, long, EcoDays(i));
  }

  lemma UuRest(i: Input, rent: real)
    requires InputCheck(i) == None && i.channel == UU
    ensures var days := i.params.uuMaxDays;
            var long := if days < 8 then 0.0 else MinR(rent * 0.98, i.base.value.long.r);
            var deposit := MaxR(i.base.value.deposit.r, i.params.guard.depositFloorRatio * i.anchor.value.r);
            Rest(i, rent, long, days, deposit) && OtherTerms(i, rent) == Some((long, days, deposit))
  {
    var days, v := i.params.uuMaxDays, i.anchor.value.r;
    var long := if days < 8 then 0.0 else MinR(rent * 0.98, i.base.value.long.r);
    assert LongFor(i, rent, days, long) by { SmallerOfTwo(rent * 0.98, i.base.value.long.r); }
    UuDeposit(i, rent, days, long);
  }

  lemma UuDeposit(i: Input, rent: real, days: int, long: real)
    requires AllReal(i) && i.channel == UU
    ensures var x := i.params.guard.depositFloorRatio * i.anchor.value.r;
            DepositFor(i, rent, days, long, MaxR(i.base.value.deposit.r, x))
  {
    GreaterOfTwo(i.base.value.deposit.r, i.params.guard.depositFloorRatio * i.anchor.value.r);
  }

  lemma RestIsRest(i: Input, rent: real) returns (long: real, days: int, deposit: real)
    requires InputCheck(i) == None
    ensures Rest(i, rent, long, days, deposit)
    ensures OtherTerms(i, rent) == if Excessive(i, deposit) then None else Some((long, days, deposit))
  {
    long := MinR(rent * 0.98, i.base.value.long.r);
    if i.channel == ECO {
      EcoRest(i, rent);
      days, deposit := EcoDays(i), EcoDeposit(i.anchor.value.r, rent, long, EcoDays(i));
    } else {
      UuRest(i, rent);
      days := i.params.uuMaxDays;
      deposit := MaxR(i.base.value.deposit.r, i.params.guard.depositFloorRatio * i.anchor.value.r);
      if days < 8 { long := 0.0; }
    }
  }

  lemma SmallerOfTwo(x: real, y: real)
    ensures Smallest(MinR(x, y), [x, y])
  {
  }

  lemma GreaterOfTwo(x: real, y: real)
    ensures Greatest(MaxR(x, y), [x, y])
  {
  }

  lemma EcoDepositIsGreatest(v: real, rent: real, long: real, days: int)
    ensures Greatest(EcoDeposit(v, rent, long, days),
              [v * 1.4, rent * days as real] + if long > 0.0 then [long * days as real] else [])
  {
    var s := [v * 1.4, ForDays(rent, days)] + if long > 0.0 then [ForDays(long, days)] else [];
    assert v * 1.4 == s[0] && ForDays(rent, days) == s[1] && (long > 0.0 ==> ForDays(long, days) == s[2]);
  }

  /** The words leave no choice. */
  lemma RestIsUnique(i: Input, rent: real, l: real, d: int, p: real, l': real, d': int, p': real)
    requires AllReal(i) && Rest(i, rent, l, d, p) && Rest(i, rent, l', d', p')
    ensures l == l' && d == d' && p == p'
  {
    SmallestIsUnique(l, l', [rent * 0.98, i.base.value.long.r]);
    assert l == l' && d == d';
    DepositIsUnique(i, rent, d, l, p, p');
  }

  lemma DepositIsUnique(i: Input, rent: real, days: int, long: real, p: real, q: real)
    requires AllReal(i) && DepositFor(i, rent, days, long, p) && DepositFor(i, rent, days, long, q)
    ensures p == q
  {
    var v := i.anchor.value.r;
    match i.channel
    case UU => GreatestIsUnique(p, q, [i.base.value.deposit.r, i.params.guard.depositFloorRatio * v]);
    case ECO =>
      GreatestIsUnique(p, q, [v * 1.4, rent * days as real] + if long > 0.0 then [long * days as real] else []);
  }

  lemma GreatestIsUnique(x: real, y: real, s: seq<real>)
    ensures Greatest(x, s) && Greatest(y, s) ==> x == y
  {
  }

  lemma SmallestIsUnique(x: real, y: real, s: seq<real>)
    ensures Smallest(x, s) && Smallest(y, s) ==> x == y
  {
  }

  /** The long price never exceeds the rent, so capping it by the rent does nothing. */
  lemma LongIsBelowRent(i: Input, rent: real, long: real, days: int)
    requires AllReal(i) && rent >= 0.0 && LongFor(i, rent, days, long)
    ensures MaxR(MinR(long, rent), 0.0) == MaxR(long, 0.0)
  {
    assert rent * 0.98 <= rent;
    assert rent * 0.98 in [rent * 0.98, i.base.value.long.r];
  }

  /** Whether the guardrails leave a price, and the one they leave. */
  ghost predicate Priced(i: Input, rent: int)
  {
    && InputCheck(i) == None && FloorCents(i, i.anchor.value.r) <= CeilingCents(i)
    && rent == Cents(ClampedRent(i)) && rent >= 0
  }

  /** The decision for a rent whose other terms are known. */
  lemma DecideFor(i: Input, t: Terms, long: real, deposit: real)
    requires Priced(i, t.rent) && Rest(i, ToMoney(t.rent), long, t.days, deposit)
    requires t.long == Cents(MaxR(long, 0.0)) && t.deposit == Cents(deposit)
    ensures Decide(i) == if Excessive(i, deposit) then Skip(DepositCapExceeded)
            else if TooSoon(i) then Skip(Cooldown) else if TooClose(i, t) then Skip(Noise) else Accept(t)
  {
    var l, d, p := RestIsRest(i, ToMoney(t.rent));
    RestIsUnique(i, ToMoney(t.rent), l, d, p, long, t.days, deposit);
    LongIsBelowRent(i, ToMoney(t.rent), long, t.days);
    NoiseIsTooClose(i, t);
  }

  /**
   Exactly which priced input is skipped for an excessive deposit, a cooldown or noise, and the terms of an accepted
   one: the rent that `AcceptedRentIsBest` speaks of, with days, long price and deposit in words.
   */
  lemma DecideIff(i: Input) returns (t: Terms, long: real, deposit: real)
    requires Valid(i.params) && InputCheck(i) == None && exists n :: Meets(i, i.anchor.value.r, n)
    ensures Priced(i, t.rent) && Rest(i, ToMoney(t.rent), long, t.days, deposit)
    ensures t.long == Cents(MaxR(long, 0.0)) && t.deposit == Cents(deposit)
    ensures Decide(i) == Skip(DepositCapExceeded) <==> Excessive(i, deposit)
    ensures Decide(i) == Skip(Cooldown) <==> !Excessive(i, deposit) && TooSoon(i)
    ensures Decide(i) == Skip(Noise) <==> !Excessive(i, deposit) && !TooSoon(i) && TooClose(i, t)
    ensures Decide(i) == Accept(t) <==> !Excessive(i, deposit) && !TooSoon(i) && !TooClose(i, t)
  {
    var v := i.anchor.value.r;
    var n :| Meets(i, v, n);
    IntervalIsMeets(i, v, n);
    EcoRent(i);
    var rent := Cents(ClampedRent(i));
    var l, d, p := RestIsRest(i, ToMoney(rent));
    long, deposit := l, p;
    t := Terms(rent, Cents(MaxR(long, 0.0)), d, Cents(deposit));
    DecideFor(i, t, long, deposit);
  }
}
