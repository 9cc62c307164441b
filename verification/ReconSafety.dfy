/** Safety of one plan, for every snapshot and every pricing function. */
module ReconSafety {
  import opened Domain
  import opened Listings
  import opened Recon

  lemma SubsetSize<T>(a: set<T>, b: set<T>)
    requires a <= b
    ensures |a| <= |b|
  {
    if a != {} {
      var x :| x in a;
      SubsetSize(a - {x}, b - {x});
    }
  }

  // ---- publish pass ----

  ghost predicate GoodPublish(snap: Snapshot, a: Action)
  {
    && a.Publish?
    && a.asset != "" && a.asset !in LeasedAssets(snap.listings)
    && Routed(snap, Slot(a.hash, a.ch))
    && !Listed(snap.listings, Slot(a.hash, a.ch), a.asset)
  }

  ghost predicate NoRepeat(plan: seq<Action>)
  {
    forall i, j | 0 <= i < j < |plan| && plan[i].Publish? && plan[j].Publish? ::
      (plan[i].hash, plan[i].ch, plan[i].asset) != (plan[j].hash, plan[j].ch, plan[j].asset)
  }

  ghost predicate WithinBudget(snap: Snapshot, plan: seq<Action>)
  {
    forall s :: Live(snap.listings, s) + |Placed(plan, s)| <= Max(Live(snap.listings, s), Budget(snap, s))
  }

  ghost predicate SafePublishes(snap: Snapshot, plan: seq<Action>)
  {
    (forall a | a in plan :: GoodPublish(snap, a)) && NoRepeat(plan) && WithinBudget(snap, plan)
  }

  lemma NoRepeatStep(plan: seq<Action>, a: Action)
    requires NoRepeat(plan) && a.Publish? && a.asset !in Placed(plan, Slot(a.hash, a.ch))
    ensures NoRepeat(plan + [a])
  {
    var s := Slot(a.hash, a.ch);
    forall i | 0 <= i < |plan| && plan[i].Publish?
      ensures (plan[i].hash, plan[i].ch, plan[i].asset) != (a.hash, a.ch, a.asset)
    {
      assert plan[i] in plan;
      assert plan[i].hash == s.hash && plan[i].ch == s.ch ==> plan[i].asset in Placed(plan, s);
    }
  }

  lemma PublishOnSafe(snap: Snapshot, price: Pricing, plan: seq<Action>, it: Item, ch: Channel)
    requires SafePublishes(snap, plan) && Publishable(snap, it) && ch in ChannelsFor(snap, it.hash)
    ensures SafePublishes(snap, PublishOn(snap, price, plan, it, ch))
  {
    if MayPublish(snap, price, plan, it, ch) {
      var a := Publish(ch, it.asset, it.hash, price(ch, it).value);
      PlacedStep(plan, ch, it, a.terms);
      NoRepeatStep(plan, a);
      assert GoodPublish(snap, a);
      assert WithinBudget(snap, plan + [a]);
    }
  }

  lemma {:induction false} PublishAllSafe(snap: Snapshot, price: Pricing, plan: seq<Action>, it: Item,
      chs: seq<Channel>)
    requires SafePublishes(snap, plan) && Publishable(snap, it)
    requires forall c | c in chs :: c in ChannelsFor(snap, it.hash)
    ensures SafePublishes(snap, PublishAll(snap, price, plan, it, chs))
  {
    if chs != [] {
      var rest := chs[..|chs| - 1];
      PublishAllSafe(snap, price, plan, it, rest);
      PublishOnSafe(snap, price, PublishAll(snap, price, plan, it, rest), it, chs[|chs| - 1]);
    }
  }

  /** No leased, listed or repeated asset is published and no slot is filled beyond its budget. */
  lemma {:induction false} PublishesSafe(snap: Snapshot, price: Pricing, n: nat)
    requires n <= |snap.items|
    ensures SafePublishes(snap, Publishes(snap, price, n))
  {
    if n == 0 {
      forall s ensures |Placed([], s)| == 0 { assert Placed([], s) == {}; }
    } else {
      PublishesSafe(snap, price, n - 1);
      var it := snap.items[n - 1];
      if Publishable(snap, it) {
        PublishAllSafe(snap, price, Publishes(snap, price, n - 1), it, ChannelsFor(snap, it.hash));
      }
    }
  }

  // ---- publish pass: nothing publishable is left behind ----

  /** A plan only closes opportunities: what may not be published stays so as the plan grows. */
  lemma OpportunityShrinks(snap: Snapshot, price: Pricing, plan: seq<Action>, more: seq<Action>, it: Item, ch: Channel)
    requires !MayPublish(snap, price, plan, it, ch)
    ensures !MayPublish(snap, price, plan + more, it, ch)
  {
    var s := Slot(it.hash, ch);
    assert Placed(plan, s) <= Placed(plan + more, s);
    SubsetSize(Placed(plan, s), Placed(plan + more, s));
  }

  lemma {:induction false} PublishAllGrows(snap: Snapshot, price: Pricing, plan: seq<Action>, it: Item,
      chs: seq<Channel>)
    ensures plan <= PublishAll(snap, price, plan, it, chs)
  {
    if chs != [] {
      PublishAllGrows(snap, price, plan, it, chs[..|chs| - 1]);
    }
  }

  lemma {:induction false} PublishAllExhausts(snap: Snapshot, price: Pricing, plan: seq<Action>, it: Item,
      chs: seq<Channel>, ch: Channel)
    requires ch in chs
    ensures !MayPublish(snap, price, PublishAll(snap, price, plan, it, chs), it, ch)
  {
    var rest, last := chs[..|chs| - 1], chs[|chs| - 1];
    var before := PublishAll(snap, price, plan, it, rest);
    var after := PublishAll(snap, price, plan, it, chs);
    if ch == last {
      if MayPublish(snap, price, before, it, ch) {
        assert after[|after| - 1] in after;
        assert it.asset in Placed(after, Slot(it.hash, ch));
      }
    } else {
      assert ch in rest;
      PublishAllExhausts(snap, price, plan, it, rest, ch);
      OpportunityShrinks(snap, price, before, after[|before|..], it, ch);
      assert before + after[|before|..] == after;
    }
  }

  lemma ClosedStaysClosed(snap: Snapshot, price: Pricing, before: seq<Action>, after: seq<Action>, it: Item,
      ch: Channel)
    requires before <= after && !MayPublish(snap, price, before, it, ch)
    ensures !MayPublish(snap, price, after, it, ch)
  {
    OpportunityShrinks(snap, price, before, after[|before|..], it, ch);
    assert before + after[|before|..] == after;
  }

  lemma PublishesGrow(snap: Snapshot, price: Pricing, n: nat)
    requires 0 < n <= |snap.items|
    ensures Publishes(snap, price, n - 1) <= Publishes(snap, price, n)
  {
    var it := snap.items[n - 1];
    if Publishable(snap, it) {
      PublishAllGrows(snap, price, Publishes(snap, price, n - 1), it, ChannelsFor(snap, it.hash));
    }
  }

  lemma LastItemExhausts(snap: Snapshot, price: Pricing, n: nat, ch: Channel)
    requires 0 < n <= |snap.items|
    requires Publishable(snap, snap.items[n - 1]) && ch in ChannelsFor(snap, snap.items[n - 1].hash)
    ensures !MayPublish(snap, price, Publishes(snap, price, n), snap.items[n - 1], ch)
  {
    var it := snap.items[n - 1];
    PublishAllExhausts(snap, price, Publishes(snap, price, n - 1), it, ChannelsFor(snap, it.hash), ch);
  }

  /** After the pass no item may be published any more: every opportunity was taken or closed. */
  lemma {:induction false} PublishesExhaust(snap: Snapshot, price: Pricing, n: nat, j: nat, ch: Channel)
    requires j < n <= |snap.items|
    requires Publishable(snap, snap.items[j]) && ch in ChannelsFor(snap, snap.items[j].hash)
    ensures !MayPublish(snap, price, Publishes(snap, price, n), snap.items[j], ch)
  {
    if j == n - 1 {
      LastItemExhausts(snap, price, n, ch);
    } else {
      PublishesExhaust(snap, price, n - 1, j, ch);
      PublishesGrow(snap, price, n);
      var before, after := Publishes(snap, price, n - 1), Publishes(snap, price, n);
      ClosedStaysClosed(snap, price, before, after, snap.items[j], ch);
    }
  }

  // ---- delist pass ----

  lemma {:induction false} LivePrefix(ls: seq<Listing>, i: nat, s: Slot)
    requires i < |ls|
    ensures Live(ls[..i], s) + (if Occupies(ls[i], s) then 1 else 0) <= Live(ls, s)
  {
    var n := |ls| - 1;
    if i < n {
      LivePrefix(ls[..n], i, s);
      assert ls[..n][..i] == ls[..i];
    }
  }

  /** Every delist comes from one row that the pass removes. */
  lemma {:induction false} DelistSource(snap: Snapshot, cutoff: int, n: nat, a: Action) returns (i: nat)
    requires n <= |snap.listings| && a in Delists(snap, cutoff, n)
    ensures i < n && Removes(snap, cutoff, i) && a == DelistOf(snap, i)
  {
    if Removes(snap, cutoff, n - 1) && a == DelistOf(snap, n - 1) {
      i := n - 1;
    } else {
      i := DelistSource(snap, cutoff, n - 1, a);
    }
  }

  lemma {:induction false} RemovedIsDelisted(snap: Snapshot, cutoff: int, n: nat, i: nat)
    requires i < n <= |snap.listings| && Removes(snap, cutoff, i)
    ensures DelistOf(snap, i) in Delists(snap, cutoff, n)
  {
    if i < n - 1 { RemovedIsDelisted(snap, cutoff, n - 1, i); }
  }

  // ---- the plan as a whole ----

  ghost predicate SafeDelist(snap: Snapshot, a: Action)
  {
    a.Delist? && exists i | 0 <= i < |snap.listings| ::
      snap.listings[i].key == a.key && snap.listings[i].state != Leased
  }

  ghost predicate NoCrossing(snap: Snapshot, plan: seq<Action>)
  {
    forall p, d | p in plan && d in plan && p.Publish? && d.Delist? :: Slot(p.hash, p.ch) != Slot(d.hash, d.key.ch)
  }

  lemma DelistsSafe(snap: Snapshot, cutoff: int)
    ensures forall d | d in Delists(snap, cutoff, |snap.listings|) ::
            SafeDelist(snap, d) && DelistsOver(snap, Slot(d.hash, d.key.ch))
  {
    forall d | d in Delists(snap, cutoff, |snap.listings|)
      ensures SafeDelist(snap, d) && DelistsOver(snap, Slot(d.hash, d.key.ch))
    {
      var i := DelistSource(snap, cutoff, |snap.listings|, d);
      LivePrefix(snap.listings, i, Slot(d.hash, d.key.ch));
    }
  }

  /**
   For every snapshot, pricing function, time and grace: no leased listing is delisted, no leased
   asset is published, nothing is published twice or when listed, live + published stays within
   max(live, wanted), and no slot is both published to and delisted from.
   */
  lemma PlanIsSafe(snap: Snapshot, price: Pricing, now: int, grace: int)
    ensures var plan := PlanOf(snap, price, now, grace);
            && (forall a | a in plan :: GoodPublish(snap, a) || SafeDelist(snap, a))
            && NoRepeat(plan)
            && WithinBudget(snap, plan)
            && NoCrossing(snap, plan)
  {
    var pubs := Publishes(snap, price, |snap.items|);
    var dels := Delists(snap, now - grace, |snap.listings|);
    PublishesSafe(snap, price, |snap.items|);
    DelistsSafe(snap, now - grace);
    forall s ensures Placed(pubs + dels, s) == Placed(pubs, s) {
      assert forall a :: a in pubs + dels <==> a in pubs || a in dels;
    }
    forall p | p in pubs ensures !DelistsOver(snap, Slot(p.hash, p.ch)) {
      PublishedSlotIsShort(snap, pubs, p);
    }
  }

  /** A slot that loses a row is not routed or has more live rows than its budget. */
  ghost predicate DelistsOver(snap: Snapshot, s: Slot)
  {
    Routed(snap, s) ==> Live(snap.listings, s) > Budget(snap, s)
  }

  lemma PublishedSlotIsShort(snap: Snapshot, pubs: seq<Action>, p: Action)
    requires SafePublishes(snap, pubs) && p in pubs
    ensures p.Publish? && Routed(snap, Slot(p.hash, p.ch))
    ensures Live(snap.listings, Slot(p.hash, p.ch)) < Budget(snap, Slot(p.hash, p.ch))
  {
    var s := Slot(p.hash, p.ch);
    assert GoodPublish(snap, p);
    assert p.asset in Placed(pubs, s);
    SubsetSize({p.asset}, Placed(pubs, s));
  }

  // ---- why each action is there ----

  /** Which channel a route serves, given the health of UU. */
  predicate Serves(r: Route, ch: Channel, uuHealthy: bool)
  {
    match r
    case Both => true
    case UUOnly => ch == UU
    case ECOOnly => ch == ECO
    case UUPrimary => ch == UU <==> uuHealthy
  }

  /** The publish names a routable item, at that item's price, on a channel its hash's route serves. */
  ghost predicate Justified(snap: Snapshot, price: Pricing, a: Action)
  {
    && a.Publish?
    && (exists it | it in snap.items :: it.asset == a.asset && it.hash == a.hash && price(a.ch, it) == Some(a.terms))
    && RouteOf(snap, a.hash).Some? && Serves(RouteOf(snap, a.hash).value, a.ch, snap.uuHealthy)
  }

  /** The delist's reason is the case. */
  ghost predicate TrueReason(snap: Snapshot, d: Action)
    requires d.Delist?
  {
    var r, s := RouteOf(snap, d.hash), Slot(d.hash, d.key.ch);
    match d.reason
    case Orphan => forall it | it in snap.items && it.hash == d.hash :: it.asset in LeasedAssets(snap.listings)
    case Failover => d.key.ch == UU && !snap.uuHealthy && r == Some(UUPrimary)
    case NotRouted => r.Some? && !Serves(r.value, d.key.ch, snap.uuHealthy) && !(d.key.ch == UU && r.value == UUPrimary)
    case Surplus => r.Some? && Serves(r.value, d.key.ch, snap.uuHealthy) && Live(snap.listings, s) > Budget(snap, s)
  }

  lemma ServedIsDesired(r: Route, ch: Channel, uuHealthy: bool)
    ensures ch in DesiredChannels(r, uuHealthy) <==> Serves(r, ch, uuHealthy)
  {
  }

  lemma {:induction false} NoRouteNoItem(items: seq<Item>, leased: set<string>, hash: string)
    requires LastRoute(items, leased, hash) == None
    ensures forall it | it in items && it.hash == hash :: it.asset in leased
  {
    if items != [] {
      NoRouteNoItem(items[..|items| - 1], leased, hash);
      assert items == items[..|items| - 1] + [items[|items| - 1]];
    }
  }

  lemma {:induction false} PublishAllJustified(snap: Snapshot, price: Pricing, plan: seq<Action>, it: Item,
      chs: seq<Channel>)
    requires it in snap.items && RouteOf(snap, it.hash).Some?
    requires forall ch | ch in chs :: Serves(RouteOf(snap, it.hash).value, ch, snap.uuHealthy)
    requires forall a | a in plan :: Justified(snap, price, a)
    ensures forall a | a in PublishAll(snap, price, plan, it, chs) :: Justified(snap, price, a)
  {
    if chs != [] { PublishAllJustified(snap, price, plan, it, chs[..|chs| - 1]); }
  }

  lemma {:induction false} PublishesJustified(snap: Snapshot, price: Pricing, n: nat)
    requires n <= |snap.items|
    ensures forall a | a in Publishes(snap, price, n) :: Justified(snap, price, a)
  {
    if n > 0 {
      PublishesJustified(snap, price, n - 1);
      var it := snap.items[n - 1];
      var chs := ChannelsFor(snap, it.hash);
      if chs != [] {
        forall ch | ch in chs ensures Serves(RouteOf(snap, it.hash).value, ch, snap.uuHealthy) {
          ServedIsDesired(RouteOf(snap, it.hash).value, ch, snap.uuHealthy);
        }
        PublishAllJustified(snap, price, Publishes(snap, price, n - 1), it, chs);
      }
    }
  }

  lemma VerdictIsTrue(snap: Snapshot, i: nat)
    requires i < |snap.listings| && Judge(snap, i).Remove?
    ensures TrueReason(snap, DelistOf(snap, i))
  {
    var l := snap.listings[i];
    var r := RouteOf(snap, l.hash);
    LivePrefix(snap.listings, i, Slot(l.hash, l.key.ch));
    if r == None {
      NoRouteNoItem(snap.items, LeasedAssets(snap.listings), l.hash);
    } else {
      ServedIsDesired(r.value, l.key.ch, snap.uuHealthy);
    }
  }

  /**
   Every action of a plan follows from the routes, the health of UU and the budgets: a publish sends a routable
   item at its own price where its route points, and a delist's reason is the case.
   */
  lemma PlanIsJustified(snap: Snapshot, price: Pricing, now: int, grace: int)
    ensures forall a | a in PlanOf(snap, price, now, grace) :: if a.Publish? then Justified(snap, price, a)
            else TrueReason(snap, a)
  {
    var pubs, dels := Publishes(snap, price, |snap.items|), Delists(snap, now - grace, |snap.listings|);
    PublishesJustified(snap, price, |snap.items|);
    forall a | a in PlanOf(snap, price, now, grace)
      ensures if a.Publish? then Justified(snap, price, a) else TrueReason(snap, a)
    {
      assert a in pubs || a in dels;
      if a !in pubs {
        var i := DelistSource(snap, now - grace, |snap.listings|, a);
        VerdictIsTrue(snap, i);
      }
    }
  }
}
