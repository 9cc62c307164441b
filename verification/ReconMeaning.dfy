/**
 The plan in the words of the inventory and the shelf, without the planner's own notions: what is
 published, what is delisted and what is put on record, each with an exact condition.
 */
module ReconMeaning {
  import opened Domain
  import opened Listings
  import opened Recon
  import opened ReconSafety

  /** Some leased listing carries this asset. */
  ghost predicate RentedOut(snap: Snapshot, asset: string)
  {
    asset != "" && exists l | l in snap.listings :: l.asset == asset && l.state == Leased
  }

  /** Item j has the last word on the route of its hash: no later copy is free. */
  ghost predicate LastWord(snap: Snapshot, hash: string, j: nat)
  {
    && j < |snap.items| && snap.items[j].hash == hash && !RentedOut(snap, snap.items[j].asset)
    && forall k | j < k < |snap.items| && snap.items[k].hash == hash :: RentedOut(snap, snap.items[k].asset)
  }

  ghost predicate RouteIs(snap: Snapshot, hash: string, r: Route)
  {
    exists j: nat :: LastWord(snap, hash, j) && snap.items[j].route == r
  }

  /** No copy of the hash is free. */
  ghost predicate Orphaned(snap: Snapshot, hash: string)
  {
    forall it | it in snap.items && it.hash == hash :: RentedOut(snap, it.asset)
  }

  /** The hash's route serves the slot's channel. */
  ghost predicate Open(snap: Snapshot, s: Slot)
  {
    exists r :: RouteIs(snap, s.hash, r) && Serves(r, s.ch, snap.uuHealthy)
  }

  /** How many different free assets want the slot. */
  ghost function Demand(snap: Snapshot, s: Slot): nat
  {
    |set it | it in snap.items && it.hash == s.hash && !RentedOut(snap, it.asset) &&
              Serves(it.route, s.ch, snap.uuHealthy) :: it.asset|
  }

  predicate Holds(l: Listing, s: Slot) { Slot(l.hash, l.key.ch) == s && l.state != Leased }

  /** The positions among the first n whose listing holds the slot without being leased. */
  ghost function Held(snap: Snapshot, s: Slot, n: nat): set<nat>
    requires n <= |snap.listings|
  {
    set i: nat | i < n && Holds(snap.listings[i], s)
  }

  ghost function Supply(snap: Snapshot, s: Slot, n: nat): nat
    requires n <= |snap.listings|
  {
    |Held(snap, s, n)|
  }

  // ---- the planner's notions ----

  lemma LeasedIsRentedOut(snap: Snapshot, asset: string)
    ensures asset in LeasedAssets(snap.listings) <==> RentedOut(snap, asset)
  {
  }

  lemma {:induction false} LastRouteIs(snap: Snapshot, hash: string, n: nat)
    requires n <= |snap.items|
    ensures var r := LastRoute(snap.items[..n], LeasedAssets(snap.listings), hash);
            && (r == None ==>
                  forall k | 0 <= k < n && snap.items[k].hash == hash :: RentedOut(snap, snap.items[k].asset))
            && (r.Some? ==> exists j: nat | j < n && snap.items[j].hash == hash && snap.items[j].route == r.value ::
                  !RentedOut(snap, snap.items[j].asset) &&
                  forall k | j < k < n && snap.items[k].hash == hash :: RentedOut(snap, snap.items[k].asset))
  {
    if n > 0 {
      var it := snap.items[n - 1];
      LastRouteIs(snap, hash, n - 1);
      LeasedIsRentedOut(snap, it.asset);
      assert snap.items[..n][..n - 1] == snap.items[..n - 1];
      if it.asset !in LeasedAssets(snap.listings) && it.hash == hash { assert snap.items[n - 1].route == it.route; }
    }
  }

  lemma RouteOfIs(snap: Snapshot, hash: string)
    ensures RouteOf(snap, hash) == None <==> Orphaned(snap, hash)
    ensures forall r :: RouteOf(snap, hash) == Some(r) <==> RouteIs(snap, hash, r)
  {
    assert snap.items[..|snap.items|] == snap.items;
    LastRouteIs(snap, hash, |snap.items|);
    var r := RouteOf(snap, hash);
    if r.Some? {
      var j: nat :| j < |snap.items| && snap.items[j].hash == hash && snap.items[j].route == r.value &&
        !RentedOut(snap, snap.items[j].asset) && forall k | j < k < |snap.items| && snap.items[k].hash == hash ::
        RentedOut(snap, snap.items[k].asset);
      assert LastWord(snap, hash, j);
      forall q | RouteIs(snap, hash, q) ensures q == r.value {
        var i: nat :| LastWord(snap, hash, i) && snap.items[i].route == q;
        assert i == j;
      }
    } else {
      forall it | it in snap.items && it.hash == hash ensures RentedOut(snap, it.asset) {
        var k :| 0 <= k < |snap.items| && snap.items[k] == it;
      }
      forall j: nat ensures !LastWord(snap, hash, j) {
        if j < |snap.items| { assert snap.items[j] in snap.items; }
      }
    }
  }

  lemma RoutedIsOpen(snap: Snapshot, s: Slot)
    ensures Routed(snap, s) <==> Open(snap, s)
  {
    RouteOfIs(snap, s.hash);
    if RouteOf(snap, s.hash).Some? { ServedIsDesired(RouteOf(snap, s.hash).value, s.ch, snap.uuHealthy); }
  }

  lemma BudgetIsDemand(snap: Snapshot, s: Slot)
    ensures Budget(snap, s) == Demand(snap, s)
  {
    forall it | it in snap.items
      ensures it.asset in LeasedAssets(snap.listings) <==> RentedOut(snap, it.asset)
      ensures s.ch in DesiredChannels(it.route, snap.uuHealthy) <==> Serves(it.route, s.ch, snap.uuHealthy)
    {
      LeasedIsRentedOut(snap, it.asset);
      ServedIsDesired(it.route, s.ch, snap.uuHealthy);
    }
    assert Wanted(snap.items, LeasedAssets(snap.listings), snap.uuHealthy, s) ==
      set it | it in snap.items && it.hash == s.hash && !RentedOut(snap, it.asset) &&
               Serves(it.route, s.ch, snap.uuHealthy) :: it.asset;
  }

  lemma {:induction false} LiveIsSupply(snap: Snapshot, s: Slot, n: nat)
    requires n <= |snap.listings|
    ensures Live(snap.listings[..n], s) == Supply(snap, s, n)
  {
    if n == 0 {
      assert Held(snap, s, n) == {};
    } else {
      LiveIsSupply(snap, s, n - 1);
      HeldOneMore(snap, s, n);
      assert snap.listings[..n][..n - 1] == snap.listings[..n - 1];
    }
  }

  lemma HeldOneMore(snap: Snapshot, s: Slot, n: nat)
    requires 0 < n <= |snap.listings|
    ensures Supply(snap, s, n) == Supply(snap, s, n - 1) + if Occupies(snap.listings[n - 1], s) then 1 else 0
  {
    var before := Held(snap, s, n - 1);
    assert Held(snap, s, n) == before + if Holds(snap.listings[n - 1], s) then {n - 1} else {};
    assert n - 1 !in before;
  }

  // ---- delists ----

  /** Why a listing that is not leased has to go, and since when that must be on record. */
  ghost predicate Departs(snap: Snapshot, i: nat, reason: DelistReason)
    requires i < |snap.listings|
  {
    var l := snap.listings[i];
    && l.state != Leased
    && match reason
       case Orphan => Orphaned(snap, l.hash)
       case Surplus =>
         Open(snap, Slot(l.hash, l.key.ch)) &&
         Supply(snap, Slot(l.hash, l.key.ch), i) >= Demand(snap, Slot(l.hash, l.key.ch))
       case Failover => RouteIs(snap, l.hash, UUPrimary) && l.key.ch == UU && !snap.uuHealthy
       case NotRouted =>
         exists r :: RouteIs(snap, l.hash, r) && !Serves(r, l.key.ch, snap.uuHealthy) &&
                     !(r == UUPrimary && l.key.ch == UU)
  }

  /** The record of an orphan or a surplus copy is at least a grace old; the other reasons need none. */
  predicate Aged(m: Option<Mismatch>, reason: DelistReason, now: int, grace: int)
  {
    match reason
    case Orphan => m.Some? && m.value.reason == OrphanNotRoutable && now - m.value.since >= grace
    case Surplus => m.Some? && m.value.reason == SurplusCopies && now - m.value.since >= grace
    case _ => true
  }

  lemma JudgedDeparts(snap: Snapshot, i: nat, reason: DelistReason)
    requires i < |snap.listings|
    ensures Judge(snap, i) == Remove(reason) <==> Departs(snap, i, reason)
  {
    var l := snap.listings[i];
    var s := Slot(l.hash, l.key.ch);
    RouteOfIs(snap, l.hash);
    RoutedIsOpen(snap, s);
    LiveIsSupply(snap, s, i);
    BudgetIsDemand(snap, s);
    var r := RouteOf(snap, l.hash);
    if r.Some? {
      assert RouteIs(snap, l.hash, r.value);
      ServedIsDesired(r.value, l.key.ch, snap.uuHealthy);
    }
  }

  lemma RemovedIff(snap: Snapshot, now: int, grace: int, i: nat, reason: DelistReason)
    requires i < |snap.listings|
    ensures Removes(snap, now - grace, i) && Judge(snap, i) == Remove(reason) <==>
            Departs(snap, i, reason) && Aged(snap.listings[i].mismatch, reason, now, grace)
  {
    JudgedDeparts(snap, i, reason);
  }

  /**
   Exactly which delists are planned, for every snapshot, time and grace: a listing that is not leased and
   whose hash has no free copy left, or that stands behind as many others as its slot has demand for, goes
   once that reason has been on record for a grace; a listing on a channel that its route does not serve
   goes at once.
   */
  lemma DelistIff(snap: Snapshot, price: Pricing, now: int, grace: int, k: Key, hash: string, reason: DelistReason)
    ensures Delist(k, hash, reason) in PlanOf(snap, price, now, grace) <==>
            exists i: nat | i < |snap.listings| && snap.listings[i].key == k && snap.listings[i].hash == hash ::
            Departs(snap, i, reason) && Aged(snap.listings[i].mismatch, reason, now, grace)
  {
    PlannedIsDelist(snap, price, now, grace, k, hash, reason);
    if Delist(k, hash, reason) in Delists(snap, now - grace, |snap.listings|) {
      var i := DelistSource(snap, now - grace, |snap.listings|, Delist(k, hash, reason));
      RemovedIff(snap, now, grace, i, reason);
    }
    forall i: nat | i < |snap.listings| && snap.listings[i].key == k && snap.listings[i].hash == hash &&
                    Departs(snap, i, reason) && Aged(snap.listings[i].mismatch, reason, now, grace)
      ensures Delist(k, hash, reason) in Delists(snap, now - grace, |snap.listings|)
    {
      AgedIsDelisted(snap, now, grace, i, reason);
    }
  }

  lemma PlannedIsDelist(snap: Snapshot, price: Pricing, now: int, grace: int, k: Key, hash: string,
      reason: DelistReason)
    ensures Delist(k, hash, reason) in PlanOf(snap, price, now, grace) <==>
            Delist(k, hash, reason) in Delists(snap, now - grace, |snap.listings|)
  {
    PublishesSafe(snap, price, |snap.items|);
  }

  lemma AgedIsDelisted(snap: Snapshot, now: int, grace: int, i: nat, reason: DelistReason)
    requires i < |snap.listings| && Departs(snap, i, reason) && Aged(snap.listings[i].mismatch, reason, now, grace)
    ensures Delist(snap.listings[i].key, snap.listings[i].hash, reason) in
            Delists(snap, now - grace, |snap.listings|)
  {
    RemovedIff(snap, now, grace, i, reason);
    RemovedIsDelisted(snap, now - grace, |snap.listings|, i);
  }

  ghost predicate DistinctKeys(snap: Snapshot)
  {
    forall i, j | 0 <= i < j < |snap.listings| :: snap.listings[i].key != snap.listings[j].key
  }

  lemma {:induction false} WatchedRow(snap: Snapshot, n: nat, i: nat)
    requires DistinctKeys(snap) && i < n <= |snap.listings|
    ensures snap.listings[i].key in Watch(snap, n)
    ensures Watch(snap, n)[snap.listings[i].key] == Graced(Judge(snap, i))
  {
    if i < n - 1 { WatchedRow(snap, n - 1, i); }
  }

  lemma {:induction false} WatchedKeys(snap: Snapshot, n: nat)
    requires n <= |snap.listings|
    ensures forall k :: k in Watch(snap, n) <==> exists i | 0 <= i < n :: snap.listings[i].key == k
  {
    if n > 0 { WatchedKeys(snap, n - 1); }
  }

  /** Every listing is observed, and what is put on record is whether it is an orphan or a surplus copy. */
  lemma ObservedIff(snap: Snapshot, i: nat)
    requires DistinctKeys(snap) && i < |snap.listings|
    ensures var obs, k := Watch(snap, |snap.listings|), snap.listings[i].key;
            && (forall x :: x in obs <==> exists j | 0 <= j < |snap.listings| :: snap.listings[j].key == x)
            && (obs[k] == Some(OrphanNotRoutable) <==> Departs(snap, i, Orphan))
            && (obs[k] == Some(SurplusCopies) <==> Departs(snap, i, Surplus))
  {
    WatchedKeys(snap, |snap.listings|);
    WatchedRow(snap, |snap.listings|, i);
    JudgedDeparts(snap, i, Orphan);
    JudgedDeparts(snap, i, Surplus);
  }

  // ---- publishes ----

  /** The assets that a plan publishes to a slot. */
  ghost function Added(plan: seq<Action>, s: Slot): set<string>
  {
    set a | a in plan && a.Publish? && Slot(a.hash, a.ch) == s :: a.asset
  }

  ghost predicate OnSlot(snap: Snapshot, s: Slot, asset: string)
  {
    exists l | l in snap.listings :: l.asset == asset && Slot(l.hash, l.key.ch) == s
  }

  /** A free copy with a price, whose route serves the channel and which is not listed there yet. */
  ghost predicate Offered(snap: Snapshot, price: Pricing, it: Item, ch: Channel)
  {
    && it.asset != "" && !RentedOut(snap, it.asset) && price(ch, it).Some?
    && Open(snap, Slot(it.hash, ch)) && !OnSlot(snap, Slot(it.hash, ch), it.asset)
  }

  lemma ListedIsOnSlot(snap: Snapshot, s: Slot, asset: string)
    ensures Listed(snap.listings, s, asset) <==> OnSlot(snap, s, asset)
  {
    if OnSlot(snap, s, asset) {
      var l :| l in snap.listings && l.asset == asset && Slot(l.hash, l.key.ch) == s;
      var i :| 0 <= i < |snap.listings| && snap.listings[i] == l;
      assert InSlot(snap.listings[i], s);
    }
  }

  lemma PlanAdds(snap: Snapshot, price: Pricing, now: int, grace: int, s: Slot)
    ensures Added(PlanOf(snap, price, now, grace), s) == Placed(Publishes(snap, price, |snap.items|), s)
  {
    var pubs, dels := Publishes(snap, price, |snap.items|), Delists(snap, now - grace, |snap.listings|);
    forall d | d in dels ensures d.Delist? { var i := DelistSource(snap, now - grace, |snap.listings|, d); }
    assert forall a :: a in pubs + dels <==> a in pubs || a in dels;
  }

  /** The offer of an item was taken, or its slot was full by the time its turn came. */
  lemma OfferInTurn(snap: Snapshot, price: Pricing, i: nat, ch: Channel)
    requires i < |snap.items| && Offered(snap, price, snap.items[i], ch)
    ensures var s, placed := Slot(snap.items[i].hash, ch), Placed(Publishes(snap, price, i + 1),
              Slot(snap.items[i].hash, ch));
            snap.items[i].asset in placed || Live(snap.listings, s) + |placed| >= Budget(snap, s)
  {
    var it := snap.items[i];
    LeasedIsRentedOut(snap, it.asset);
    RoutedIsOpen(snap, Slot(it.hash, ch));
    ListedIsOnSlot(snap, Slot(it.hash, ch), it.asset);
    LastItemExhausts(snap, price, i + 1, ch);
  }

  lemma {:induction false} PublishesPrefix(snap: Snapshot, price: Pricing, m: nat, n: nat)
    requires m <= n <= |snap.items|
    ensures Publishes(snap, price, m) <= Publishes(snap, price, n)
  {
    if m < n {
      PublishesPrefix(snap, price, m, n - 1);
      PublishesGrow(snap, price, n);
    }
  }

  lemma PlacedGrows(plan: seq<Action>, more: seq<Action>, s: Slot)
    requires plan <= more
    ensures Placed(plan, s) <= Placed(more, s)
  {
  }

  lemma {:induction false} PublishAllOf(snap: Snapshot, price: Pricing, plan: seq<Action>, it: Item, chs: seq<Channel>)
    ensures forall a | a in PublishAll(snap, price, plan, it, chs) ::
              a in plan || (a.Publish? && a.asset == it.asset && a.hash == it.hash)
  {
    if chs != [] { PublishAllOf(snap, price, plan, it, chs[..|chs| - 1]); }
  }

  /** The assets are those of the first n items, of this hash. */
  ghost predicate From(items: seq<Item>, n: nat, hash: string, assets: set<string>)
    requires n <= |items|
  {
    forall x | x in assets :: exists j | 0 <= j < n :: items[j].asset == x && items[j].hash == hash
  }

  lemma {:induction false} PlacedFrom(snap: Snapshot, price: Pricing, n: nat, s: Slot)
    requires n <= |snap.items|
    ensures From(snap.items, n, s.hash, Placed(Publishes(snap, price, n), s))
  {
    if n > 0 {
      var it := snap.items[n - 1];
      PlacedFrom(snap, price, n - 1, s);
      PublishAllOf(snap, price, Publishes(snap, price, n - 1), it, ChannelsFor(snap, it.hash));
      forall x | x in Placed(Publishes(snap, price, n), s)
        ensures exists j | 0 <= j < n :: snap.items[j].asset == x && snap.items[j].hash == s.hash
      {
        if x !in Placed(Publishes(snap, price, n - 1), s) { assert snap.items[n - 1].asset == x; }
      }
    }
  }

  /** A slot that is full stays as it is. */
  lemma FullSlotIsClosed(snap: Snapshot, price: Pricing, m: nat, s: Slot)
    requires m <= |snap.items|
    requires Live(snap.listings, s) + |Placed(Publishes(snap, price, m), s)| >= Budget(snap, s)
    ensures Placed(Publishes(snap, price, |snap.items|), s) == Placed(Publishes(snap, price, m), s)
  {
    var n := |snap.items|;
    var early, late := Placed(Publishes(snap, price, m), s), Placed(Publishes(snap, price, n), s);
    PublishesPrefix(snap, price, m, n);
    PlacedGrows(Publishes(snap, price, m), Publishes(snap, price, n), s);
    PublishesSafe(snap, price, n);
    SubsetSize(early, late);
    EqualBySize(early, late);
  }

  lemma EqualBySize<T>(a: set<T>, b: set<T>)
    requires a <= b && |b| <= |a|
    ensures a == b
  {
    assert b == a + (b - a);
  }

  /** The slot's budget and rows in the words of this module. */
  lemma SlotInWords(snap: Snapshot, price: Pricing, now: int, grace: int, s: Slot)
    ensures Added(PlanOf(snap, price, now, grace), s) == Placed(Publishes(snap, price, |snap.items|), s)
    ensures Budget(snap, s) == Demand(snap, s) && Live(snap.listings, s) == Supply(snap, s, |snap.listings|)
  {
    PlanAdds(snap, price, now, grace, s);
    BudgetIsDemand(snap, s);
    LiveIsSupply(snap, s, |snap.listings|);
    assert snap.listings[..|snap.listings|] == snap.listings;
  }

  lemma MissedOffer(snap: Snapshot, price: Pricing, i: nat, ch: Channel)
    requires i < |snap.items| && Offered(snap, price, snap.items[i], ch)
    requires snap.items[i].asset !in Placed(Publishes(snap, price, |snap.items|), Slot(snap.items[i].hash, ch))
    ensures var s := Slot(snap.items[i].hash, ch);
            var placed := Placed(Publishes(snap, price, |snap.items|), s);
            && Live(snap.listings, s) + |placed| >= Budget(snap, s)
            && From(snap.items, i, s.hash, placed)
  {
    var s := Slot(snap.items[i].hash, ch);
    var placed := Placed(Publishes(snap, price, i + 1), s);
    assert placed == Placed(Publishes(snap, price, |snap.items|), s) &&
      Live(snap.listings, s) + |placed| >= Budget(snap, s) by {
      PublishesPrefix(snap, price, i + 1, |snap.items|);
      PlacedGrows(Publishes(snap, price, i + 1), Publishes(snap, price, |snap.items|), s);
      OfferInTurn(snap, price, i, ch);
      FullSlotIsClosed(snap, price, i + 1, s);
    }
    PlacedFrom(snap, price, i + 1, s);
    FromOthers(snap.items, i, s.hash, placed);
  }

  lemma FromOthers(items: seq<Item>, i: nat, hash: string, assets: set<string>)
    requires i < |items| && From(items, i + 1, hash, assets) && items[i].asset !in assets
    ensures From(items, i, hash, assets)
  {
  }

  /**
   Exactly when an item's offer is taken: it is, unless the slot's demand was met, counting what is listed
   and not leased, by assets of earlier copies.
   */
  lemma OfferIff(snap: Snapshot, price: Pricing, now: int, grace: int, i: nat, ch: Channel)
    requires i < |snap.items| && Offered(snap, price, snap.items[i], ch)
    ensures var s := Slot(snap.items[i].hash, ch);
            var added := Added(PlanOf(snap, price, now, grace), s);
            if snap.items[i].asset in added then Supply(snap, s, |snap.listings|) + |added| <= Demand(snap, s)
            else
              && Supply(snap, s, |snap.listings|) + |added| >= Demand(snap, s)
              && From(snap.items, i, s.hash, added)
  {
    var it, s, pubs := snap.items[i], Slot(snap.items[i].hash, ch), Publishes(snap, price, |snap.items|);
    SlotInWords(snap, price, now, grace, s);
    if it.asset in Placed(pubs, s) {
      PublishesSafe(snap, price, |snap.items|);
      TakenFits(snap, pubs, s, it.asset);
    } else {
      MissedOffer(snap, price, i, ch);
    }
  }

  lemma TakenFits(snap: Snapshot, pubs: seq<Action>, s: Slot, asset: string)
    requires SafePublishes(snap, pubs) && asset in Placed(pubs, s)
    ensures Live(snap.listings, s) + |Placed(pubs, s)| <= Budget(snap, s)
  {
    var p :| p in pubs && p.Publish? && p.hash == s.hash && p.ch == s.ch && p.asset == asset;
    PublishedSlotIsShort(snap, pubs, p);
  }

  /** Only offers are taken, each at its item's own price, and all publishes come before the delists. */
  lemma OnlyOffersAreTaken(snap: Snapshot, price: Pricing, now: int, grace: int, a: Action)
    requires a in PlanOf(snap, price, now, grace) && a.Publish?
    ensures exists it | it in snap.items && it.asset == a.asset && it.hash == a.hash ::
              Offered(snap, price, it, a.ch) && price(a.ch, it) == Some(a.terms)
  {
    var pubs, dels := Publishes(snap, price, |snap.items|), Delists(snap, now - grace, |snap.listings|);
    if a in dels { var i := DelistSource(snap, now - grace, |snap.listings|, a); }
    PublishesSafe(snap, price, |snap.items|);
    PublishesJustified(snap, price, |snap.items|);
    assert GoodPublish(snap, a) && Justified(snap, price, a);
    var it :| it in snap.items && it.asset == a.asset && it.hash == a.hash && price(a.ch, it) == Some(a.terms);
    LeasedIsRentedOut(snap, it.asset);
    RoutedIsOpen(snap, Slot(a.hash, a.ch));
    ListedIsOnSlot(snap, Slot(a.hash, a.ch), a.asset);
  }

  lemma PublishesComeFirst(snap: Snapshot, price: Pricing, now: int, grace: int, i: nat, j: nat)
    requires i < j < |PlanOf(snap, price, now, grace)| && PlanOf(snap, price, now, grace)[j].Publish?
    ensures PlanOf(snap, price, now, grace)[i].Publish?
  {
    var pubs, dels := Publishes(snap, price, |snap.items|), Delists(snap, now - grace, |snap.listings|);
    PublishesSafe(snap, price, |snap.items|);
    if j >= |pubs| {
      assert dels[j - |pubs|] in dels;
      var k := DelistSource(snap, now - grace, |snap.listings|, dels[j - |pubs|]);
    } else {
      assert pubs[i] in pubs;
    }
  }
}
