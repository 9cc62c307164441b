/**
 The reconciliation core `planFrom`: desired shelf state against actual listings.

 `Plan` below is the imperative planner with its maps and counters; it is proved equal to
 the publish fold `Publishes` and the row-by-row verdicts `Judge`, and the safety lemmas
 are stated about those for every snapshot and every pricing function.
 */
module Recon {
  import opened Domain
  import opened Listings

  datatype Route = UUOnly | ECOOnly | UUPrimary | Both

  /** A routable inventory row; `anchor` is what the pricing function looks at. */
  datatype Item = Item(asset: string, hash: string, route: Route, anchor: Option<int>)

  /** A row of AllActiveListings. */
  datatype Listing = Listing(key: Key, hash: string, asset: string, state: ActualState, mismatch: Option<Mismatch>)

  datatype Snapshot = Snapshot(items: seq<Item>, listings: seq<Listing>, uuHealthy: bool)

  datatype DelistReason = Orphan | NotRouted | Failover | Surplus

  datatype Action =
    | Publish(ch: Channel, asset: string, hash: string, terms: Terms)
    | Delist(key: Key, hash: string, reason: DelistReason)

  /** The pricing decision for a channel; None stands for nil or a skip. */
  type Pricing = (Channel, Item) -> Option<Terms>

  /** The (hash, channel) pair that every budget is kept for. */
  datatype Slot = Slot(hash: string, ch: Channel)

  // ---- desired state ----

  function DesiredChannels(route: Route, uuHealthy: bool): (chs: seq<Channel>)
    ensures chs != [] && forall i, j | 0 <= i < j < |chs| :: chs[i] != chs[j]
  {
    match route
    case UUOnly => [UU]
    case ECOOnly => [ECO]
    case UUPrimary => if uuHealthy then [UU] else [ECO]
    case Both => [UU, ECO]
  }

  function LeasedAssets(ls: seq<Listing>): set<string>
  {
    set l | l in ls && l.state == Leased && l.asset != "" :: l.asset
  }

  /** The route of the last routable item with this hash: later items overwrite earlier ones. */
  function LastRoute(items: seq<Item>, leased: set<string>, hash: string): Option<Route>
  {
    if items == [] then None
    else
      var it := items[|items| - 1];
      if it.asset !in leased && it.hash == hash then Some(it.route)
      else LastRoute(items[..|items| - 1], leased, hash)
  }

  /** Distinct routable assets whose own route reaches the slot's channel. */
  function Wanted(items: seq<Item>, leased: set<string>, uuHealthy: bool, s: Slot): set<string>
  {
    set it | it in items && it.asset !in leased && it.hash == s.hash && s.ch in DesiredChannels(it.route, uuHealthy)
      :: it.asset
  }

  function RouteOf(snap: Snapshot, hash: string): Option<Route>
  {
    LastRoute(snap.items, LeasedAssets(snap.listings), hash)
  }

  function Budget(snap: Snapshot, s: Slot): nat
  {
    |Wanted(snap.items, LeasedAssets(snap.listings), snap.uuHealthy, s)|
  }

  predicate Routed(snap: Snapshot, s: Slot)
  {
    var r := RouteOf(snap, s.hash);
    r.Some? && s.ch in DesiredChannels(r.value, snap.uuHealthy)
  }

  // ---- actual state ----

  predicate InSlot(l: Listing, s: Slot) { l.hash == s.hash && l.key.ch == s.ch }

  predicate Occupies(l: Listing, s: Slot) { InSlot(l, s) && l.state != Leased }

  /** Non-leased listings of a slot. */
  function Live(ls: seq<Listing>, s: Slot): nat
  {
    if ls == [] then 0
    else Live(ls[..|ls| - 1], s) + if Occupies(ls[|ls| - 1], s) then 1 else 0
  }

  predicate Listed(ls: seq<Listing>, s: Slot, asset: string)
  {
    exists i | 0 <= i < |ls| :: InSlot(ls[i], s) && ls[i].asset == asset
  }

  // ---- publish pass ----

  /** Assets already published to a slot by a plan. */
  function Placed(plan: seq<Action>, s: Slot): set<string>
  {
    set a | a in plan && a.Publish? && a.hash == s.hash && a.ch == s.ch :: a.asset
  }

  predicate MayPublish(snap: Snapshot, price: Pricing, plan: seq<Action>, it: Item, ch: Channel)
  {
    var s := Slot(it.hash, ch);
    && it.asset !in Placed(plan, s)
    && !Listed(snap.listings, s, it.asset)
    && Live(snap.listings, s) + |Placed(plan, s)| < Budget(snap, s)
    && price(ch, it).Some?
  }

  function PublishOn(snap: Snapshot, price: Pricing, plan: seq<Action>, it: Item, ch: Channel): seq<Action>
  {
    if MayPublish(snap, price, plan, it, ch)
    then plan + [Publish(ch, it.asset, it.hash, price(ch, it).value)]
    else plan
  }

  function PublishAll(snap: Snapshot, price: Pricing, plan: seq<Action>, it: Item, chs: seq<Channel>): seq<Action>
  {
    if chs == [] then plan
    else PublishOn(snap, price, PublishAll(snap, price, plan, it, chs[..|chs| - 1]), it, chs[|chs| - 1])
  }

  predicate Publishable(snap: Snapshot, it: Item)
  {
    it.asset != "" && it.asset !in LeasedAssets(snap.listings)
  }

  /** The channels of an item's hash; none when the hash left the routable inventory. */
  function ChannelsFor(snap: Snapshot, hash: string): seq<Channel>
  {
    var r := RouteOf(snap, hash);
    if r.Some? then DesiredChannels(r.value, snap.uuHealthy) else []
  }

  function Publishes(snap: Snapshot, price: Pricing, n: nat): seq<Action>
    requires n <= |snap.items|
  {
    if n == 0 then []
    else
      var it := snap.items[n - 1];
      var plan := Publishes(snap, price, n - 1);
      if Publishable(snap, it) then PublishAll(snap, price, plan, it, ChannelsFor(snap, it.hash)) else plan
  }

  // ---- delist pass ----

  datatype Verdict = Keep | Remove(reason: DelistReason)

  /** A routed row is surplus when its slot is already full of rows earlier in the scan. */
  function Judge(snap: Snapshot, i: nat): Verdict
    requires i < |snap.listings|
  {
    var l := snap.listings[i];
    var s := Slot(l.hash, l.key.ch);
    var r := RouteOf(snap, l.hash);
    if l.state == Leased then Keep
    else if r == None then Remove(Orphan)
    else if s.ch !in DesiredChannels(r.value, snap.uuHealthy) then
      Remove(if s.ch == UU && !snap.uuHealthy && r.value == UUPrimary then Failover else NotRouted)
    else if Live(snap.listings[..i], s) >= Budget(snap, s) then Remove(Surplus)
    else Keep
  }

  /** Orphan and surplus verdicts are observed and wait out the grace period. */
  function Graced(v: Verdict): Option<MismatchReason>
  {
    match v
    case Remove(Orphan) => Some(OrphanNotRoutable)
    case Remove(Surplus) => Some(SurplusCopies)
    case _ => None
  }

  predicate Served(l: Listing, reason: MismatchReason, cutoff: int)
  {
    l.mismatch.Some? && l.mismatch.value.reason == reason && l.mismatch.value.since <= cutoff
  }

  predicate Removes(snap: Snapshot, cutoff: int, i: nat)
    requires i < |snap.listings|
  {
    var v := Judge(snap, i);
    v.Remove? && (Graced(v).Some? ==> Served(snap.listings[i], Graced(v).value, cutoff))
  }

  function DelistOf(snap: Snapshot, i: nat): Action
    requires i < |snap.listings| && Judge(snap, i).Remove?
  {
    Delist(snap.listings[i].key, snap.listings[i].hash, Judge(snap, i).reason)
  }

  function Delists(snap: Snapshot, cutoff: int, n: nat): seq<Action>
    requires n <= |snap.listings|
  {
    if n == 0 then []
    else if Removes(snap, cutoff, n - 1) then Delists(snap, cutoff, n - 1) + [DelistOf(snap, n - 1)]
    else Delists(snap, cutoff, n - 1)
  }

  function Watch(snap: Snapshot, n: nat): Observations
    requires n <= |snap.listings|
  {
    if n == 0 then map[] else Watch(snap, n - 1)[snap.listings[n - 1].key := Graced(Judge(snap, n - 1))]
  }

  function PlanOf(snap: Snapshot, price: Pricing, now: int, grace: int): seq<Action>
  {
    Publishes(snap, price, |snap.items|) + Delists(snap, now - grace, |snap.listings|)
  }

  // ---- the imperative planner ----

  method Plan(snap: Snapshot, price: Pricing, now: int, grace: int)
    returns (plan: seq<Action>, observations: Observations)
    ensures plan == PlanOf(snap, price, now, grace)
    ensures observations == Watch(snap, |snap.listings|)
  {
    var leased := CollectLeased(snap.listings);
    var distinct, routes := CollectDesired(snap, leased);
    plan := PublishPass(snap, price, leased, distinct, routes);
    var delists, obs := DelistPass(snap, now, grace, distinct, routes);
    plan := plan + delists;
    observations := obs;
  }

  method CollectLeased(ls: seq<Listing>) returns (leased: set<string>)
    ensures leased == LeasedAssets(ls)
  {
    leased := {};
    for i := 0 to |ls|
      invariant leased == LeasedAssets(ls[..i])
    {
      if ls[i].state == Leased && ls[i].asset != "" {
        leased := leased + {ls[i].asset};
      }
      assert ls[..i + 1] == ls[..i] + [ls[i]];
    }
    assert ls[..|ls|] == ls;
  }

  function Get(m: map<Slot, set<string>>, s: Slot): set<string> { if s in m then m[s] else {} }

  function RouteIn(m: map<string, Route>, h: string): Option<Route> { if h in m then Some(m[h]) else None }

  /** First loop: wanted distinct assets per slot and the route per hash. */
  method CollectDesired(snap: Snapshot, leased: set<string>)
    returns (distinct: map<Slot, set<string>>, routes: map<string, Route>)
    ensures forall s :: Get(distinct, s) == Wanted(snap.items, leased, snap.uuHealthy, s)
    ensures forall h :: RouteIn(routes, h) == LastRoute(snap.items, leased, h)
  {
    distinct, routes := map[], map[];
    for i := 0 to |snap.items|
      invariant forall s :: Get(distinct, s) == Wanted(snap.items[..i], leased, snap.uuHealthy, s)
      invariant forall h :: RouteIn(routes, h) == LastRoute(snap.items[..i], leased, h)
    {
      var it := snap.items[i];
      WantedStep(snap.items, i, leased, snap.uuHealthy);
      RouteStep(snap.items, i, leased);
      ghost var routed := routes;
      if it.asset !in leased {
        routes := routes[it.hash := it.route];
        distinct := CountAsset(distinct, it, DesiredChannels(it.route, snap.uuHealthy));
      }
      forall h ensures RouteIn(routes, h) == LastRoute(snap.items[..i + 1], leased, h) {
        assert RouteIn(routed, h) == LastRoute(snap.items[..i], leased, h);
      }
    }
    assert snap.items[..|snap.items|] == snap.items;
  }

  method CountAsset(before: map<Slot, set<string>>, it: Item, chs: seq<Channel>)
      returns (distinct: map<Slot, set<string>>)
    ensures forall s :: Get(distinct, s) == Get(before, s) + Singleton(s.hash == it.hash && s.ch in chs, it.asset)
  {
    distinct := before;
    for c := 0 to |chs|
      invariant forall s ::
                  Get(distinct, s) == Get(before, s) + Singleton(s.hash == it.hash && s.ch in chs[..c], it.asset)
    {
      var s := Slot(it.hash, chs[c]);
      distinct := distinct[s := Get(distinct, s) + {it.asset}];
      assert chs[..c + 1] == chs[..c] + [chs[c]];
    }
    assert chs[..|chs|] == chs;
  }

  function Singleton(yes: bool, asset: string): set<string> { if yes then {asset} else {} }

  function Share(it: Item, leased: set<string>, uuHealthy: bool, s: Slot): set<string>
  {
    Singleton(it.asset !in leased && it.hash == s.hash && s.ch in DesiredChannels(it.route, uuHealthy), it.asset)
  }

  lemma WantedStep(items: seq<Item>, i: nat, leased: set<string>, uuHealthy: bool)
    requires i < |items|
    ensures forall s ::
              Wanted(items[..i + 1], leased, uuHealthy, s) ==
              Wanted(items[..i], leased, uuHealthy, s) + Share(items[i], leased, uuHealthy, s)
  {
    assert items[..i + 1] == items[..i] + [items[i]];
  }

  lemma RouteStep(items: seq<Item>, i: nat, leased: set<string>)
    requires i < |items|
    ensures forall h | items[i].asset in leased || items[i].hash != h ::
            LastRoute(items[..i + 1], leased, h) == LastRoute(items[..i], leased, h)
    ensures items[i].asset !in leased ==> LastRoute(items[..i + 1], leased, items[i].hash) == Some(items[i].route)
  {
    assert items[..i + 1][..i] == items[..i];
  }

  /** The inner scan of the publish pass. */
  method Scan(ls: seq<Listing>, s: Slot, asset: string) returns (listed: bool, live: nat)
    ensures listed <==> Listed(ls, s, asset)
    ensures live == Live(ls, s)
  {
    listed, live := false, 0;
    for i := 0 to |ls|
      invariant listed <==> exists j | 0 <= j < i :: InSlot(ls[j], s) && ls[j].asset == asset
      invariant live == Live(ls[..i], s)
    {
      if InSlot(ls[i], s) {
        if ls[i].asset == asset { listed := true; }
        if ls[i].state != Leased { live := live + 1; }
      }
      assert ls[..i + 1][..i] == ls[..i];
    }
    assert ls[..|ls|] == ls;
  }

  method PublishPass(snap: Snapshot, price: Pricing, leased: set<string>, distinct: map<Slot, set<string>>,
      routes: map<string, Route>)
    returns (plan: seq<Action>)
    requires leased == LeasedAssets(snap.listings)
    requires forall s :: Get(distinct, s) == Wanted(snap.items, leased, snap.uuHealthy, s)
    requires forall h :: RouteIn(routes, h) == LastRoute(snap.items, leased, h)
    ensures plan == Publishes(snap, price, |snap.items|)
  {
    plan := [];
    var planned: map<Slot, set<string>> := map[];
    for i := 0 to |snap.items|
      invariant plan == Publishes(snap, price, i)
      invariant forall s :: Get(planned, s) == Placed(plan, s)
    {
      var it := snap.items[i];
      if it.asset != "" && it.asset !in leased {
        assert RouteIn(routes, it.hash) == RouteOf(snap, it.hash);
        var chs := if it.hash in routes then DesiredChannels(routes[it.hash], snap.uuHealthy) else [];
        ghost var start := plan;
        for c := 0 to |chs|
          invariant plan == PublishAll(snap, price, start, it, chs[..c])
          invariant forall s :: Get(planned, s) == Placed(plan, s)
        {
          assert chs[..c + 1][..c] == chs[..c];
          plan, planned := PublishOne(snap, price, distinct, plan, planned, it, chs[c]);
        }
        assert chs[..|chs|] == chs;
      }
    }
  }

  method PublishOne(snap: Snapshot, price: Pricing, distinct: map<Slot, set<string>>, plan: seq<Action>,
                    planned: map<Slot, set<string>>, it: Item, ch: Channel)
    returns (plan': seq<Action>, planned': map<Slot, set<string>>)
    requires forall s :: Get(distinct, s) == Wanted(snap.items, LeasedAssets(snap.listings), snap.uuHealthy, s)
    requires forall s :: Get(planned, s) == Placed(plan, s)
    ensures plan' == PublishOn(snap, price, plan, it, ch)
    ensures forall s :: Get(planned', s) == Placed(plan', s)
  {
    plan', planned' := plan, planned;
    var s := Slot(it.hash, ch);
    assert Get(planned, s) == Placed(plan, s);
    if it.asset in Get(planned, s) { return; }
    var listed, live := Scan(snap.listings, s, it.asset);
    if listed || live + |Get(planned, s)| >= |Get(distinct, s)| { return; }
    var d := price(ch, it);
    if d == None { return; }
    planned' := planned[s := Get(planned, s) + {it.asset}];
    plan' := plan + [Publish(ch, it.asset, it.hash, d.value)];
    PlacedStep(plan, ch, it, d.value);
  }

  lemma PlacedStep(plan: seq<Action>, ch: Channel, it: Item, terms: Terms)
    ensures forall s ::
              Placed(plan + [Publish(ch, it.asset, it.hash, terms)], s) ==
              Placed(plan, s) + Singleton(s == Slot(it.hash, ch), it.asset)
  {
    var a := Publish(ch, it.asset, it.hash, terms);
    forall s
      ensures Placed(plan + [a], s) == Placed(plan, s) + Singleton(s == Slot(it.hash, ch), it.asset)
    {
      assert forall x :: x in plan + [a] <==> x in plan || x == a;
    }
  }

  function Kept(m: map<Slot, nat>, s: Slot): nat { if s in m then m[s] else 0 }

  /** A routed slot has kept its rows so far, up to its budget. */
  ghost predicate KeptSoFar(snap: Snapshot, kept: map<Slot, nat>, i: nat)
    requires i <= |snap.listings|
  {
    forall s | Routed(snap, s) :: Kept(kept, s) == Min(Live(snap.listings[..i], s), Budget(snap, s))
  }

  method Misplaced(snap: Snapshot, routes: map<string, Route>, i: nat) returns (reason: DelistReason)
    requires i < |snap.listings| && snap.listings[i].state != Leased
    requires RouteIn(routes, snap.listings[i].hash) == RouteOf(snap, snap.listings[i].hash)
    requires !Routed(snap, Slot(snap.listings[i].hash, snap.listings[i].key.ch))
    ensures Judge(snap, i) == Remove(reason) && reason != Surplus
  {
    var l := snap.listings[i];
    if l.hash !in routes { return Orphan; }
    reason := NotRouted;
    if l.key.ch == UU && !snap.uuHealthy && routes[l.hash] == UUPrimary { reason := Failover; }
  }

  /** The switch of the delist pass: why a row goes, or that it is kept within its slot's budget. */
  method SwitchReason(snap: Snapshot, distinct: map<Slot, set<string>>, routes: map<string, Route>,
      kept: map<Slot, nat>, i: nat)
    returns (reason: Option<DelistReason>)
    requires i < |snap.listings| && snap.listings[i].state != Leased
    requires RouteIn(routes, snap.listings[i].hash) == RouteOf(snap, snap.listings[i].hash)
    requires var s := Slot(snap.listings[i].hash, snap.listings[i].key.ch);
             && |Get(distinct, s)| == Budget(snap, s) && KeptSoFar(snap, kept, i)
    ensures Judge(snap, i) == if reason == None then Keep else Remove(reason.value)
  {
    var l := snap.listings[i];
    var s := Slot(l.hash, l.key.ch);
    if !(l.hash in routes && l.key.ch in DesiredChannels(routes[l.hash], snap.uuHealthy)) {
      var why := Misplaced(snap, routes, i);
      return Some(why);
    }
    reason := if Kept(kept, s) >= |Get(distinct, s)| then Some(Surplus) else None;
  }

  lemma KeptStep(snap: Snapshot, kept: map<Slot, nat>, kept': map<Slot, nat>, i: nat)
    requires i < |snap.listings|
    requires KeptSoFar(snap, kept, i)
    requires var l := snap.listings[i]; var s := Slot(l.hash, l.key.ch);
             kept' == if l.state != Leased && Judge(snap, i) == Keep then kept[s := Kept(kept, s) + 1] else kept
    ensures KeptSoFar(snap, kept', i + 1)
  {
    assert snap.listings[..i + 1][..i] == snap.listings[..i];
  }

  /** Orphan and surplus reasons are put on record and wait out their grace. */
  method Matured(l: Listing, reason: DelistReason, cutoff: int) returns (why: Option<MismatchReason>, due: bool)
    ensures why == Graced(Remove(reason))
    ensures due <==> (why.Some? ==> Served(l, why.value, cutoff))
  {
    if reason != Orphan && reason != Surplus { return None, true; }
    var r := if reason == Orphan then OrphanNotRoutable else SurplusCopies;
    why := Some(r);
    due := !(l.mismatch == None || l.mismatch.value.reason != r || l.mismatch.value.since > cutoff);
  }

  method DelistPass(snap: Snapshot, now: int, grace: int, distinct: map<Slot, set<string>>, routes: map<string, Route>)
    returns (plan: seq<Action>, observations: Observations)
    requires forall s :: Get(distinct, s) == Wanted(snap.items, LeasedAssets(snap.listings), snap.uuHealthy, s)
    requires forall h :: RouteIn(routes, h) == RouteOf(snap, h)
    ensures plan == Delists(snap, now - grace, |snap.listings|)
    ensures observations == Watch(snap, |snap.listings|)
  {
    plan, observations := [], map[];
    var kept: map<Slot, nat> := map[];
    var cutoff := now - grace;
    for i := 0 to |snap.listings|
      invariant plan == Delists(snap, cutoff, i)
      invariant observations == Watch(snap, i)
      invariant KeptSoFar(snap, kept, i)
    {
      var l := snap.listings[i];
      var s := Slot(l.hash, l.key.ch);
      observations := observations[l.key := None];
      if l.state == Leased {
        KeptStep(snap, kept, kept, i);
        continue;
      }
      var reason := SwitchReason(snap, distinct, routes, kept, i);
      if reason == None {
        KeptStep(snap, kept, kept[s := Kept(kept, s) + 1], i);
        kept := kept[s := Kept(kept, s) + 1];
        continue;
      }
      KeptStep(snap, kept, kept, i);
      var why, due := Matured(l, reason.value, cutoff);
      observations := observations[l.key := why];
      if due { plan := plan + [Delist(l.key, l.hash, reason.value)]; }
    }
  }
}
