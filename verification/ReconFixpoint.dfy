/**
 The idempotency contract of reconciliation: once a plan is executed and written back, the next
 planning cycle replans to nothing, whatever order the database returns rows in. The upsert of a
 publish keeps the asset and hash of a row that already carries the echoed id; the exact condition
 on such ids is part of the theorem.
 */
module ReconFixpoint {
  import opened Domain
  import opened Listings
  import opened Recon
  import opened ReconSafety

  function View(k: Key, r: Row): Listing { Listing(k, r.hash, r.asset, r.state, r.mismatch) }

  /** AllActiveListings: the active and leased rows, once each, in any order. */
  ghost predicate Enumerates(ls: seq<Listing>, t: Table)
  {
    && (forall i, j | 0 <= i < j < |ls| :: ls[i].key != ls[j].key)
    && (forall i | 0 <= i < |ls| :: ls[i].key in t && OnShelf(t[ls[i].key]) && ls[i] == View(ls[i].key, t[ls[i].key]))
    && (forall k | k in t && OnShelf(t[k]) :: View(k, t[k]) in ls)
  }

  // ---- write-backs ----

  /** The platform's answer to one action: the echoed listing id, and the database time of its write-back. */
  datatype Echo = Echo(ref: string, at: int)

  function Target(a: Action, e: Echo): Key { if a.Publish? then Key(a.ch, e.ref) else a.key }

  /** writeBackPublish and writeBackDelist after a confirmed platform effect. */
  function WriteBack(t: Table, a: Action, e: Echo): Table
  {
    match a
    case Publish(ch, asset, hash, terms) => RecordPublished(t, Key(ch, e.ref), asset, hash, terms, e.at)
    case Delist(key, _, _) => MarkDelisted(t, key, e.at)
  }

  function WriteBacks(t: Table, plan: seq<Action>, refs: seq<Echo>): Table
    requires |refs| == |plan|
  {
    if plan == [] then t
    else
      var n := |plan| - 1;
      WriteBack(WriteBacks(t, plan[..n], refs[..n]), plan[n], refs[n])
  }

  /** The hash a published row is stored under: an old row with the echoed id keeps its own. */
  function StoredHash(t: Table, a: Action, e: Echo): string
    requires a.Publish?
  {
    if Target(a, e) in t then t[Target(a, e)].hash else a.hash
  }

  function StoredAsset(t: Table, a: Action, e: Echo): string
    requires a.Publish?
  {
    if Target(a, e) in t then t[Target(a, e)].asset else a.asset
  }

  /** The slot a published row lands in. */
  function Home(t: Table, a: Action, e: Echo): Slot
    requires a.Publish?
  {
    Slot(StoredHash(t, a, e), a.ch)
  }

  /** The platform echoes an id for every publish: not one of a listing on the shelf, and not the same one twice. */
  ghost predicate EchoOk(t: Table, plan: seq<Action>, refs: seq<Echo>)
  {
    && |refs| == |plan|
    && (forall i | 0 <= i < |plan| && plan[i].Publish? ::
          refs[i].ref != "" && (Target(plan[i], refs[i]) in t ==> !OnShelf(t[Target(plan[i], refs[i])])))
    && (forall i, j | 0 <= i < j < |plan| && plan[i].Publish? && plan[j].Publish? ::
          Target(plan[i], refs[i]) != Target(plan[j], refs[j]))
  }

  ghost predicate DelistsOnShelf(t: Table, plan: seq<Action>)
  {
    forall i | 0 <= i < |plan| && plan[i].Delist? :: plan[i].key in t && OnShelf(t[plan[i].key])
  }

  ghost predicate Untouched(plan: seq<Action>, refs: seq<Echo>, k: Key)
    requires |refs| == |plan|
  {
    forall i | 0 <= i < |plan| :: Target(plan[i], refs[i]) != k
  }

  /** What the write-backs leave at a key, for each way a plan can touch it. */
  ghost predicate LeftAlone(t: Table, t': Table, k: Key) { (k in t' <==> k in t) && (k in t ==> t'[k] == t[k]) }

  ghost predicate TakenDown(t': Table, k: Key) { k in t' && t'[k].state == Gone }

  ghost predicate PutUp(t: Table, t': Table, a: Action, e: Echo)
    requires a.Publish?
  {
    var k := Target(a, e);
    k in t' && t'[k].state == Active && t'[k].terms == a.terms && t'[k].mismatch == None && t'[k].syncedAt == Some(e.at)
    && t'[k].hash == StoredHash(t, a, e) && t'[k].asset == StoredAsset(t, a, e)
  }

  ghost predicate Landed(t: Table, plan: seq<Action>, refs: seq<Echo>, t': Table)
    requires |refs| == |plan|
  {
    && (forall k | Untouched(plan, refs, k) :: LeftAlone(t, t', k))
    && (forall i | 0 <= i < |plan| && plan[i].Delist? :: TakenDown(t', plan[i].key))
    && (forall i | 0 <= i < |plan| && plan[i].Publish? :: PutUp(t, t', plan[i], refs[i]))
  }

  lemma LandStep(t: Table, plan: seq<Action>, refs: seq<Echo>, n: nat, t0: Table)
    requires |refs| == |plan| == n + 1
    requires Landed(t, plan[..n], refs[..n], t0)
    requires forall i | 0 <= i < n && (plan[i].Publish? || plan[n].Publish?) ::
             Target(plan[i], refs[i]) != Target(plan[n], refs[n])
    requires plan[n].Delist? ==> plan[n].key in t
    ensures Landed(t, plan, refs, WriteBack(t0, plan[n], refs[n]))
  {
    var k, t' := Target(plan[n], refs[n]), WriteBack(t0, plan[n], refs[n]);
    var p0, r0 := plan[..n], refs[..n];
    assert forall i | 0 <= i < n :: p0[i] == plan[i] && r0[i] == refs[i];
    assert forall x | x != k :: LeftAlone(t0, t', x);
    forall x | Untouched(plan, refs, x) ensures LeftAlone(t, t', x) {
      assert Target(plan[n], refs[n]) != x;
      assert Untouched(p0, r0, x);
    }
    if Untouched(p0, r0, k) {
      assert LeftAlone(t, t0, k);
    } else {
      var i :| 0 <= i < n && Target(p0[i], r0[i]) == k;
      assert TakenDown(t0, plan[i].key);
    }
    forall i | 0 <= i < n && plan[i].Delist? ensures TakenDown(t', plan[i].key) {
      assert TakenDown(t0, p0[i].key);
    }
    forall i | 0 <= i < n && plan[i].Publish? ensures PutUp(t, t', plan[i], refs[i]) {
      assert PutUp(t, t0, p0[i], r0[i]);
      assert LeftAlone(t0, t', Target(plan[i], refs[i]));
    }
  }

  /**
   A whole run of write-backs: published rows are up with their terms, delisted rows are gone, and no
   other row changes.
   */
  lemma {:induction false} WriteBacksLand(t: Table, plan: seq<Action>, refs: seq<Echo>)
    requires EchoOk(t, plan, refs) && DelistsOnShelf(t, plan)
    ensures Landed(t, plan, refs, WriteBacks(t, plan, refs))
  {
    if plan != [] {
      var n := |plan| - 1;
      var p0, r0 := plan[..n], refs[..n];
      assert forall i | 0 <= i < n :: p0[i] == plan[i] && r0[i] == refs[i];
      assert EchoOk(t, p0, r0) && DelistsOnShelf(t, p0);
      WriteBacksLand(t, p0, r0);
      forall i | 0 <= i < n && (plan[i].Publish? || plan[n].Publish?)
        ensures Target(plan[i], refs[i]) != Target(plan[n], refs[n])
      {
      }
      LandStep(t, plan, refs, n, WriteBacks(t, p0, r0));
    }
  }

  // ---- counting rows against keys ----

  function KeysOf(ls: seq<Listing>, s: Slot): set<Key> { set l | l in ls && Occupies(l, s) :: l.key }

  ghost predicate DistinctKeys(ls: seq<Listing>)
  {
    forall i, j | 0 <= i < j < |ls| :: ls[i].key != ls[j].key
  }

  lemma KeysStep(ls: seq<Listing>, l: Listing, s: Slot)
    ensures KeysOf(ls + [l], s) == KeysOf(ls, s) + if Occupies(l, s) then {l.key} else {}
  {
    assert forall x :: x in ls + [l] <==> x in ls || x == l;
  }

  lemma KeyOfRow(ls: seq<Listing>, s: Slot, k: Key) returns (i: nat)
    requires k in KeysOf(ls, s)
    ensures i < |ls| && ls[i].key == k && Occupies(ls[i], s)
  {
    var l :| l in ls && Occupies(l, s) && l.key == k;
    i :| 0 <= i < |ls| && ls[i] == l;
  }

  lemma {:induction false} LiveCountsKeys(ls: seq<Listing>, s: Slot)
    requires DistinctKeys(ls)
    ensures Live(ls, s) == |KeysOf(ls, s)|
  {
    if ls != [] {
      var pre, l := ls[..|ls| - 1], ls[|ls| - 1];
      LiveCountsKeys(pre, s);
      assert ls == pre + [l];
      KeysStep(pre, l, s);
      if l.key in KeysOf(pre, s) { var i := KeyOfRow(pre, s, l.key); }
    }
  }

  /** Keys of a slot's rows within the first b places of the scan. */
  function Front(ls: seq<Listing>, s: Slot, b: nat): set<Key>
  {
    if ls == [] then {}
    else
      var pre, l := ls[..|ls| - 1], ls[|ls| - 1];
      Front(pre, s, b) + if Occupies(l, s) && Live(pre, s) < b then {l.key} else {}
  }

  lemma {:induction false} FrontRow(ls: seq<Listing>, s: Slot, b: nat, k: Key) returns (i: nat)
    requires k in Front(ls, s, b)
    ensures i < |ls| && ls[i].key == k && Occupies(ls[i], s) && Live(ls[..i], s) < b
  {
    var n := |ls| - 1;
    if k in Front(ls[..n], s, b) {
      i := FrontRow(ls[..n], s, b, k);
      assert ls[..n][..i] == ls[..i];
    } else {
      i := n;
    }
  }

  lemma {:induction false} InFront(ls: seq<Listing>, s: Slot, b: nat, i: nat)
    requires i < |ls| && Occupies(ls[i], s) && Live(ls[..i], s) < b
    ensures ls[i].key in Front(ls, s, b)
  {
    var n := |ls| - 1;
    if i < n {
      assert ls[..n][..i] == ls[..i];
      InFront(ls[..n], s, b, i);
    }
  }

  lemma {:induction false} FrontSize(ls: seq<Listing>, s: Slot, b: nat)
    requires DistinctKeys(ls)
    ensures |Front(ls, s, b)| == Min(Live(ls, s), b)
  {
    if ls != [] {
      var pre, l := ls[..|ls| - 1], ls[|ls| - 1];
      FrontSize(pre, s, b);
      if l.key in Front(pre, s, b) { var i := FrontRow(pre, s, b, l.key); }
    }
  }

  lemma {:induction false} ImageSize(m: map<Key, string>)
    ensures |m.Values| <= |m.Keys|
  {
    if m.Keys == {} {
      assert m.Values == {};
    } else {
      var k :| k in m;
      ImageSize(m - {k});
      forall v | v in m.Values ensures v in (m - {k}).Values + {m[k]} {
        var k' :| k' in m && m[k'] == v;
        assert k' == k || (m - {k})[k'] == v;
      }
      SubsetSize(m.Values, (m - {k}).Values + {m[k]});
      assert (m - {k}).Keys == m.Keys - {k};
    }
  }

  lemma {:induction false} InjectiveSize(m: map<Key, string>, placed: set<string>)
    requires m.Values <= placed
    requires forall k, k' | k in m && k' in m && m[k] == m[k'] :: k == k'
    ensures |m.Keys| <= |placed|
  {
    if m.Keys != {} {
      var k :| k in m;
      var rest := m - {k};
      assert rest.Keys == m.Keys - {k};
      forall v | v in rest.Values ensures v in placed - {m[k]} {
        var k' :| k' in rest && rest[k'] == v;
        assert m[k'] == v;
      }
      InjectiveSize(rest, placed - {m[k]});
      assert m[k] in m.Values;
    }
  }

  // ---- one executed cycle ----

  /** The inventory may come back in another order as long as each hash keeps its route. */
  ghost predicate SameInventory(items: seq<Item>, items': seq<Item>, leased: set<string>)
  {
    && (forall it :: it in items <==> it in items')
    && (forall h :: LastRoute(items, leased, h) == LastRoute(items', leased, h))
  }

  lemma {:induction false} WatchRow(snap: Snapshot, n: nat, i: nat)
    requires i < n <= |snap.listings| && DistinctKeys(snap.listings)
    ensures snap.listings[i].key in Watch(snap, n)
    ensures Watch(snap, n)[snap.listings[i].key] == Graced(Judge(snap, i))
  {
    if i < n - 1 { WatchRow(snap, n - 1, i); }
  }

  /** Keys a plan takes off the shelf. */
  function Dropped(plan: seq<Action>): set<Key> { set a | a in plan && a.Delist? :: a.key }

  lemma DroppedSource(snap: Snapshot, price: Pricing, now: int, grace: int, k: Key) returns (i: nat)
    requires k in Dropped(PlanOf(snap, price, now, grace))
    ensures i < |snap.listings| && Removes(snap, now - grace, i) && snap.listings[i].key == k
  {
    var pubs, dels := Publishes(snap, price, |snap.items|), Delists(snap, now - grace, |snap.listings|);
    PublishesSafe(snap, price, |snap.items|);
    var a: Action :| a in pubs + dels && a.Delist? && a.key == k;
    assert a in dels;
    i := DelistSource(snap, now - grace, |snap.listings|, a);
  }

  lemma DroppedRows(snap: Snapshot, price: Pricing, now: int, grace: int, i: nat)
    requires i < |snap.listings| && DistinctKeys(snap.listings)
    ensures snap.listings[i].key in Dropped(PlanOf(snap, price, now, grace)) <==> Removes(snap, now - grace, i)
  {
    if Removes(snap, now - grace, i) {
      RemovedIsDelisted(snap, now - grace, |snap.listings|, i);
      assert DelistOf(snap, i) in PlanOf(snap, price, now, grace);
    } else if snap.listings[i].key in Dropped(PlanOf(snap, price, now, grace)) {
      var j := DroppedSource(snap, price, now, grace, snap.listings[i].key);
    }
  }

  lemma DroppedOnShelf(snap: Snapshot, price: Pricing, now: int, grace: int, t: Table)
    requires Enumerates(snap.listings, t)
    ensures forall k | k in Dropped(PlanOf(snap, price, now, grace)) :: k in t && OnShelf(t[k])
  {
    forall k | k in Dropped(PlanOf(snap, price, now, grace)) ensures k in t && OnShelf(t[k]) {
      var i := DroppedSource(snap, price, now, grace, k);
    }
  }

  /**
   The table after a fully executed plan: rows that are not dropped stay as they were, every
   publish has its row, and there is nothing else on the shelf.
   */
  ghost predicate Executed(t: Table, plan: seq<Action>, refs: seq<Echo>, t': Table)
  {
    && EchoOk(t, plan, refs)
    && (forall k | Stays(t, plan, k) :: k in t' && t'[k] == t[k])
    && (forall i | 0 <= i < |plan| && plan[i].Publish? :: PutUp(t, t', plan[i], refs[i]))
    && (forall k | Fresh(t, plan, t', k) :: exists i :: PlantedBy(plan, refs, k, i))
  }

  ghost predicate PlantedBy(plan: seq<Action>, refs: seq<Echo>, k: Key, i: int)
    requires |refs| == |plan|
  {
    0 <= i < |plan| && plan[i].Publish? && Target(plan[i], refs[i]) == k
  }

  ghost predicate Fresh(t: Table, plan: seq<Action>, t': Table, k: Key)
  {
    k in t' && OnShelf(t'[k]) && !Stays(t, plan, k)
  }

  ghost predicate Stays(t: Table, plan: seq<Action>, k: Key) { k in t && OnShelf(t[k]) && k !in Dropped(plan) }

  lemma FreshIndex(t: Table, plan: seq<Action>, refs: seq<Echo>, t': Table, k: Key) returns (n: nat)
    requires |refs| == |plan| && Landed(t, plan, refs, t') && Fresh(t, plan, t', k)
    ensures PlantedBy(plan, refs, k, n)
  {
    assert LeftAlone(t, t', k) ==> k in Dropped(plan);
    n :| 0 <= n < |plan| && Target(plan[n], refs[n]) == k;
    if plan[n].Delist? { assert TakenDown(t', plan[n].key); }
  }

  lemma WriteBacksExecute(t: Table, plan: seq<Action>, refs: seq<Echo>)
    requires EchoOk(t, plan, refs) && forall k | k in Dropped(plan) :: k in t && OnShelf(t[k])
    ensures Executed(t, plan, refs, WriteBacks(t, plan, refs))
  {
    var t' := WriteBacks(t, plan, refs);
    forall n | 0 <= n < |plan| && plan[n].Delist? ensures plan[n].key in Dropped(plan) { assert plan[n] in plan; }
    assert DelistsOnShelf(t, plan);
    WriteBacksLand(t, plan, refs);
    forall k | Stays(t, plan, k) ensures k in t' && t'[k] == t[k] {
      assert Untouched(plan, refs, k);
    }
    forall k | Fresh(t, plan, t', k) ensures exists i :: PlantedBy(plan, refs, k, i) {
      var n := FreshIndex(t, plan, refs, t', k);
    }
  }

  // ---- replanning after an executed cycle ----

  /**
   One executed cycle and the next planning round: `plan` was made from `snap`, which enumerates
   the table `t`; persisting the observations gave `t1` and the write-backs `t2`; `next` is any
   snapshot of `t2` with the same inventory.
   */
  datatype Cycle = Cycle(snap: Snapshot, price: Pricing, now: int, grace: int, plan: seq<Action>, refs: seq<Echo>,
                         t: Table, t1: Table, t2: Table, next: Snapshot)

  ghost predicate Done(c: Cycle)
  {
    && c.grace > 0
    && Enumerates(c.snap.listings, c.t) && Reobserved(c.snap, c.t, c.now, c.t1)
    && Executed(c.t1, c.plan, c.refs, c.t2) && Enumerates(c.next.listings, c.t2)
    && c.next.uuHealthy == c.snap.uuHealthy && SameInventory(c.snap.items, c.next.items, LeasedAssets(c.snap.listings))
    && (forall i | 0 <= i < |c.snap.listings| ::
          c.snap.listings[i].key in Dropped(c.plan) <==> Removes(c.snap, c.now - c.grace, i))
  }

  ghost predicate Reobserved(snap: Snapshot, t: Table, now: int, t1: Table)
  {
    && t1.Keys == t.Keys && (forall k | k in t :: t1[k] == t[k].(mismatch := t1[k].mismatch))
    && (forall i | 0 <= i < |snap.listings| ::
          var k := snap.listings[i].key;
          k in t && t1[k] == Observed(t[k], Graced(Judge(snap, i)), now))
  }

  lemma ObservationRows(snap: Snapshot, t: Table, now: int)
    requires Enumerates(snap.listings, t)
    ensures Reobserved(snap, t, now, ObserveMismatches(t, Watch(snap, |snap.listings|), now))
  {
    forall i | 0 <= i < |snap.listings|
      ensures var k := snap.listings[i].key;
              k in Watch(snap, |snap.listings|) && Watch(snap, |snap.listings|)[k] == Graced(Judge(snap, i))
    {
      WatchRow(snap, |snap.listings|, i);
    }
  }

  /** A row the pass does not remove is still on the shelf, changed in nothing but its mismatch. */
  lemma RowStays(c: Cycle, i: nat)
    requires Done(c) && i < |c.snap.listings| && !Removes(c.snap, c.now - c.grace, i)
    ensures var l := c.snap.listings[i];
            l.key in c.t2 && c.t2[l.key] == c.t1[l.key] && View(l.key, c.t1[l.key]) in c.next.listings
    ensures Stays(c.t1, c.plan, c.snap.listings[i].key)
  {
    var k := c.snap.listings[i].key;
    assert Stays(c.t1, c.plan, k);
    assert OnShelf(c.t2[k]);
  }

  /** The row of a publish: new to the shelf, and in its home slot in the next snapshot. */
  lemma JoinedRow(c: Cycle, n: nat)
    requires Done(c) && n < |c.plan| && c.plan[n].Publish?
    ensures var k := Target(c.plan[n], c.refs[n]);
            && k in c.t2 && c.t2[k].mismatch == None && View(k, c.t2[k]) in c.next.listings
            && Occupies(View(k, c.t2[k]), Home(c.t1, c.plan[n], c.refs[n]))
            && c.t2[k].asset == StoredAsset(c.t1, c.plan[n], c.refs[n])
            && forall l | l in c.snap.listings :: l.key != k
  {
    var k := Target(c.plan[n], c.refs[n]);
    assert PutUp(c.t1, c.t2, c.plan[n], c.refs[n]);
    forall l | l in c.snap.listings ensures l.key != k { assert l.key in c.t1 && OnShelf(c.t1[l.key]); }
  }

  /** Every row of the next snapshot is a kept row or a freshly published one. */
  lemma RowOrigin(c: Cycle, j: nat) returns (i: int, n: int)
    requires Done(c) && j < |c.next.listings|
    ensures var l := c.next.listings[j];
            if 0 <= i < |c.snap.listings| then
              l.key == c.snap.listings[i].key && !Removes(c.snap, c.now - c.grace, i) && l == View(l.key, c.t1[l.key])
            else PlantedBy(c.plan, c.refs, l.key, n)
  {
    var k := c.next.listings[j].key;
    i, n := -1, -1;
    if Stays(c.t1, c.plan, k) {
      assert View(k, c.t[k]) in c.snap.listings;
      i :| 0 <= i < |c.snap.listings| && c.snap.listings[i] == View(k, c.t[k]);
    } else {
      assert Fresh(c.t1, c.plan, c.t2, k);
      n :| PlantedBy(c.plan, c.refs, k, n);
    }
  }

  lemma LeasedUnchanged(c: Cycle)
    requires Done(c)
    ensures LeasedAssets(c.next.listings) == LeasedAssets(c.snap.listings)
  {
    forall x | x in LeasedAssets(c.snap.listings) ensures x in LeasedAssets(c.next.listings) {
      var l :| l in c.snap.listings && l.state == Leased && l.asset == x;
      var i :| 0 <= i < |c.snap.listings| && c.snap.listings[i] == l;
      RowStays(c, i);
    }
    forall x | x in LeasedAssets(c.next.listings) ensures x in LeasedAssets(c.snap.listings) {
      var l :| l in c.next.listings && l.state == Leased && l.asset == x;
      var j :| 0 <= j < |c.next.listings| && c.next.listings[j] == l;
      var i, n := RowOrigin(c, j);
      if 0 <= i < |c.snap.listings| {
        assert c.snap.listings[i] in c.snap.listings;
      } else {
        JoinedRow(c, n);
      }
    }
  }

  ghost predicate SameDemand(a: Snapshot, b: Snapshot)
  {
    && LeasedAssets(a.listings) == LeasedAssets(b.listings)
    && (forall h :: RouteOf(a, h) == RouteOf(b, h))
    && (forall s :: Budget(a, s) == Budget(b, s))
    && a.uuHealthy == b.uuHealthy
  }

  lemma DemandUnchanged(c: Cycle)
    requires Done(c)
    ensures SameDemand(c.snap, c.next)
  {
    LeasedUnchanged(c);
    forall s ensures Budget(c.snap, s) == Budget(c.next, s) {
      var leased := LeasedAssets(c.snap.listings);
      assert Wanted(c.snap.items, leased, c.snap.uuHealthy, s) == Wanted(c.next.items, leased, c.snap.uuHealthy, s);
    }
  }

  lemma KeptKeyStays(c: Cycle, s: Slot, i: nat)
    requires Done(c) && i < |c.snap.listings| && Occupies(c.snap.listings[i], s) && !Removes(c.snap, c.now - c.grace, i)
    ensures c.snap.listings[i].key in KeysOf(c.next.listings, s)
  {
    RowStays(c, i);
    var l := View(c.snap.listings[i].key, c.t1[c.snap.listings[i].key]);
    assert l in c.next.listings && Occupies(l, s);
  }

  lemma FrontStays(c: Cycle, s: Slot, k: Key)
    requires Done(c) && Routed(c.snap, s) && k in Front(c.snap.listings, s, Budget(c.snap, s))
    ensures k in KeysOf(c.next.listings, s)
  {
    var ls := c.snap.listings;
    var i := FrontRow(ls, s, Budget(c.snap, s), k);
    assert Judge(c.snap, i) == Keep;
    KeptKeyStays(c, s, i);
  }

  lemma FullByKeys(ls: seq<Listing>, ls': seq<Listing>, s: Slot, b: nat)
    requires DistinctKeys(ls) && DistinctKeys(ls') && Live(ls, s) >= b && Front(ls, s, b) <= KeysOf(ls', s)
    ensures Live(ls', s) >= b
  {
    FrontSize(ls, s, b);
    LiveCountsKeys(ls', s);
    SubsetSize(Front(ls, s, b), KeysOf(ls', s));
  }

  /** A slot that was full is full in the next snapshot. */
  lemma SlotStaysFull(c: Cycle, s: Slot)
    requires Done(c) && Routed(c.snap, s)
    requires Live(c.snap.listings, s) >= Budget(c.snap, s)
    ensures Live(c.next.listings, s) >= Budget(c.snap, s)
  {
    forall k | k in Front(c.snap.listings, s, Budget(c.snap, s)) ensures k in KeysOf(c.next.listings, s) {
      FrontStays(c, s, k);
    }
    FullByKeys(c.snap.listings, c.next.listings, s, Budget(c.snap, s));
  }

  /** Keys of the published rows that land in a slot. */
  function Joined(t: Table, plan: seq<Action>, refs: seq<Echo>, s: Slot): set<Key>
    requires |refs| == |plan|
  {
    set i | 0 <= i < |plan| && plan[i].Publish? && Home(t, plan[i], refs[i]) == s :: Target(plan[i], refs[i])
  }

  ghost predicate LandsAt(t: Table, plan: seq<Action>, refs: seq<Echo>, s: Slot, x: string, i: int)
    requires |refs| == |plan|
  {
    0 <= i < |plan| && plan[i].Publish? && Home(t, plan[i], refs[i]) == s && StoredAsset(t, plan[i], refs[i]) == x
  }

  /** Some publish is stored in the slot under this asset. */
  ghost predicate Lands(t: Table, plan: seq<Action>, refs: seq<Echo>, s: Slot, x: string)
    requires |refs| == |plan|
  {
    exists i :: LandsAt(t, plan, refs, s, x, i)
  }

  /** The pass drops no row of the slot. */
  ghost predicate KeepsSlot(c: Cycle, s: Slot)
  {
    forall i | 0 <= i < |c.snap.listings| && InSlot(c.snap.listings[i], s) :: !Removes(c.snap, c.now - c.grace, i)
  }

  lemma SlotKeys(c: Cycle, s: Slot)
    requires Done(c) && KeepsSlot(c, s)
    ensures KeysOf(c.next.listings, s) == KeysOf(c.snap.listings, s) + Joined(c.t1, c.plan, c.refs, s)
    ensures KeysOf(c.snap.listings, s) !! Joined(c.t1, c.plan, c.refs, s)
  {
    forall k | k in KeysOf(c.next.listings, s)
      ensures k in KeysOf(c.snap.listings, s) + Joined(c.t1, c.plan, c.refs, s)
    {
      var j := KeyOfRow(c.next.listings, s, k);
      var i, n := RowOrigin(c, j);
      if 0 <= i < |c.snap.listings| {
        assert c.snap.listings[i] in c.snap.listings && Occupies(c.snap.listings[i], s);
      } else {
        JoinedRow(c, n);
        assert Enumerates(c.next.listings, c.t2);
      }
    }
    forall k | k in KeysOf(c.snap.listings, s) ensures k in KeysOf(c.next.listings, s) {
      var i := KeyOfRow(c.snap.listings, s, k);
      KeptKeyStays(c, s, i);
    }
    forall k | k in Joined(c.t1, c.plan, c.refs, s)
      ensures k in KeysOf(c.next.listings, s) && k !in KeysOf(c.snap.listings, s)
    {
      var n :| 0 <= n < |c.plan| && c.plan[n].Publish? && Home(c.t1, c.plan[n], c.refs[n]) == s &&
        Target(c.plan[n], c.refs[n]) == k;
      JoinedRow(c, n);
    }
  }

  /** A slot the plan drops nothing from grows by exactly the rows that land in it. */
  lemma SlotGains(c: Cycle, s: Slot)
    requires Done(c) && KeepsSlot(c, s)
    ensures Live(c.next.listings, s) == Live(c.snap.listings, s) + |Joined(c.t1, c.plan, c.refs, s)|
  {
    SlotKeys(c, s);
    LiveCountsKeys(c.snap.listings, s);
    LiveCountsKeys(c.next.listings, s);
  }

  lemma ShortSlotKeeps(c: Cycle, s: Slot)
    requires Routed(c.snap, s) && Live(c.snap.listings, s) < Budget(c.snap, s)
    ensures KeepsSlot(c, s)
  {
    forall i | 0 <= i < |c.snap.listings| && InSlot(c.snap.listings[i], s)
      ensures !Removes(c.snap, c.now - c.grace, i)
    {
      LivePrefix(c.snap.listings, i, s);
    }
  }

  lemma ListedCameFrom(c: Cycle, s: Slot, x: string)
    requires Done(c) && KeepsSlot(c, s) && Listed(c.next.listings, s, x)
    ensures Listed(c.snap.listings, s, x) || Lands(c.t1, c.plan, c.refs, s, x)
  {
    var j :| 0 <= j < |c.next.listings| && InSlot(c.next.listings[j], s) && c.next.listings[j].asset == x;
    var i, n := RowOrigin(c, j);
    if 0 <= i < |c.snap.listings| {
      assert InSlot(c.snap.listings[i], s) && c.snap.listings[i].asset == x;
    } else {
      JoinedRow(c, n);
      assert LandsAt(c.t1, c.plan, c.refs, s, x, n);
    }
  }

  lemma ListedStays(c: Cycle, s: Slot, x: string)
    requires Done(c) && KeepsSlot(c, s) && Listed(c.snap.listings, s, x)
    ensures Listed(c.next.listings, s, x)
  {
    var i :| 0 <= i < |c.snap.listings| && InSlot(c.snap.listings[i], s) && c.snap.listings[i].asset == x;
    RowStays(c, i);
    var l := View(c.snap.listings[i].key, c.t1[c.snap.listings[i].key]);
    assert l in c.next.listings && InSlot(l, s) && l.asset == x;
  }

  lemma LandedIsListed(c: Cycle, s: Slot, x: string)
    requires Done(c) && Lands(c.t1, c.plan, c.refs, s, x)
    ensures Listed(c.next.listings, s, x)
  {
    var n :| LandsAt(c.t1, c.plan, c.refs, s, x, n);
    JoinedRow(c, n);
    var l := View(Target(c.plan[n], c.refs[n]), c.t2[Target(c.plan[n], c.refs[n])]);
    assert l in c.next.listings && InSlot(l, s) && l.asset == x;
  }

  /** In a slot the plan drops nothing from, an asset is listed next exactly if it was listed before or lands there. */
  lemma ListedNext(c: Cycle, s: Slot, x: string)
    requires Done(c) && KeepsSlot(c, s)
    ensures Listed(c.next.listings, s, x) <==> Listed(c.snap.listings, s, x) || Lands(c.t1, c.plan, c.refs, s, x)
  {
    var after, before, lands :=
      Listed(c.next.listings, s, x), Listed(c.snap.listings, s, x), Lands(c.t1, c.plan, c.refs, s, x);
    if after { ListedCameFrom(c, s, x); }
    if before { ListedStays(c, s, x); }
    if lands { LandedIsListed(c, s, x); }
  }

  // ---- the exact condition ----

  /**
   The echoed ids close an item's opportunity on a channel: no price, listed already, landed, or a slot
   that is full by then.
   */
  ghost predicate Closed(c: Cycle, it: Item, ch: Channel)
    requires |c.refs| == |c.plan|
  {
    var s := Slot(it.hash, ch);
    || c.price(ch, it) == None
    || Listed(c.snap.listings, s, it.asset)
    || Lands(c.t1, c.plan, c.refs, s, it.asset)
    || Live(c.snap.listings, s) + |Joined(c.t1, c.plan, c.refs, s)| >= Budget(c.snap, s)
  }

  /** The publish does not land under a hash that is routed to other channels. */
  ghost predicate LandsWell(c: Cycle, i: int)
    requires |c.refs| == |c.plan| && 0 <= i < |c.plan| && c.plan[i].Publish?
  {
    var s := Home(c.t1, c.plan[i], c.refs[i]);
    RouteOf(c.snap, s.hash) == None || Routed(c.snap, s)
  }

  ghost predicate AllLandWell(c: Cycle)
    requires |c.refs| == |c.plan|
  {
    forall i | 0 <= i < |c.plan| && c.plan[i].Publish? :: LandsWell(c, i)
  }

  ghost predicate Wants(c: Cycle, it: Item, ch: Channel)
  {
    it in c.snap.items && Publishable(c.snap, it) && ch in ChannelsFor(c.snap, it.hash)
  }

  /** What the echoed ids must satisfy, in terms of the table before the write-backs. */
  ghost predicate EchoesFit(c: Cycle)
    requires |c.refs| == |c.plan|
  {
    && AllLandWell(c)
    && (forall it, ch | Wants(c, it, ch) :: Closed(c, it, ch))
  }

  lemma OpportunityNext(c: Cycle, it: Item, ch: Channel)
    requires Done(c) && Wants(c, it, ch)
    ensures MayPublish(c.next, c.price, [], it, ch) <==> !Closed(c, it, ch)
  {
    var s := Slot(it.hash, ch);
    assert SameDemand(c.snap, c.next) by { DemandUnchanged(c); }
    assert Placed([], s) == {};
    if Live(c.snap.listings, s) >= Budget(c.snap, s) {
      SlotStaysFull(c, s);
    } else {
      ShortSlotKeeps(c, s);
      SlotGains(c, s);
      ListedNext(c, s, it.asset);
    }
  }

  lemma {:induction false} PublishNothing(snap: Snapshot, price: Pricing, n: nat)
    requires n <= |snap.items|
    requires forall it, ch | it in snap.items && Publishable(snap, it) && ch in ChannelsFor(snap, it.hash) ::
             !MayPublish(snap, price, [], it, ch)
    ensures Publishes(snap, price, n) == []
  {
    if n > 0 {
      PublishNothing(snap, price, n - 1);
      var it := snap.items[n - 1];
      if Publishable(snap, it) { PublishNoneOf(snap, price, it, ChannelsFor(snap, it.hash)); }
    }
  }

  lemma {:induction false} PublishNoneOf(snap: Snapshot, price: Pricing, it: Item, chs: seq<Channel>)
    requires forall ch | ch in chs :: !MayPublish(snap, price, [], it, ch)
    ensures PublishAll(snap, price, [], it, chs) == []
  {
    if chs != [] { PublishNoneOf(snap, price, it, chs[..|chs| - 1]); }
  }

  lemma {:induction false} DelistNothing(snap: Snapshot, cutoff: int, n: nat)
    requires n <= |snap.listings| && forall j | 0 <= j < n :: !Removes(snap, cutoff, j)
    ensures Delists(snap, cutoff, n) == []
  {
    if n > 0 { DelistNothing(snap, cutoff, n - 1); }
  }

  /** A kept row is judged by route exactly as before, and its grace clock cannot have run out since. */
  lemma KeptRowStaysKept(snap: Snapshot, i: nat, next: Snapshot, j: nat, r: Row, now: int, grace: int)
    requires SameDemand(snap, next) && grace > 0
    requires i < |snap.listings| && j < |next.listings| && !Removes(snap, now - grace, i)
    requires snap.listings[i] == View(snap.listings[i].key, r)
    requires next.listings[j] == View(snap.listings[i].key, Observed(r, Graced(Judge(snap, i)), now))
    ensures !Removes(next, now - grace, j)
  {
    assert RouteOf(snap, r.hash) == RouteOf(next, r.hash);
  }

  /** A fresh row is removed at once exactly when its hash is routed to other channels. */
  lemma NewRowVerdict(snap: Snapshot, next: Snapshot, j: nat, s: Slot, cutoff: int)
    requires SameDemand(snap, next)
    requires j < |next.listings| && Occupies(next.listings[j], s) && next.listings[j].mismatch == None
    ensures Removes(next, cutoff, j) <==> RouteOf(snap, s.hash).Some? && !Routed(snap, s)
  {
    assert RouteOf(snap, s.hash) == RouteOf(next, s.hash);
  }

  lemma PlantedVerdict(c: Cycle, j: nat, n: nat)
    requires Done(c) && SameDemand(c.snap, c.next) && j < |c.next.listings| &&
             PlantedBy(c.plan, c.refs, c.next.listings[j].key, n)
    ensures Removes(c.next, c.now - c.grace, j) <==> !LandsWell(c, n)
  {
    JoinedRow(c, n);
    assert Enumerates(c.next.listings, c.t2);
    NewRowVerdict(c.snap, c.next, j, Home(c.t1, c.plan[n], c.refs[n]), c.now - c.grace);
  }

  lemma WellLandedStay(c: Cycle, j: nat)
    requires Done(c) && SameDemand(c.snap, c.next) && AllLandWell(c) && j < |c.next.listings|
    ensures !Removes(c.next, c.now - c.grace, j)
  {
    var i, n := RowOrigin(c, j);
    if 0 <= i < |c.snap.listings| {
      KeptRowStaysKept(c.snap, i, c.next, j, c.t[c.snap.listings[i].key], c.now, c.grace);
    } else {
      PlantedVerdict(c, j, n);
    }
  }

  ghost predicate NothingRemoved(snap: Snapshot, cutoff: int)
  {
    forall j {:trigger Judge(snap, j)} | 0 <= j < |snap.listings| :: !Removes(snap, cutoff, j)
  }

  lemma DelistsEmptyIff(snap: Snapshot, cutoff: int)
    ensures Delists(snap, cutoff, |snap.listings|) == [] <==> NothingRemoved(snap, cutoff)
  {
    if NothingRemoved(snap, cutoff) { DelistNothing(snap, cutoff, |snap.listings|); }
    if Delists(snap, cutoff, |snap.listings|) == [] {
      forall j | 0 <= j < |snap.listings| ensures !Removes(snap, cutoff, j) {
        if Removes(snap, cutoff, j) { RemovedIsDelisted(snap, cutoff, |snap.listings|, j); }
      }
    }
  }

  lemma JoinedIndex(c: Cycle, n: nat) returns (j: nat)
    requires Done(c) && n < |c.plan| && c.plan[n].Publish?
    ensures j < |c.next.listings| && PlantedBy(c.plan, c.refs, c.next.listings[j].key, n)
  {
    JoinedRow(c, n);
    var k := Target(c.plan[n], c.refs[n]);
    j :| 0 <= j < |c.next.listings| && c.next.listings[j] == View(k, c.t2[k]);
  }

  lemma WellLandedRemoveNothing(c: Cycle)
    requires Done(c) && SameDemand(c.snap, c.next) && AllLandWell(c)
    ensures NothingRemoved(c.next, c.now - c.grace)
  {
    var cutoff := c.now - c.grace;
    forall j | 0 <= j < |c.next.listings| ensures !Removes(c.next, cutoff, j) { WellLandedStay(c, j); }
  }

  lemma NothingRemovedLandsWell(c: Cycle)
    requires Done(c) && SameDemand(c.snap, c.next) && NothingRemoved(c.next, c.now - c.grace)
    ensures AllLandWell(c)
  {
    forall n | 0 <= n < |c.plan| && c.plan[n].Publish? ensures LandsWell(c, n) {
      var j := JoinedIndex(c, n);
      PlantedVerdict(c, j, n);
    }
  }

  lemma RemovalIff(c: Cycle)
    requires Done(c)
    ensures NothingRemoved(c.next, c.now - c.grace) <==> AllLandWell(c)
  {
    var demand := SameDemand(c.snap, c.next);
    assert demand by { DemandUnchanged(c); }
    if AllLandWell(c) { WellLandedRemoveNothing(c); }
    if NothingRemoved(c.next, c.now - c.grace) { NothingRemovedLandsWell(c); }
  }

  lemma DelistsNothingIff(c: Cycle)
    requires |c.refs| == |c.plan| && (NothingRemoved(c.next, c.now - c.grace) <==> AllLandWell(c))
    ensures Delists(c.next, c.now - c.grace, |c.next.listings|) == [] <==> AllLandWell(c)
  {
    DelistsEmptyIff(c.next, c.now - c.grace);
  }

  lemma PublishesNothingIff(c: Cycle)
    requires Done(c)
    ensures Publishes(c.next, c.price, |c.next.items|) == [] <==> forall it, ch | Wants(c, it, ch) :: Closed(c, it, ch)
  {
    DemandUnchanged(c);
    if forall it, ch | Wants(c, it, ch) :: Closed(c, it, ch) {
      forall it, ch | it in c.next.items && Publishable(c.next, it) && ch in ChannelsFor(c.next, it.hash)
        ensures !MayPublish(c.next, c.price, [], it, ch)
      {
        assert Wants(c, it, ch);
        OpportunityNext(c, it, ch);
      }
      PublishNothing(c.next, c.price, |c.next.items|);
    }
    if Publishes(c.next, c.price, |c.next.items|) == [] {
      forall it, ch | Wants(c, it, ch) ensures Closed(c, it, ch) {
        var j :| 0 <= j < |c.next.items| && c.next.items[j] == it;
        PublishesExhaust(c.next, c.price, |c.next.items|, j, ch);
        OpportunityNext(c, it, ch);
      }
    }
  }

  lemma PlanIsPasses(snap: Snapshot, price: Pricing, now: int, grace: int)
    ensures PlanOf(snap, price, now, grace) == []
      <==> Publishes(snap, price, |snap.items|) == [] && Delists(snap, now - grace, |snap.listings|) == []
  {
  }

  /** A real cycle, in the planner's and the executor's own terms. */
  ghost predicate RealCycle(c: Cycle)
  {
    PlannedCycle(c) && c.t2 == WriteBacks(c.t1, c.plan, c.refs)
  }

  /** Everything about a cycle except that its plan was carried out. */
  ghost predicate PlannedCycle(c: Cycle)
  {
    && c.grace > 0
    && Enumerates(c.snap.listings, c.t)
    && c.plan == PlanOf(c.snap, c.price, c.now, c.grace)
    && EchoOk(c.t, c.plan, c.refs)
    && c.t1 == ObserveMismatches(c.t, Watch(c.snap, |c.snap.listings|), c.now)
    && Enumerates(c.next.listings, c.t2)
    && c.next.uuHealthy == c.snap.uuHealthy
    && SameInventory(c.snap.items, c.next.items, LeasedAssets(c.snap.listings))
  }

  lemma RealCycleIsDone(c: Cycle)
    requires RealCycle(c)
    ensures Done(c)
  {
    ObservationRows(c.snap, c.t, c.now);
    DroppedOnShelf(c.snap, c.price, c.now, c.grace, c.t);
    ExecuteReobserved(c);
    forall i | 0 <= i < |c.snap.listings|
      ensures c.snap.listings[i].key in Dropped(c.plan) <==> Removes(c.snap, c.now - c.grace, i)
    {
      DroppedRows(c.snap, c.price, c.now, c.grace, i);
    }
  }

  lemma ExecuteReobserved(c: Cycle)
    requires Reobserved(c.snap, c.t, c.now, c.t1) && EchoOk(c.t, c.plan, c.refs)
    requires forall k | k in Dropped(c.plan) :: k in c.t && OnShelf(c.t[k])
    ensures Executed(c.t1, c.plan, c.refs, WriteBacks(c.t1, c.plan, c.refs))
  {
    assert EchoOk(c.t1, c.plan, c.refs);
    WriteBacksExecute(c.t1, c.plan, c.refs);
  }

  /**
   The fixed point, exactly: after a cycle is observed, executed and written back, replanning at the
   same time yields no action if and only if the echoed ids fit, for every pricing function, every
   inventory and every row order.
   */
  lemma ReplanIsEmptyIff(c: Cycle)
    requires RealCycle(c)
    ensures PlanOf(c.next, c.price, c.now, c.grace) == [] <==> EchoesFit(c)
  {
    PlanIsPasses(c.next, c.price, c.now, c.grace);
    assert Delists(c.next, c.now - c.grace, |c.next.listings|) == [] <==> AllLandWell(c) by {
      RealCycleIsDone(c);
      RemovalIff(c);
      DelistsNothingIff(c);
    }
    assert Publishes(c.next, c.price, |c.next.items|) == [] <==>
      forall it, ch | Wants(c, it, ch) :: Closed(c, it, ch) by {
      RealCycleIsDone(c);
      PublishesNothingIff(c);
    }
  }

  // ---- ids that fit ----

  ghost predicate HashesKept(t: Table, plan: seq<Action>, refs: seq<Echo>)
    requires |refs| == |plan|
  {
    forall i | 0 <= i < |plan| && plan[i].Publish? :: StoredHash(t, plan[i], refs[i]) == plan[i].hash
  }

  /** An echoed id that was stored before belongs to a row of the same hash. */
  ghost predicate KeepsHash(c: Cycle)
    requires |c.refs| == |c.plan|
  {
    HashesKept(c.t1, c.plan, c.refs)
  }

  /** It is the same asset's own old id, too. */
  ghost predicate KeepsAsset(c: Cycle)
    requires |c.refs| == |c.plan|
  {
    KeepsHash(c) && forall i | 0 <= i < |c.plan| && c.plan[i].Publish? ::
      StoredAsset(c.t1, c.plan[i], c.refs[i]) == c.plan[i].asset
  }

  /** The published asset of each row that lands in a slot. */
  ghost function Sources(t: Table, plan: seq<Action>, refs: seq<Echo>, s: Slot): map<Key, string>
    requires EchoOk(t, plan, refs)
  {
    map i | 0 <= i < |plan| && plan[i].Publish? && Home(t, plan[i], refs[i]) == s ::
      Target(plan[i], refs[i]) := plan[i].asset
  }

  lemma SourceRow(t: Table, plan: seq<Action>, refs: seq<Echo>, s: Slot, k: Key) returns (i: int)
    requires EchoOk(t, plan, refs) && k in Sources(t, plan, refs, s)
    ensures 0 <= i < |plan| && plan[i].Publish? && Home(t, plan[i], refs[i]) == s
    ensures Target(plan[i], refs[i]) == k && Sources(t, plan, refs, s)[k] == plan[i].asset
  {
    i :| 0 <= i < |plan| && plan[i].Publish? && Home(t, plan[i], refs[i]) == s && Target(plan[i], refs[i]) == k;
  }

  lemma PlacedHasSource(t: Table, plan: seq<Action>, refs: seq<Echo>, s: Slot, x: string)
    requires EchoOk(t, plan, refs) && HashesKept(t, plan, refs) && x in Placed(plan, s)
    ensures x in Sources(t, plan, refs, s).Values
  {
    var a :| a in plan && a.Publish? && a.hash == s.hash && a.ch == s.ch && a.asset == x;
    var i :| 0 <= i < |plan| && plan[i] == a;
    assert Home(t, plan[i], refs[i]) == s;
    assert Sources(t, plan, refs, s)[Target(plan[i], refs[i])] == x;
  }

  lemma SourcesArePlaced(t: Table, plan: seq<Action>, refs: seq<Echo>, s: Slot)
    requires EchoOk(t, plan, refs) && HashesKept(t, plan, refs)
    ensures Sources(t, plan, refs, s).Values == Placed(plan, s)
  {
    var m := Sources(t, plan, refs, s);
    forall x | x in Placed(plan, s) ensures x in m.Values { PlacedHasSource(t, plan, refs, s, x); }
    forall x | x in m.Values ensures x in Placed(plan, s) {
      var k :| k in m && m[k] == x;
      var i := SourceRow(t, plan, refs, s, k);
      assert plan[i] in plan;
    }
  }

  lemma SourcesAreDistinct(t: Table, plan: seq<Action>, refs: seq<Echo>, s: Slot, k: Key, k': Key)
    requires EchoOk(t, plan, refs) && HashesKept(t, plan, refs) && NoRepeat(plan)
    requires k in Sources(t, plan, refs, s) && k' in Sources(t, plan, refs, s)
    requires Sources(t, plan, refs, s)[k] == Sources(t, plan, refs, s)[k']
    ensures k == k'
  {
    var i := SourceRow(t, plan, refs, s, k);
    var j := SourceRow(t, plan, refs, s, k');
    assert i == j;
  }

  /** With hashes kept, as many rows land in a slot as assets were published to it. */
  lemma JoinedIsPlaced(c: Cycle, s: Slot)
    requires EchoOk(c.t1, c.plan, c.refs) && KeepsHash(c) && NoRepeat(c.plan)
    ensures |Joined(c.t1, c.plan, c.refs, s)| == |Placed(c.plan, s)|
  {
    var m := Sources(c.t1, c.plan, c.refs, s);
    assert m.Keys == Joined(c.t1, c.plan, c.refs, s);
    SourcesArePlaced(c.t1, c.plan, c.refs, s);
    forall k, k' | k in m && k' in m && m[k] == m[k'] ensures k == k' {
      SourcesAreDistinct(c.t1, c.plan, c.refs, s, k, k');
    }
    ImageSize(m);
    InjectiveSize(m, Placed(c.plan, s));
  }

  /** The plan took every opportunity or left it closed. */
  lemma PlanExhausts(c: Cycle, it: Item, ch: Channel)
    requires c.plan == PlanOf(c.snap, c.price, c.now, c.grace) && |c.refs| == |c.plan| && Wants(c, it, ch)
    ensures !MayPublish(c.snap, c.price, c.plan, it, ch)
  {
    var j :| 0 <= j < |c.snap.items| && c.snap.items[j] == it;
    var pubs := Publishes(c.snap, c.price, |c.snap.items|);
    PublishesExhaust(c.snap, c.price, |c.snap.items|, j, ch);
    OpportunityShrinks(c.snap, c.price, pubs, c.plan[|pubs|..], it, ch);
    assert pubs + c.plan[|pubs|..] == c.plan;
  }

  lemma HashKeptLandsWell(c: Cycle)
    requires |c.refs| == |c.plan| && c.plan == PlanOf(c.snap, c.price, c.now, c.grace) && KeepsHash(c)
    ensures forall i | 0 <= i < |c.plan| && c.plan[i].Publish? ::
              LandsWell(c, i) && Home(c.t1, c.plan[i], c.refs[i]) == Slot(c.plan[i].hash, c.plan[i].ch) &&
                Routed(c.snap, Slot(c.plan[i].hash, c.plan[i].ch))
  {
    PlanIsSafe(c.snap, c.price, c.now, c.grace);
    forall i | 0 <= i < |c.plan| && c.plan[i].Publish?
      ensures LandsWell(c, i) && Home(c.t1, c.plan[i], c.refs[i]) == Slot(c.plan[i].hash, c.plan[i].ch) &&
              Routed(c.snap, Slot(c.plan[i].hash, c.plan[i].ch))
    {
      assert c.plan[i] in c.plan;
    }
  }

  lemma OwnIdsClose(c: Cycle, it: Item, ch: Channel)
    requires EchoOk(c.t1, c.plan, c.refs) && c.plan == PlanOf(c.snap, c.price, c.now, c.grace) && NoRepeat(c.plan)
    requires KeepsAsset(c) && Wants(c, it, ch)
    ensures Closed(c, it, ch)
  {
    var s := Slot(it.hash, ch);
    PlanExhausts(c, it, ch);
    JoinedIsPlaced(c, s);
    if it.asset in Placed(c.plan, s) {
      var a :| a in c.plan && a.Publish? && a.hash == s.hash && a.ch == s.ch && a.asset == it.asset;
      var i :| 0 <= i < |c.plan| && c.plan[i] == a;
      assert LandsAt(c.t1, c.plan, c.refs, s, it.asset, i);
    }
  }

  /** New ids, and old ids of the same asset and hash, fit. */
  lemma OwnIdsFit(c: Cycle)
    requires EchoOk(c.t1, c.plan, c.refs) && c.plan == PlanOf(c.snap, c.price, c.now, c.grace) && KeepsAsset(c)
    ensures EchoesFit(c)
  {
    PlanIsSafe(c.snap, c.price, c.now, c.grace);
    HashKeptLandsWell(c);
    forall it, ch | Wants(c, it, ch) ensures Closed(c, it, ch) { OwnIdsClose(c, it, ch); }
  }

  /** Every wanted publish has a price, and every inventory row an asset id. */
  ghost predicate AllPriced(c: Cycle)
    requires |c.refs| == |c.plan|
  {
    (forall it | it in c.snap.items :: it.asset != "") && forall it, ch | Wants(c, it, ch) :: c.price(ch, it).Some?
  }

  /** Assets of a slot's non-leased rows. */
  function LiveAssets(ls: seq<Listing>, s: Slot): set<string> { set l | l in ls && Occupies(l, s) :: l.asset }

  lemma {:induction false} LiveAssetsSize(ls: seq<Listing>, s: Slot)
    ensures |LiveAssets(ls, s)| <= Live(ls, s)
  {
    if ls == [] {
      assert LiveAssets(ls, s) == {};
    } else {
      var pre, l := ls[..|ls| - 1], ls[|ls| - 1];
      LiveAssetsSize(pre, s);
      assert ls == pre + [l];
      assert LiveAssets(ls, s) == LiveAssets(pre, s) + if Occupies(l, s) then {l.asset} else {};
    }
  }

  /**
   The counting argument: with every price present and every asset id non-empty, a slot that is
   published to ends full, since each wanted asset is listed there or was published.
   */
  lemma PricedSlotFills(c: Cycle, s: Slot)
    requires |c.refs| == |c.plan| && c.plan == PlanOf(c.snap, c.price, c.now, c.grace) && AllPriced(c) &&
             Routed(c.snap, s)
    ensures Live(c.snap.listings, s) + |Placed(c.plan, s)| >= Budget(c.snap, s)
  {
    var leased := LeasedAssets(c.snap.listings);
    var wanted := Wanted(c.snap.items, leased, c.snap.uuHealthy, s);
    var placed, live := Placed(c.plan, s), LiveAssets(c.snap.listings, s);
    LiveAssetsSize(c.snap.listings, s);
    assert |placed + live| <= |placed| + |live|;
    if Live(c.snap.listings, s) + |placed| < Budget(c.snap, s) {
      forall x | x in wanted ensures x in placed + live {
        var it :| it in c.snap.items && it.asset !in leased && it.hash == s.hash && it.asset == x;
        assert Wants(c, it, s.ch);
        PlanExhausts(c, it, s.ch);
        if x !in placed {
          var i :| 0 <= i < |c.snap.listings| && InSlot(c.snap.listings[i], s) && c.snap.listings[i].asset == x;
          assert c.snap.listings[i] in c.snap.listings && c.snap.listings[i].state != Leased;
        }
      }
      SubsetSize(wanted, placed + live);
    }
  }

  /** With every price present, an old id of another asset fits as well, as long as its row has the same hash. */
  lemma PricedIdsFit(c: Cycle)
    requires EchoOk(c.t1, c.plan, c.refs) && c.plan == PlanOf(c.snap, c.price, c.now, c.grace) && KeepsHash(c) &&
             AllPriced(c)
    ensures EchoesFit(c)
  {
    PlanIsSafe(c.snap, c.price, c.now, c.grace);
    HashKeptLandsWell(c);
    forall it, ch | Wants(c, it, ch) ensures Closed(c, it, ch) {
      PricedSlotFills(c, Slot(it.hash, ch));
      JoinedIsPlaced(c, Slot(it.hash, ch));
    }
  }

  /**
   The fixed point as a caller meets it: ids that are new, or old ones of the same asset, are enough;
   and with every price present and every asset id non-empty, old ids of the same hash are, too.
   */
  lemma ReplanIsEmpty(c: Cycle)
    requires RealCycle(c) && (KeepsAsset(c) || (KeepsHash(c) && AllPriced(c)))
    ensures PlanOf(c.next, c.price, c.now, c.grace) == []
  {
    RealCycleIsDone(c);
    ReplanIsEmptyIff(c);
    if KeepsAsset(c) { OwnIdsFit(c); } else { PricedIdsFit(c); }
  }

  // ---- the settled shelf ----

  /** Every orphan and surplus row has already waited out its grace period. */
  ghost predicate AllServed(snap: Snapshot, cutoff: int)
  {
    forall i {:trigger Judge(snap, i)} | 0 <= i < |snap.listings| && Judge(snap, i).Remove? :: Removes(snap, cutoff, i)
  }

  ghost predicate NobodyMarked(snap: Snapshot)
  {
    forall j | 0 <= j < |snap.listings| :: snap.listings[j].mismatch == None
  }

  /** Nobody waits on the settled shelf: what was waiting is gone, and what was kept or published has no mismatch. */
  lemma NobodyWaits(c: Cycle, j: nat)
    requires Done(c) && AllServed(c.snap, c.now - c.grace) && j < |c.next.listings|
    ensures c.next.listings[j].mismatch == None
  {
    var i, n := RowOrigin(c, j);
    if 0 <= i < |c.snap.listings| {
      assert Judge(c.snap, i) == Keep;
    } else {
      JoinedRow(c, n);
      assert Enumerates(c.next.listings, c.t2);
    }
  }

  lemma NobodyWaitsAnywhere(c: Cycle)
    requires RealCycle(c) && AllServed(c.snap, c.now - c.grace)
    ensures NobodyMarked(c.next)
  {
    RealCycleIsDone(c);
    forall j | 0 <= j < |c.next.listings| ensures c.next.listings[j].mismatch == None { NobodyWaits(c, j); }
  }

  lemma RemovalIsTimeless(snap: Snapshot, cutoff: int, cutoff': int)
    requires NobodyMarked(snap) && NothingRemoved(snap, cutoff)
    ensures NothingRemoved(snap, cutoff')
  {
    forall j | 0 <= j < |snap.listings| ensures !Removes(snap, cutoff', j) { assert !Removes(snap, cutoff, j); }
  }

  lemma DelistsAreTimeless(snap: Snapshot, cutoff: int, cutoff': int)
    requires NobodyMarked(snap) && Delists(snap, cutoff, |snap.listings|) == []
    ensures Delists(snap, cutoff', |snap.listings|) == []
  {
    DelistsEmptyIff(snap, cutoff);
    RemovalIsTimeless(snap, cutoff, cutoff');
    DelistsEmptyIff(snap, cutoff');
  }

  /** So what is removed from it does not depend on the time or the grace. */
  lemma PlanIsTimeless(snap: Snapshot, price: Pricing, now: int, grace: int, now': int, grace': int)
    requires NobodyMarked(snap)
    ensures PlanOf(snap, price, now, grace) == [] <==> PlanOf(snap, price, now', grace') == []
  {
    if PlanOf(snap, price, now, grace) == [] { EmptyPlanIsTimeless(snap, price, now, grace, now', grace'); }
    if PlanOf(snap, price, now', grace') == [] { EmptyPlanIsTimeless(snap, price, now', grace', now, grace); }
  }

  lemma EmptyPlanIsTimeless(snap: Snapshot, price: Pricing, now: int, grace: int, now': int, grace': int)
    requires NobodyMarked(snap) && PlanOf(snap, price, now, grace) == []
    ensures PlanOf(snap, price, now', grace') == []
  {
    PlanIsPasses(snap, price, now, grace);
    DelistsAreTimeless(snap, now - grace, now' - grace');
    PlanIsPasses(snap, price, now', grace');
  }

  /**
   The settled shelf: if every grace was served, replanning at any later time and with any grace
   yields no action exactly if the echoed ids fit.
   */
  lemma SettledForGood(c: Cycle, later: int, grace: int)
    requires RealCycle(c) && AllServed(c.snap, c.now - c.grace)
    ensures PlanOf(c.next, c.price, later, grace) == [] <==> EchoesFit(c)
    ensures KeepsAsset(c) || (KeepsHash(c) && AllPriced(c)) ==> PlanOf(c.next, c.price, later, grace) == []
  {
    NobodyWaitsAnywhere(c);
    PlanIsTimeless(c.next, c.price, c.now, c.grace, later, grace);
    ReplanIsEmptyIff(c);
    if KeepsAsset(c) || (KeepsHash(c) && AllPriced(c)) { ReplanIsEmpty(c); }
  }

  // ---- which settled shelves are in order ----

  lemma SlotOrigin(c: Cycle, s: Slot, k: Key)
    requires Done(c) && AllServed(c.snap, c.now - c.grace) && Routed(c.snap, s) && k in KeysOf(c.next.listings, s)
    ensures k in Front(c.snap.listings, s, Budget(c.snap, s)) + Joined(c.t1, c.plan, c.refs, s)
  {
    var j := KeyOfRow(c.next.listings, s, k);
    var i, n := RowOrigin(c, j);
    if 0 <= i < |c.snap.listings| {
      assert Judge(c.snap, i) == Keep;
      InFront(c.snap.listings, s, Budget(c.snap, s), i);
    } else {
      JoinedRow(c, n);
      assert Enumerates(c.next.listings, c.t2);
    }
  }

  lemma SettledKeys(c: Cycle, s: Slot)
    requires Done(c) && AllServed(c.snap, c.now - c.grace) && Routed(c.snap, s)
    ensures var front, joined := Front(c.snap.listings, s, Budget(c.snap, s)), Joined(c.t1, c.plan, c.refs, s);
            KeysOf(c.next.listings, s) == front + joined && front !! joined
  {
    var front, joined := Front(c.snap.listings, s, Budget(c.snap, s)), Joined(c.t1, c.plan, c.refs, s);
    forall k | k in KeysOf(c.next.listings, s) ensures k in front + joined { SlotOrigin(c, s, k); }
    forall k | k in front ensures k in KeysOf(c.next.listings, s) && exists l :: l in c.snap.listings && l.key == k {
      FrontStays(c, s, k);
      var i := FrontRow(c.snap.listings, s, Budget(c.snap, s), k);
      assert c.snap.listings[i] in c.snap.listings;
    }
    forall k | k in joined ensures k in KeysOf(c.next.listings, s) && k !in front {
      var n :| 0 <= n < |c.plan| && c.plan[n].Publish? && Home(c.t1, c.plan[n], c.refs[n]) == s &&
        Target(c.plan[n], c.refs[n]) == k;
      JoinedRow(c, n);
    }
  }

  /** A routed slot of the settled shelf holds what it kept, up to its budget, and what landed in it. */
  lemma SettledLive(c: Cycle, s: Slot)
    requires Done(c) && AllServed(c.snap, c.now - c.grace) && Routed(c.snap, s)
    ensures Live(c.next.listings, s) ==
            Min(Live(c.snap.listings, s), Budget(c.snap, s)) + |Joined(c.t1, c.plan, c.refs, s)|
  {
    SettledKeys(c, s);
    FrontSize(c.snap.listings, s, Budget(c.snap, s));
    LiveCountsKeys(c.next.listings, s);
  }

  /** A row within its slot's budget is kept wherever it stands in the scan. */
  lemma WithinBudgetIsKept(snap: Snapshot, j: nat)
    requires j < |snap.listings|
    requires var l := snap.listings[j]; var s := Slot(l.hash, l.key.ch);
             l.state == Leased || (Routed(snap, s) && Live(snap.listings, s) <= Budget(snap, s))
    ensures Judge(snap, j) == Keep
  {
    LivePrefix(snap.listings, j, Slot(snap.listings[j].hash, snap.listings[j].key.ch));
  }

  /** A slot over its budget has a row that is judged surplus, wherever it stands. */
  lemma OverBudgetIsJudged(snap: Snapshot, s: Slot) returns (j: nat)
    requires DistinctKeys(snap.listings) && Live(snap.listings, s) > Budget(snap, s)
    ensures j < |snap.listings| && (Routed(snap, s) ==> Judge(snap, j) == Remove(Surplus))
  {
    var ls, b := snap.listings, Budget(snap, s);
    FrontSize(ls, s, b);
    LiveCountsKeys(ls, s);
    if KeysOf(ls, s) <= Front(ls, s, b) { SubsetSize(KeysOf(ls, s), Front(ls, s, b)); }
    var k :| k in KeysOf(ls, s) && k !in Front(ls, s, b);
    j := KeyOfRow(ls, s, k);
    if Live(ls[..j], s) < b { InFront(ls, s, b, j); }
  }

  /** Every published row landed in a routed slot with room for it. */
  ghost predicate LandsInRoom(c: Cycle)
    requires |c.refs| == |c.plan|
  {
    && (forall i | 0 <= i < |c.plan| && c.plan[i].Publish? :: Routed(c.snap, Home(c.t1, c.plan[i], c.refs[i])))
    && (forall s | Routed(c.snap, s) ::
          Min(Live(c.snap.listings, s), Budget(c.snap, s)) + |Joined(c.t1, c.plan, c.refs, s)| <= Budget(c.snap, s))
  }

  lemma SettledRow(c: Cycle, j: nat)
    requires Done(c) && AllServed(c.snap, c.now - c.grace) && LandsInRoom(c) && j < |c.next.listings|
    ensures Judge(c.next, j) == Keep
  {
    var s := Slot(c.next.listings[j].hash, c.next.listings[j].key.ch);
    if c.next.listings[j].state != Leased {
      assert SameDemand(c.snap, c.next) by { DemandUnchanged(c); }
      assert Routed(c.snap, s) by { SettledRowIsRouted(c, j); }
      assert RouteOf(c.snap, s.hash) == RouteOf(c.next, s.hash) && Budget(c.snap, s) == Budget(c.next, s);
      SettledLive(c, s);
    }
    WithinBudgetIsKept(c.next, j);
  }

  lemma SettledRowIsRouted(c: Cycle, j: nat)
    requires Done(c) && AllServed(c.snap, c.now - c.grace) && LandsInRoom(c)
    requires j < |c.next.listings| && c.next.listings[j].state != Leased
    ensures Routed(c.snap, Slot(c.next.listings[j].hash, c.next.listings[j].key.ch))
  {
    var i, n := RowOrigin(c, j);
    if 0 <= i < |c.snap.listings| {
      assert Judge(c.snap, i) == Keep;
    } else {
      JoinedRow(c, n);
      assert Enumerates(c.next.listings, c.t2);
    }
  }

  lemma KeptHomeIsRouted(c: Cycle, n: nat)
    requires Done(c) && n < |c.plan| && c.plan[n].Publish? && SameDemand(c.snap, c.next)
    requires forall j | 0 <= j < |c.next.listings| :: Judge(c.next, j) == Keep
    ensures Routed(c.snap, Home(c.t1, c.plan[n], c.refs[n]))
  {
    var s := Home(c.t1, c.plan[n], c.refs[n]);
    JoinedRow(c, n);
    var k := Target(c.plan[n], c.refs[n]);
    var j :| 0 <= j < |c.next.listings| && c.next.listings[j] == View(k, c.t2[k]);
    assert Judge(c.next, j) == Keep && RouteOf(c.snap, s.hash) == RouteOf(c.next, s.hash);
  }

  lemma KeptSlotHasRoom(c: Cycle, s: Slot)
    requires Done(c) && AllServed(c.snap, c.now - c.grace) && Routed(c.snap, s) && SameDemand(c.snap, c.next)
    requires forall j | 0 <= j < |c.next.listings| :: Judge(c.next, j) == Keep
    ensures Live(c.next.listings, s) <= Budget(c.snap, s)
  {
    assert RouteOf(c.snap, s.hash) == RouteOf(c.next, s.hash) && Budget(c.snap, s) == Budget(c.next, s);
    KeptIsWithinBudget(c.next, s);
  }

  lemma KeptIsWithinBudget(snap: Snapshot, s: Slot)
    requires DistinctKeys(snap.listings) && Routed(snap, s)
    requires forall j | 0 <= j < |snap.listings| :: Judge(snap, j) == Keep
    ensures Live(snap.listings, s) <= Budget(snap, s)
  {
    if Live(snap.listings, s) > Budget(snap, s) { var j := OverBudgetIsJudged(snap, s); }
  }

  /** No orphan, misplaced or surplus row is left exactly if every published row landed in a routed slot with room. */
  lemma SettledInOrderIff(c: Cycle)
    requires RealCycle(c) && AllServed(c.snap, c.now - c.grace)
    ensures (forall j | 0 <= j < |c.next.listings| :: Judge(c.next, j) == Keep) <==> LandsInRoom(c)
  {
    RealCycleIsDone(c);
    if LandsInRoom(c) {
      forall j | 0 <= j < |c.next.listings| ensures Judge(c.next, j) == Keep { SettledRow(c, j); }
    }
    if forall j | 0 <= j < |c.next.listings| :: Judge(c.next, j) == Keep {
      assert SameDemand(c.snap, c.next) by { DemandUnchanged(c); }
      forall n | 0 <= n < |c.plan| && c.plan[n].Publish? ensures Routed(c.snap, Home(c.t1, c.plan[n], c.refs[n])) {
        KeptHomeIsRouted(c, n);
      }
      forall s | Routed(c.snap, s)
        ensures Min(Live(c.snap.listings, s), Budget(c.snap, s)) + |Joined(c.t1, c.plan, c.refs, s)| <=
                Budget(c.snap, s)
      {
        SettledLive(c, s);
        KeptSlotHasRoom(c, s);
      }
    }
  }

  /** Ids that keep their hash land every row where it was published to, and there is room there. */
  lemma KeptHashesLandInRoom(c: Cycle)
    requires RealCycle(c) && KeepsHash(c)
    ensures LandsInRoom(c)
  {
    assert EchoOk(c.t1, c.plan, c.refs) by { RealCycleIsDone(c); }
    PlanIsSafe(c.snap, c.price, c.now, c.grace);
    HashKeptLandsWell(c);
    forall s | Routed(c.snap, s)
      ensures Min(Live(c.snap.listings, s), Budget(c.snap, s)) + |Joined(c.t1, c.plan, c.refs, s)| <=
              Budget(c.snap, s)
    {
      JoinedIsPlaced(c, s);
    }
  }

  // ---- inventory order ----

  ghost predicate OneRoute(items: seq<Item>)
  {
    forall a, b | a in items && b in items && a.hash == b.hash :: a.route == b.route
  }

  lemma {:induction false} LastRouteIsAny(items: seq<Item>, leased: set<string>, h: string)
    ensures LastRoute(items, leased, h).Some? <==> exists it | it in items :: it.asset !in leased && it.hash == h
    ensures LastRoute(items, leased, h).Some? ==>
              exists it | it in items :: it.asset !in leased && it.hash == h &&
                it.route == LastRoute(items, leased, h).value
  {
    if items != [] {
      var n := |items| - 1;
      LastRouteIsAny(items[..n], leased, h);
      assert items == items[..n] + [items[n]];
    }
  }

  /** With one route per hash, the order in which the inventory comes back is irrelevant. */
  lemma AnyInventoryOrder(items: seq<Item>, items': seq<Item>, leased: set<string>)
    requires OneRoute(items) && forall it :: it in items <==> it in items'
    ensures SameInventory(items, items', leased)
  {
    forall h ensures LastRoute(items, leased, h) == LastRoute(items', leased, h) {
      LastRouteIsAny(items, leased, h);
      LastRouteIsAny(items', leased, h);
    }
  }

  /** Two copies are wanted and only "new" has a price; at most "old" is on the shelf. */
  lemma OnlyNewIsPublished(terms: Terms, price: Pricing, ls: seq<Listing>)
    requires price(UU, Item("new", "h", UUOnly, None)) == Some(terms) &&
             price(UU, Item("old", "h", UUOnly, None)) == None
    requires |ls| <= 1 && forall l | l in ls :: l.hash == "h" && l.asset == "old" && l.key.ch == UU && l.state == Active
    ensures var items := [Item("new", "h", UUOnly, None), Item("old", "h", UUOnly, None)];
            PlanOf(Snapshot(items, ls, true), price, 0, 1) == [Publish(UU, "new", "h", terms)]
  {
    var fresh', stale := Item("new", "h", UUOnly, None), Item("old", "h", UUOnly, None);
    var snap, s := Snapshot([fresh', stale], ls, true), Slot("h", UU);
    assert LeasedAssets(ls) == {};
    assert snap.items[..1] == [fresh'] && snap.items[|snap.items| - 1] == stale;
    assert RouteOf(snap, "h") == Some(UUOnly);
    assert fresh' in snap.items && stale in snap.items;
    assert Wanted(snap.items, {}, true, s) == {"new", "old"};
    assert Live(ls, s) <= 1;
    assert Placed([], s) == {};
    assert MayPublish(snap, price, [], fresh', UU);
    assert DesiredChannels(UUOnly, true)[..0] == [];
    var one := [Publish(UU, "new", "h", terms)];
    assert PublishAll(snap, price, [], fresh', [UU]) == one;
    assert Publishes(snap, price, 1) == one;
    assert PublishAll(snap, price, one, stale, [UU]) == one;
    assert Publishes(snap, price, 2) == one;
    if |ls| == 1 { assert ls[0] in ls && Live(ls[..0], s) == 0 && Judge(snap, 0) == Keep; }
    assert Delists(snap, -1, |ls|) == [];
  }

  /**
   Why the echoed id matters: the write-back keeps the asset and hash of a row that already
   carries the id, so publishing "new" under the old id of "old" is planned again and again.
   */
  lemma ReusedIdIsNotAFixedPoint(terms: Terms, price: Pricing)
    requires price(UU, Item("new", "h", UUOnly, None)) == Some(terms) &&
             price(UU, Item("old", "h", UUOnly, None)) == None
    ensures var k := Key(UU, "g");
            var t: Table := map[k := Row("old", "h", Gone, terms, None, None, None, None, None)];
            var items := [Item("new", "h", UUOnly, None), Item("old", "h", UUOnly, None)];
            var publish := Publish(UU, "new", "h", terms);
            var t' := WriteBack(t, publish, Echo("g", 0));
            && Enumerates([], t) && PlanOf(Snapshot(items, [], true), price, 0, 1) == [publish]
            && Enumerates([View(k, t'[k])], t') &&
              PlanOf(Snapshot(items, [View(k, t'[k])], true), price, 0, 1) == [publish]
  {
    var k := Key(UU, "g");
    var t: Table := map[k := Row("old", "h", Gone, terms, None, None, None, None, None)];
    var t' := WriteBack(t, Publish(UU, "new", "h", terms), Echo("g", 0));
    OnlyNewIsPublished(terms, price, []);
    OnlyNewIsPublished(terms, price, [View(k, t'[k])]);
  }
}
