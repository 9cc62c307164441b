/**
 The grace clock over every run: reconciliation cycles interleaved with shelf snapshots,
 publishes, delists and reprices.

 A cycle reads the table, and persists its observations in a later step; anything may happen to
 the table in between. One cycle is in flight at a time, as the job scheduler guarantees.
 */
module ReconGrace {
  import opened Domain
  import opened Listings
  import opened Recon
  import opened ReconSafety
  import opened ReconFixpoint
  import opened ReconMeaning
  import opened ShelfSnapshot

  /** A grace that is not positive falls back to the default of one day. */
  function EffectiveGrace(grace: int): int { if grace <= 0 then DAY else grace }

  /** A planning round: its time and grace, what it observed and what it planned. */
  datatype Round = Round(now: int, grace: int, obs: Observations, plan: seq<Action>)

  datatype GraceState = GraceState(db: Db, flight: Option<Round>, history: seq<Round>)

  datatype GraceEvent =
    | Read(snap: Snapshot, price: Pricing, now: int, grace: int)
    | Complete
    | Fail
    | Response(ch: Channel, at: int, shelf: seq<ShelfRow>)
    | Put(key: Key, asset: string, hash: string, terms: Terms, clock: int)
    | Drop(key: Key, clock: int)
    | Rewrite(key: Key, terms: Terms, clock: int)

  ghost predicate CanHappen(s: GraceState, e: GraceEvent)
  {
    match e
    case Read(snap, _, _, _) => s.flight == None && Enumerates(snap.listings, s.db.table)
    case Complete => s.flight.Some?
    case _ => true
  }

  ghost function After(s: GraceState, e: GraceEvent): GraceState
    requires CanHappen(s, e)
  {
    match e
    case Read(snap, price, now, grace) =>
      s.(flight := Some(Round(now, EffectiveGrace(grace), Watch(snap, |snap.listings|),
        PlanOf(snap, price, now, EffectiveGrace(grace)))))
    case Complete =>
      var r := s.flight.value;
      GraceState(s.db.(table := ObserveMismatches(s.db.table, r.obs, r.now)), None, s.history + [r])
    case Fail => s.(flight := None)
    case Response(ch, at, shelf) => s.(db := ApplySnapshot(s.db, ch, shelf, at).0)
    case Put(k, asset, hash, terms, clock) =>
      s.(db := s.db.(table := RecordPublished(s.db.table, k, asset, hash, terms, clock)))
    case Drop(k, clock) => s.(db := s.db.(table := MarkDelisted(s.db.table, k, clock)))
    case Rewrite(k, terms, clock) => s.(db := s.db.(table := UpdateDecision(s.db.table, k, terms, clock)))
  }

  // ---- what a stored mismatch stands for ----

  predicate Saw(r: Round, k: Key, reason: MismatchReason) { k in r.obs && r.obs[k] == Some(reason) }

  /** Round j started the clock at m.since and every round since saw the same reason. */
  ghost predicate Since(history: seq<Round>, k: Key, m: Mismatch, j: int)
  {
    0 <= j < |history| && history[j].now == m.since && forall i | j <= i < |history| :: Saw(history[i], k, m.reason)
  }

  ghost predicate Backed(history: seq<Round>, k: Key, m: Mismatch) { exists j :: Since(history, k, m, j) }

  ghost predicate AllBacked(history: seq<Round>, t: Table)
  {
    forall k | k in t && t[k].mismatch.Some? :: Backed(history, k, t[k].mismatch.value)
  }

  function GracedReason(r: DelistReason): Option<MismatchReason> { Graced(Remove(r)) }

  /**
   The delist was due: some earlier round at least a grace ago saw its reason, and so did every round
   since, this one included.
   */
  ghost predicate Due(history: seq<Round>, r: Round, a: Action)
  {
    a.Delist? && GracedReason(a.reason).Some? ==>
      && Saw(r, a.key, GracedReason(a.reason).value)
      && exists m: Mismatch ::
           m.since <= r.now - r.grace && m.reason == GracedReason(a.reason).value && Backed(history, a.key, m)
  }

  ghost predicate AllDue(history: seq<Round>, r: Round) { forall a | a in r.plan :: Due(history, r, a) }

  /** A round in flight has observed every row that carries a mismatch. */
  ghost predicate SeesAll(r: Round, t: Table)
  {
    forall k | k in t && t[k].mismatch.Some? :: k in r.obs
  }

  ghost predicate GraceInv(s: GraceState)
  {
    && MismatchOnlyActive(s.db.table)
    && AllBacked(s.history, s.db.table)
    && (s.flight.Some? ==>
          s.flight.value.grace > 0 && AllDue(s.history, s.flight.value) && SeesAll(s.flight.value, s.db.table))
    && (forall c | 0 <= c < |s.history| :: s.history[c].grace > 0 && AllDue(s.history[..c], s.history[c]))
  }

  // ---- steps ----

  /** Every table write other than an observation keeps a mismatch or clears it. */
  ghost predicate OnlyClears(t: Table, t': Table)
  {
    && (MismatchOnlyActive(t) ==> MismatchOnlyActive(t'))
    && forall k | k in t' && t'[k].mismatch.Some? :: k in t && t[k].mismatch == t'[k].mismatch
  }

  lemma SnapshotOnlyClears(db: Db, ch: Channel, shelf: seq<ShelfRow>, at: int)
    ensures OnlyClears(db.table, ApplySnapshot(db, ch, shelf, at).0.table)
  {
    var t := ApplySnapshot(db, ch, shelf, at).0.table;
    if ApplySnapshot(db, ch, shelf, at).1.Applied? {
      forall k | k in t && t[k].mismatch.Some?
        ensures k in db.table && db.table[k].mismatch == t[k].mismatch &&
                (t[k].state == Active || t[k].state == db.table[k].state)
      {
        if k.ch == ch && k.ref in Refs(shelf) {
          var i :| 0 <= i < |shelf| && shelf[i].ref == k.ref;
          AppliedListed(db, ch, shelf, at, i);
        } else {
          AppliedUnlisted(db, ch, shelf, at, k);
        }
      }
    }
  }

  lemma ClearingKeepsInv(s: GraceState, t: Table, observed: map<Channel, int>)
    requires GraceInv(s) && OnlyClears(s.db.table, t)
    ensures GraceInv(s.(db := Db(t, observed)))
  {
  }

  lemma PlannedDelistIsServed(snap: Snapshot, price: Pricing, now: int, grace: int, a: Action) returns (i: nat)
    requires a in PlanOf(snap, price, now, grace) && a.Delist?
    ensures i < |snap.listings| && Removes(snap, now - grace, i) && a == DelistOf(snap, i)
  {
    var pubs, dels := Publishes(snap, price, |snap.items|), Delists(snap, now - grace, |snap.listings|);
    PublishesSafe(snap, price, |snap.items|);
    assert a in dels;
    i := DelistSource(snap, now - grace, |snap.listings|, a);
  }

  lemma ReadIsDue(history: seq<Round>, t: Table, snap: Snapshot, price: Pricing, now: int, grace: int, a: Action)
    requires AllBacked(history, t) && Enumerates(snap.listings, t) && a in PlanOf(snap, price, now, grace)
    ensures Due(history, Round(now, grace, Watch(snap, |snap.listings|), PlanOf(snap, price, now, grace)), a)
  {
    if a.Delist? && GracedReason(a.reason).Some? {
      var i := PlannedDelistIsServed(snap, price, now, grace, a);
      WatchRow(snap, |snap.listings|, i);
      var l := snap.listings[i];
      assert t[l.key].mismatch == l.mismatch && Served(l, GracedReason(a.reason).value, now - grace);
      assert Backed(history, a.key, l.mismatch.value);
    }
  }

  lemma ReadKeepsInv(s: GraceState, snap: Snapshot, price: Pricing, now: int, grace: int)
    requires GraceInv(s) && CanHappen(s, Read(snap, price, now, grace))
    ensures GraceInv(After(s, Read(snap, price, now, grace)))
  {
    var r := After(s, Read(snap, price, now, grace)).flight.value;
    forall a | a in r.plan ensures Due(s.history, r, a) {
      ReadIsDue(s.history, s.db.table, snap, price, now, EffectiveGrace(grace), a);
    }
    forall k | k in s.db.table && s.db.table[k].mismatch.Some? ensures k in r.obs {
      assert View(k, s.db.table[k]) in snap.listings;
      var i :| 0 <= i < |snap.listings| && snap.listings[i] == View(k, s.db.table[k]);
      WatchRow(snap, |snap.listings|, i);
    }
  }

  /** Completing a round extends the chain of a continuing mismatch and starts one for a new mismatch. */
  lemma CompleteBacks(history: seq<Round>, r: Round, t: Table, k: Key)
    requires AllBacked(history, t) && k in t && (t[k].mismatch.Some? ==> k in r.obs)
    requires ObserveMismatches(t, r.obs, r.now)[k].mismatch.Some?
    ensures Backed(history + [r], k, ObserveMismatches(t, r.obs, r.now)[k].mismatch.value)
  {
    var m := ObserveMismatches(t, r.obs, r.now)[k].mismatch.value;
    if t[k].mismatch == Some(m) {
      var j :| Since(history, k, m, j);
      assert Since(history + [r], k, m, j);
    } else {
      assert Since(history + [r], k, m, |history|);
    }
  }

  lemma CompleteKeepsInv(s: GraceState)
    requires GraceInv(s) && s.flight.Some?
    ensures GraceInv(After(s, Complete))
  {
    var r, s' := s.flight.value, After(s, Complete);
    forall k | k in s'.db.table && s'.db.table[k].mismatch.Some?
      ensures Backed(s'.history, k, s'.db.table[k].mismatch.value)
    {
      CompleteBacks(s.history, r, s.db.table, k);
    }
    forall c | 0 <= c < |s'.history| ensures s'.history[c].grace > 0 && AllDue(s'.history[..c], s'.history[c]) {
      assert s'.history[..c] == s.history[..c];
      assert c == |s.history| ==> s.history[..c] == s.history;
    }
  }

  lemma StepKeepsInv(s: GraceState, e: GraceEvent)
    requires GraceInv(s) && CanHappen(s, e)
    ensures GraceInv(After(s, e))
  {
    match e
    case Read(snap, price, now, grace) => ReadKeepsInv(s, snap, price, now, grace);
    case Complete => CompleteKeepsInv(s);
    case Fail =>
    case Response(ch, at, shelf) =>
      SnapshotOnlyClears(s.db, ch, shelf, at);
      ClearingKeepsInv(s, After(s, e).db.table, After(s, e).db.observed);
    case Put(_, _, _, _, _) => ClearingKeepsInv(s, After(s, e).db.table, s.db.observed);
    case Drop(_, _) => ClearingKeepsInv(s, After(s, e).db.table, s.db.observed);
    case Rewrite(_, _, _) => ClearingKeepsInv(s, After(s, e).db.table, s.db.observed);
  }

  // ---- runs ----

  ghost predicate GraceRun(states: seq<GraceState>, events: seq<GraceEvent>)
  {
    && |states| == |events| + 1
    && states[0] == GraceState(Db(map[], map[]), None, [])
    && forall i | 0 <= i < |events| :: CanHappen(states[i], events[i]) && states[i + 1] == After(states[i], events[i])
  }

  lemma {:induction false} RunKeepsInv(states: seq<GraceState>, events: seq<GraceEvent>, n: nat)
    requires GraceRun(states, events) && n < |states|
    ensures GraceInv(states[n])
  {
    if n > 0 {
      RunKeepsInv(states, events, n - 1);
      StepKeepsInv(states[n - 1], events[n - 1]);
    }
  }

  /** Round j lies a grace period before round c, and every round from j to c saw the reason. */
  ghost predicate SawThroughout(h: seq<Round>, j: nat, c: nat, k: Key, reason: MismatchReason)
    requires c < |h|
  {
    j < c && h[j].now <= h[c].now - h[c].grace && forall i | j <= i <= c :: Saw(h[i], k, reason)
  }

  /**
   Over every run, an orphan or surplus delist planned by a completed round c is preceded by a
   round j at least one grace period earlier, and every round from j to c saw that same reason.
   */
  lemma DelistWaitsOutGrace(states: seq<GraceState>, events: seq<GraceEvent>, n: nat, c: nat, a: Action)
    requires GraceRun(states, events) && n < |states| && c < |states[n].history|
    requires a in states[n].history[c].plan && a.Delist?
    ensures states[n].history[c].grace > 0
    ensures a.reason == Orphan ==>
              exists j :: 0 <= j < c && SawThroughout(states[n].history, j, c, a.key, OrphanNotRoutable)
    ensures a.reason == Surplus ==>
              exists j :: 0 <= j < c && SawThroughout(states[n].history, j, c, a.key, SurplusCopies)
  {
    RunKeepsInv(states, events, n);
    var h := states[n].history;
    if GracedReason(a.reason).Some? {
      assert Due(h[..c], h[c], a);
      var m: Mismatch :| m.since <= h[c].now - h[c].grace && m.reason == GracedReason(a.reason).value &&
        Backed(h[..c], a.key, m);
      var j :| Since(h[..c], a.key, m, j);
      assert forall i | j <= i < c :: h[..c][i] == h[i];
      assert SawThroughout(h, j, c, a.key, GracedReason(a.reason).value);
    }
  }

  // ---- and no longer than that ----

  predicate IsActive(t: Table, k: Key) { k in t && t[k].state == Active }

  /** The step does not publish the row again, and a round that looked at it saw the reason once more. */
  predicate Continues(s: GraceState, e: GraceEvent, k: Key, reason: MismatchReason)
  {
    && (e.Put? ==> e.key != k)
    && (e.Complete? && s.flight.Some? && k in s.flight.value.obs ==> s.flight.value.obs[k] == Some(reason))
  }

  /**
   The round completed by event m is the first to see the reason on an active row; up to state n the row stays
   active and nothing but that reason is seen on it.
   */
  ghost predicate FirstSeen(states: seq<GraceState>, events: seq<GraceEvent>, m: nat, n: nat, k: Key,
      reason: MismatchReason)
    requires |states| == |events| + 1 && m < n < |states|
  {
    && events[m].Complete? && states[m].flight.Some? && Saw(states[m].flight.value, k, reason)
    && IsActive(states[m].db.table, k)
    && (states[m].db.table[k].mismatch.Some? ==> states[m].db.table[k].mismatch.value.reason != reason)
    && (forall i | m < i < n :: Continues(states[i], events[i], k, reason))
    && (forall i | m < i <= n :: IsActive(states[i].db.table, k))
  }

  lemma ResponseKeepsClock(db: Db, ch: Channel, shelf: seq<ShelfRow>, at: int, k: Key)
    requires IsActive(db.table, k) && IsActive(ApplySnapshot(db, ch, shelf, at).0.table, k)
    ensures ApplySnapshot(db, ch, shelf, at).0.table[k].mismatch == db.table[k].mismatch
  {
    if ApplySnapshot(db, ch, shelf, at).1.Applied? {
      if k.ch == ch && k.ref in Refs(shelf) {
        var i :| 0 <= i < |shelf| && shelf[i].ref == k.ref;
        AppliedListed(db, ch, shelf, at, i);
      } else {
        AppliedUnlisted(db, ch, shelf, at, k);
      }
    }
  }

  lemma StepKeepsClock(s: GraceState, e: GraceEvent, k: Key, m: Mismatch)
    requires CanHappen(s, e) && Continues(s, e, k, m.reason)
    requires IsActive(s.db.table, k) && IsActive(After(s, e).db.table, k) && s.db.table[k].mismatch == Some(m)
    ensures After(s, e).db.table[k].mismatch == Some(m)
  {
    if e.Response? { ResponseKeepsClock(s.db, e.ch, e.shelf, e.at, k); }
  }

  /** The clock starts at the first sight of the reason and is never restarted. */
  lemma {:induction false} ClockIsNotRestarted(states: seq<GraceState>, events: seq<GraceEvent>, m: nat, n: nat,
      k: Key, reason: MismatchReason)
    requires GraceRun(states, events) && m < n < |states| && FirstSeen(states, events, m, n, k, reason)
    ensures states[n].db.table[k].mismatch == Some(Mismatch(states[m].flight.value.now, reason))
  {
    if m + 1 < n {
      var j := n - 1;
      ClockIsNotRestarted(states, events, m, j, k, reason);
      assert CanHappen(states[j], events[j]) && states[j + 1] == After(states[j], events[j]);
      StepKeepsClock(states[j], events[j], k, Mismatch(states[m].flight.value.now, reason));
    } else {
      assert CanHappen(states[m], events[m]) && states[n] == After(states[m], events[m]);
    }
  }

  /** The reason that a delist reason is put on record as. */
  predicate OnRecordAs(reason: DelistReason, r: MismatchReason)
  {
    (reason == Orphan && r == OrphanNotRoutable) || (reason == Surplus && r == SurplusCopies)
  }

  /**
   Over every run, an orphan or a surplus copy that was first seen as such in some round, and as nothing else
   since, is planned for removal by a later round exactly if a grace has gone by between the two.
   */
  lemma DelistedOnceGraceIsServed(states: seq<GraceState>, events: seq<GraceEvent>, m: nat, n: nat, i: nat,
      reason: DelistReason, r: MismatchReason)
    requires GraceRun(states, events) && m < n < |events| && events[n].Read? && i < |events[n].snap.listings|
    requires OnRecordAs(reason, r) && Departs(events[n].snap, i, reason)
    requires FirstSeen(states, events, m, n, events[n].snap.listings[i].key, r)
    ensures var l, plan := events[n].snap.listings[i], states[n + 1].flight;
            && plan.Some?
            && (Action.Delist(l.key, l.hash, reason) in plan.value.plan <==>
                  events[n].now - states[m].flight.value.now >= if events[n].grace > 0 then events[n].grace else 86400)
  {
    var e := events[n];
    var l := e.snap.listings[i];
    assert CanHappen(states[n], e) && states[n + 1] == After(states[n], e);
    ClockIsNotRestarted(states, events, m, n, l.key, r);
    assert l.mismatch == Some(Mismatch(states[m].flight.value.now, r));
    DelistIff(e.snap, e.price, e.now, EffectiveGrace(e.grace), l.key, l.hash, reason);
  }
}
