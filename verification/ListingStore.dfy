/** The store over the `listings` and `shelf_observations` tables, and the plan executor. */
module ListingStores {
  import opened Domain
  import opened Listings
  import opened ShelfSnapshot

  function Zip(ids: seq<Key>, reasons: seq<Option<MismatchReason>>): Observations
    requires |ids| == |reasons|
  {
    if ids == [] then map[]
    else Zip(ids[..|ids| - 1], reasons[..|ids| - 1])[ids[|ids| - 1] := reasons[|ids| - 1]]
  }

  lemma ZipStep(ids: seq<Key>, reasons: seq<Option<MismatchReason>>, k: Key, r: Option<MismatchReason>)
    requires |ids| == |reasons|
    ensures Zip(ids + [k], reasons + [r]) == Zip(ids, reasons)[k := r]
  {
    assert (ids + [k])[..|ids|] == ids && (reasons + [r])[..|ids|] == reasons;
  }

  method Unzip(observations: Observations) returns (ids: seq<Key>, reasons: seq<Option<MismatchReason>>)
    ensures |ids| == |reasons| && Zip(ids, reasons) == observations
  {
    ids, reasons := [], [];
    var rest := observations.Keys;
    while rest != {}
      invariant |ids| == |reasons| && rest <= observations.Keys
      invariant Zip(ids, reasons) == observations - rest
      decreases rest
    {
      var k :| k in rest;
      ZipStep(ids, reasons, k, observations[k]);
      ids, reasons := ids + [k], reasons + [observations[k]];
      rest := rest - {k};
    }
  }

  /** Collects the refs of a response, which must be of one channel, non-empty and distinct. */
  method CheckShelf(ch: Channel, shelf: seq<ShelfRow>) returns (valid: bool, seen: set<string>)
    ensures valid <==> ValidShelf(ch, shelf)
    ensures valid ==> seen == Refs(shelf)
  {
    seen := {};
    for i := 0 to |shelf|
      invariant ValidShelf(ch, shelf[..i]) && seen == Refs(shelf[..i])
    {
      if shelf[i].ch != ch || shelf[i].ref == "" || shelf[i].ref in seen {
        assert shelf[i].ref in Refs(shelf[..i]) ==> exists j | 0 <= j < i :: shelf[j].ref == shelf[i].ref;
        return false, seen;
      }
      seen := seen + {shelf[i].ref};
      assert shelf[..i + 1] == shelf[..i] + [shelf[i]];
    }
    assert shelf[..|shelf|] == shelf;
    valid := true;
  }

  class ListingStore {
    var table: Table
    var observed: map<Channel, int>

    constructor ()
      ensures table == map[] && observed == map[]
    {
      table, observed := map[], map[];
    }

    ghost function Contents(): Db
      reads this
    {
      Db(table, observed)
    }

    method ApplyShelfSnapshot(ch: Channel, shelf: seq<ShelfRow>, at: int) returns (outcome: Outcome)
      modifies this
      ensures (Contents(), outcome) == ApplySnapshot(old(Contents()), ch, shelf, at)
    {
      var valid, seen := CheckShelf(ch, shelf);
      if !valid { return Invalid; }
      if ch in observed && at <= observed[ch] { return Superseded; }
      if |shelf| == 0 {
        var active := |ShelfKeys(table, ch)|;
        if active > 0 { return Breaker(active); }
      }
      ghost var before := table;
      for i := 0 to |shelf|
        invariant table == Upserts(before, shelf[..i], at) && observed == old(observed)
      {
        assert shelf[..i + 1][..i] == shelf[..i];
        table := UpsertFromShelf(table, Named(shelf[i]), at);
      }
      assert shelf[..|shelf|] == shelf;
      outcome := Applied(|MissingKeys(table, ch, seen, at)|);
      table := MarkMissing(table, ch, seen, at);
      observed := observed[ch := at];
    }

    /** Two parallel arrays are filled in map order and unnested by one UPDATE. */
    method ObserveReconMismatches(observations: Observations, now: int)
      modifies this`table
      ensures table == ObserveMismatches(old(table), observations, now)
    {
      var ids, reasons := Unzip(observations);
      table := ObserveMismatches(table, Zip(ids, reasons), now);
    }

    /**
     Insert, or on a conflict refresh everything but identity: asset, hash and listing time of an old row
     are kept.
     */
    method RecordPublishedListing(k: Key, asset: string, hash: string, terms: Terms, clock: int)
      modifies this`table
      ensures k in table && forall x | x != k ::
              (x in table <==> x in old(table)) && (x in table ==> table[x] == old(table)[x])
      ensures table[k].state == Active && table[k].terms == terms && table[k].syncedAt == Some(clock)
      ensures table[k].retiredAt == None && table[k].mismatch == None
      ensures if k in old(table) then
                var was := old(table)[k];
                && table[k].asset == was.asset && table[k].hash == was.hash
                && table[k].listedAt == was.listedAt && table[k].repricedAt == was.repricedAt
              else
                && table[k].asset == asset && table[k].hash == hash
                && table[k].listedAt == Some(clock) && table[k].repricedAt == None
      ensures table == RecordPublished(old(table), k, asset, hash, terms, clock)
    {
      if k !in table {
        table := table[k := Row(asset, hash, Active, terms, Some(clock), Some(clock), None, None, None)];
        return;
      }
      var r := table[k];
      table := table[k := Row(r.asset, r.hash, Active, terms, r.listedAt, Some(clock), r.repricedAt, None, None)];
    }

    /** An unknown id changes nothing. */
    method MarkListingDelisted(k: Key, clock: int)
      modifies this`table
      ensures table.Keys == old(table).Keys && forall x | x in table && x != k :: table[x] == old(table)[x]
      ensures k in table ==>
                var was := old(table)[k];
                && table[k].state == Gone && table[k].mismatch == None
                && table[k].syncedAt == Some(clock) && table[k].retiredAt == Some(clock)
                && table[k].asset == was.asset && table[k].hash == was.hash && table[k].terms == was.terms
                && table[k].listedAt == was.listedAt && table[k].repricedAt == was.repricedAt
      ensures table == MarkDelisted(old(table), k, clock)
    {
      if k !in table { return; }
      var r := table[k];
      table := table[k := Row(r.asset, r.hash, Gone, r.terms, r.listedAt, Some(clock), r.repricedAt, Some(clock),
        None)];
    }
  }
}

module Executor {
  import opened Domain
  import opened Listings
  import opened Recon
  import opened ReconFixpoint
  import opened ListingStores

  datatype Verdict = Confirmed | Refused(risk: bool)

  /**
   The outside world's part in one action: cooldown state, cancellation of the run, platform
   verdict, echoed id, and whether the write-back succeeds.
   */
  datatype Answer = Answer(ready: bool, cancelled: bool, verdict: Verdict, echo: Echo, persisted: bool)

  datatype Config = Config(dryRun: bool, adapters: set<Channel>)

  datatype Progress = Progress(
    table: Table, blocked: set<Channel>, applied: nat, failed: nat, calls: seq<Action>, stopped: bool)

  function Start(t: Table): Progress { Progress(t, {}, 0, 0, [], false) }

  function ChannelOf(a: Action): Channel { if a.Publish? then a.ch else a.key.ch }

  /** Whether the effect of a confirmed action reaches the table. */
  predicate Recorded(a: Action, w: Answer) { w.persisted && (a.Publish? ==> w.echo.ref != "") }

  function ExecuteOne(c: Config, p: Progress, a: Action, w: Answer): Progress
  {
    var ch := ChannelOf(a);
    if p.stopped then p
    else if ch !in c.adapters then p.(failed := p.failed + 1)
    else if c.dryRun then p.(applied := p.applied + 1)
    else if ch in p.blocked || !w.ready then p.(failed := p.failed + 1)
    else if w.cancelled then p.(stopped := true)
    else
      var q := p.(calls := p.calls + [a]);
      match w.verdict
      case Refused(risk) => q.(failed := q.failed + 1, blocked := if risk then q.blocked + {ch} else q.blocked)
      case Confirmed =>
        if Recorded(a, w) then q.(applied := q.applied + 1, table := WriteBack(q.table, a, w.echo))
        else q.(applied := q.applied + 1, failed := q.failed + 1)
  }

  function Execute(c: Config, p: Progress, plan: seq<Action>, world: seq<Answer>): Progress
    requires |world| == |plan|
  {
    if plan == [] then p
    else
      var n := |plan| - 1;
      ExecuteOne(c, Execute(c, p, plan[..n], world[..n]), plan[n], world[n])
  }

  /** A run reports no error exactly if nothing failed and it was not cancelled. */
  predicate Clean(p: Progress) { p.failed == 0 && !p.stopped }

  lemma {:induction false} StoppedStays(c: Config, p: Progress, plan: seq<Action>, world: seq<Answer>, n: nat)
    requires |world| == |plan| && n <= |plan| && Execute(c, p, plan[..n], world[..n]).stopped
    ensures Execute(c, p, plan, world) == Execute(c, p, plan[..n], world[..n])
    decreases |plan| - n
  {
    if n < |plan| {
      assert plan[..n + 1][..n] == plan[..n] && world[..n + 1][..n] == world[..n];
      StoppedStays(c, p, plan, world, n + 1);
    } else {
      assert plan[..n] == plan && world[..n] == world;
    }
  }

  lemma ExecutePrefix(c: Config, p: Progress, plan: seq<Action>, world: seq<Answer>, i: nat)
    requires |world| == |plan| && i < |plan|
    ensures Execute(c, p, plan[..i + 1], world[..i + 1]) ==
            ExecuteOne(c, Execute(c, p, plan[..i], world[..i]), plan[i], world[i])
  {
    assert plan[..i + 1][..i] == plan[..i] && world[..i + 1][..i] == world[..i];
  }

  /**
   ExecuteWithError: applied and failed counts, whether no error is reported, and the platform calls
   made, in order.
   */
  method ExecuteWithError(store: ListingStore, c: Config, plan: seq<Action>, world: seq<Answer>)
    returns (applied: nat, failed: nat, ok: bool, calls: seq<Action>)
    requires |world| == |plan|
    modifies store
    ensures store.observed == old(store.observed)
    ensures var end := Execute(c, Start(old(store.table)), plan, world);
            && store.table == end.table && applied == end.applied && failed == end.failed && calls == end.calls
            && ok == Clean(end)
  {
    applied, failed, calls := 0, 0, [];
    var errs := 0;
    var blocked: set<Channel> := {};
    ghost var start := Start(store.table);
    for i := 0 to |plan|
      invariant store.observed == old(store.observed) && errs == failed
      invariant Progress(store.table, blocked, applied, failed, calls, false) ==
                Execute(c, start, plan[..i], world[..i])
    {
      var a, w := plan[i], world[i];
      ExecutePrefix(c, start, plan, world, i);
      var ch := ChannelOf(a);
      if ch !in c.adapters {
        failed, errs := failed + 1, errs + 1;
        continue;
      }
      if c.dryRun {
        applied := applied + 1;
        continue;
      }
      if ch in blocked || !w.ready {
        failed, errs := failed + 1, errs + 1;
        continue;
      }
      if w.cancelled {
        StoppedStays(c, start, plan, world, i + 1);
        ok := false;
        return;
      }
      calls := calls + [a];
      if w.verdict.Refused? {
        if w.verdict.risk { blocked := blocked + {ch}; }
        failed, errs := failed + 1, errs + 1;
        continue;
      }
      applied := applied + 1;
      if !Recorded(a, w) {
        failed, errs := failed + 1, errs + 1;
      } else if a.Publish? {
        store.RecordPublishedListing(Key(a.ch, w.echo.ref), a.asset, a.hash, a.terms, w.echo.at);
      } else {
        store.MarkListingDelisted(a.key, w.echo.at);
      }
    }
    assert plan[..|plan|] == plan && world[..|plan|] == world;
    ok := errs == 0;
  }

  function Echoes(world: seq<Answer>): (r: seq<Echo>)
    ensures |r| == |world| && forall i | 0 <= i < |r| :: r[i] == world[i].echo
  {
    seq(|world|, i requires 0 <= i < |world| => world[i].echo)
  }

  /** A dry run makes no platform call and changes nothing, and every action with an adapter counts as applied. */
  lemma {:induction false} DryRunTouchesNothing(c: Config, p: Progress, plan: seq<Action>, world: seq<Answer>)
    requires |world| == |plan| && c.dryRun
    ensures var end := Execute(c, p, plan, world);
            end.table == p.table && end.calls == p.calls &&
              (!p.stopped ==> end.applied + end.failed == p.applied + p.failed + |plan| && !end.stopped)
  {
    if plan != [] { DryRunTouchesNothing(c, p, plan[..|plan| - 1], world[..|plan| - 1]); }
  }

  lemma {:induction false} BlockedStaysSilent(c: Config, p: Progress, plan: seq<Action>, world: seq<Answer>,
      ch: Channel)
    requires |world| == |plan| && ch in p.blocked
    ensures var end := Execute(c, p, plan, world);
            && ch in end.blocked && p.calls <= end.calls
            && forall i | |p.calls| <= i < |end.calls| :: ChannelOf(end.calls[i]) != ch
  {
    if plan != [] { BlockedStaysSilent(c, p, plan[..|plan| - 1], world[..|plan| - 1], ch); }
  }

  lemma ExecuteOneMore(c: Config, p: Progress, plan: seq<Action>, world: seq<Answer>, a: Action, w: Answer)
    requires |world| == |plan|
    ensures Execute(c, p, plan + [a], world + [w]) == ExecuteOne(c, Execute(c, p, plan, world), a, w)
  {
    assert (plan + [a])[..|plan|] == plan && (world + [w])[..|plan|] == world;
  }

  /** A run is its first part followed by its second. */
  lemma {:induction false} ExecuteInParts(c: Config, p: Progress, first: seq<Action>, firstWorld: seq<Answer>,
      more: seq<Action>, moreWorld: seq<Answer>)
    requires |firstWorld| == |first| && |moreWorld| == |more|
    ensures Execute(c, p, first + more, firstWorld + moreWorld) ==
            Execute(c, Execute(c, p, first, firstWorld), more, moreWorld)
    decreases |more|
  {
    if more == [] {
      assert first + more == first && firstWorld + moreWorld == firstWorld;
    } else {
      var n := |more| - 1;
      var rest, restWorld, a, w := more[..n], moreWorld[..n], more[n], moreWorld[n];
      ExecuteInParts(c, p, first, firstWorld, rest, restWorld);
      ExecuteOneMore(c, p, first + rest, firstWorld + restWorld, a, w);
      assert first + more == first + rest + [a] && firstWorld + moreWorld == firstWorld + restWorld + [w];
    }
  }

  /** The action reaches its platform: there is an adapter, the channel is ready and no signal of this run blocks it. */
  predicate GoesOut(c: Config, p: Progress, ch: Channel, w: Answer)
  {
    !p.stopped && !c.dryRun && ch in c.adapters && !(ch in p.blocked) && w.ready && !w.cancelled
  }

  /** A confirmed effect that also reached the table: a publish needs an echoed id for that. */
  predicate Kept(a: Action, w: Answer)
  {
    w.verdict == Confirmed && w.persisted && !(a.Publish? && w.echo.ref == "")
  }

  /**
   What the n-th action of a run does to its calls, counts, blocks and table, whatever came before. The run stops
   only at a cancellation, and only where it would have called the platform.
   */
  lemma NthAction(c: Config, p: Progress, plan: seq<Action>, world: seq<Answer>, n: nat)
    requires |world| == |plan| && n < |plan|
    ensures var q, r := Execute(c, p, plan[..n], world[..n]), Execute(c, p, plan[..n + 1], world[..n + 1]);
            var a, w := plan[n], world[n];
            var ch := if a.Delist? then a.key.ch else a.ch;
            var sent := GoesOut(c, q, ch, w);
            && r.calls == q.calls + (if sent then [a] else [])
            && (r.stopped <==> q.stopped || (w.cancelled && GoesOut(c, q, ch, w.(cancelled := false))))
            && r.blocked == q.blocked + (if sent && w.verdict == Refused(true) then {ch} else {})
            && r.table == (if sent && Kept(a, w) then WriteBack(q.table, a, w.echo) else q.table)
            && r.applied - q.applied ==
               (if !q.stopped && ch in c.adapters && (c.dryRun || (sent && w.verdict == Confirmed)) then 1 else 0)
            && r.failed - q.failed ==
               (if r.stopped || (ch in c.adapters && (c.dryRun || (sent && Kept(a, w)))) then 0 else 1)
  {
    ExecutePrefix(c, p, plan, world, n);
  }

  /** The n-th action of a run was sent and answered with a risk signal. */
  ghost predicate RiskAt(c: Config, p: Progress, plan: seq<Action>, world: seq<Answer>, n: nat)
    requires |world| == |plan| && n < |plan|
  {
    world[n].verdict == Refused(true) &&
    Execute(c, p, plan[..n + 1], world[..n + 1]).calls == Execute(c, p, plan[..n], world[..n]).calls + [plan[n]]
  }

  /** Once an action of a run drew a risk signal, no later action of the run calls that channel. */
  lemma BlockedChannelIsLeftAlone(c: Config, p: Progress, plan: seq<Action>, world: seq<Answer>, n: nat)
    requires |world| == |plan| && n < |plan| && RiskAt(c, p, plan, world, n)
    ensures var sent, end := Execute(c, p, plan[..n + 1], world[..n + 1]).calls, Execute(c, p, plan, world);
            && sent <= end.calls && sent[|sent| - 1] == plan[n]
            && forall i | |sent| <= i < |end.calls| :: ChannelOf(end.calls[i]) != ChannelOf(plan[n])
  {
    var before, mid := Execute(c, p, plan[..n], world[..n]), Execute(c, p, plan[..n + 1], world[..n + 1]);
    assert plan[..n + 1][..n] == plan[..n] && world[..n + 1][..n] == world[..n];
    SignalBlocks(c, before, plan[n], world[n]);
    assert mid == ExecuteOne(c, before, plan[n], world[n]);
    ExecuteInParts(c, p, plan[..n + 1], world[..n + 1], plan[n + 1..], world[n + 1..]);
    assert plan[..n + 1] + plan[n + 1..] == plan && world[..n + 1] + world[n + 1..] == world;
    BlockedStaysSilent(c, mid, plan[n + 1..], world[n + 1..], ChannelOf(plan[n]));
  }

  lemma SignalBlocks(c: Config, p: Progress, a: Action, w: Answer)
    requires w.verdict == Refused(true) && ExecuteOne(c, p, a, w).calls == p.calls + [a]
    ensures ChannelOf(a) in ExecuteOne(c, p, a, w).blocked
  {
  }

  /** What one action may do to the counts, the calls and the table. */
  ghost predicate Accounted(dryRun: bool, p: Progress, q: Progress, a: Action, e: Echo)
  {
    && (!q.stopped ==> !p.stopped && q.applied + q.failed >= p.applied + p.failed + 1) && q.failed >= p.failed
    && (q.failed == p.failed && !q.stopped && !dryRun ==>
          q.calls == p.calls + [a] && q.applied == p.applied + 1 && q.table == WriteBack(p.table, a, e))
  }

  lemma CleanStep(c: Config, p: Progress, a: Action, w: Answer)
    ensures Accounted(c.dryRun, p, ExecuteOne(c, p, a, w), a, w.echo)
  {
  }

  /** The plan so far is accounted for, and done to the letter if no error came up. */
  ghost predicate DoneSoFar(dryRun: bool, t: Table, plan: seq<Action>, refs: seq<Echo>, p: Progress)
    requires |refs| == |plan|
  {
    && (!p.stopped ==> p.applied + p.failed >= |plan|)
    && (Clean(p) && !dryRun ==> p.calls == plan && p.applied == |plan| && p.table == WriteBacks(t, plan, refs))
  }

  lemma DoneOneMore(dryRun: bool, t: Table, plan: seq<Action>, refs: seq<Echo>, p: Progress, q: Progress)
    requires |refs| == |plan| > 0 && DoneSoFar(dryRun, t, plan[..|plan| - 1], refs[..|plan| - 1], p)
    requires Accounted(dryRun, p, q, plan[|plan| - 1], refs[|plan| - 1])
    ensures DoneSoFar(dryRun, t, plan, refs, q)
  {
    if Clean(q) && !dryRun {
      var n := |plan| - 1;
      assert q.calls == p.calls + [plan[n]];
      assert plan == plan[..n] + [plan[n]];
      assert q.table == WriteBack(p.table, plan[n], refs[n]);
    }
  }

  /**
   Unless the run is cancelled every action is accounted for; a run that reports no error did exactly
   the plan and wrote all of it back.
   */
  lemma {:induction false} CleanRunWritesBack(c: Config, t: Table, plan: seq<Action>, world: seq<Answer>)
    requires |world| == |plan|
    ensures DoneSoFar(c.dryRun, t, plan, Echoes(world), Execute(c, Start(t), plan, world))
  {
    if plan != [] {
      var n := |plan| - 1;
      var p := Execute(c, Start(t), plan[..n], world[..n]);
      CleanRunWritesBack(c, t, plan[..n], world[..n]);
      assert Echoes(world)[..n] == Echoes(world[..n]);
      CleanStep(c, p, plan[n], world[n]);
      DoneOneMore(c.dryRun, t, plan, Echoes(world), p, ExecuteOne(c, p, plan[n], world[n]));
    }
  }

  /**
   The echoes of a cycle are those of a world in which its plan runs without an error, and the table is
   what that run leaves.
   */
  ghost predicate RunsClean(cy: Cycle, c: Config, world: seq<Answer>)
  {
    && |world| == |cy.plan| && !c.dryRun && cy.refs == Echoes(world) && PlannedCycle(cy)
    && Clean(Execute(c, Start(cy.t1), cy.plan, world)) && cy.t2 == Execute(c, Start(cy.t1), cy.plan, world).table
  }

  /** A cycle whose execution reports no error is followed by an empty plan exactly if the echoed ids fit. */
  lemma CleanCycleReplansToNothing(cy: Cycle, c: Config, world: seq<Answer>)
    requires RunsClean(cy, c, world)
    ensures RealCycle(cy)
    ensures PlanOf(cy.next, cy.price, cy.now, cy.grace) == [] <==> EchoesFit(cy)
  {
    CleanRunWritesBack(c, cy.t1, cy.plan, world);
    ReplanIsEmptyIff(cy);
  }
}
