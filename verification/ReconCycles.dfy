/**
 The hypotheses of the fixed point are met from every state: any table, inventory and pricing
 function has a real cycle.
 */
module ReconCycles {
  import opened Domain
  import opened Listings
  import opened Recon
  import opened ReconFixpoint
  import opened Executor

  lemma EnumerateMore(ls: seq<Listing>, t: Table, k: Key) returns (more: seq<Listing>)
    requires k in t && Enumerates(ls, t - {k})
    ensures Enumerates(more, t)
  {
    var rest := t - {k};
    assert forall x | x in t && x != k :: x in rest && rest[x] == t[x];
    more := if OnShelf(t[k]) then ls + [View(k, t[k])] else ls;
    forall x | x in t && OnShelf(t[x]) ensures View(x, t[x]) in more {
      if x == k {
        assert more[|ls|] == View(k, t[k]);
      } else {
        assert View(x, rest[x]) in ls;
      }
    }
  }

  /** The database can return the rows of any table. */
  lemma {:induction false} Enumerate(t: Table) returns (ls: seq<Listing>)
    ensures Enumerates(ls, t)
    decreases |t.Keys|
  {
    if t == map[] {
      ls := [];
    } else {
      var k :| k in t;
      assert (t - {k}).Keys == t.Keys - {k};
      ls := Enumerate(t - {k});
      ls := EnumerateMore(ls, t, k);
    }
  }

  lemma {:induction false} LongerThanAll(ks: set<Key>) returns (n: nat)
    ensures forall k | k in ks :: |k.ref| < n
    decreases ks
  {
    if ks == {} {
      n := 0;
    } else {
      var k :| k in ks;
      n := LongerThanAll(ks - {k});
      n := Max(n, |k.ref| + 1);
    }
  }

  function Ticks(n: nat): (s: string)
    ensures |s| == n
  {
    seq(n, _ => 'x')
  }

  /** A platform can always answer with ids that no row carries yet. */
  lemma NewIds(t: Table, plan: seq<Action>, at: int) returns (refs: seq<Echo>)
    ensures EchoOk(t, plan, refs)
    ensures forall i | 0 <= i < |plan| :: refs[i].ref != "" && (plan[i].Publish? ==> Target(plan[i], refs[i]) !in t)
  {
    var n := LongerThanAll(t.Keys);
    refs := seq(|plan|, i requires 0 <= i < |plan| => Echo(Ticks(n + i + 1), at));
    forall i, j | 0 <= i < j < |plan| ensures refs[i].ref != refs[j].ref {
      assert refs[i].ref == Ticks(n + i + 1) && refs[j].ref == Ticks(n + j + 1);
    }
    forall i | 0 <= i < |plan| ensures refs[i].ref != "" && Key(UU, refs[i].ref) !in t && Key(ECO, refs[i].ref) !in t {
      assert refs[i].ref == Ticks(n + i + 1);
    }
    forall i | 0 <= i < |plan| && plan[i].Publish? ensures Target(plan[i], refs[i]) !in t {
      assert plan[i].ch == UU || plan[i].ch == ECO;
    }
  }

  /** The world in which every call is confirmed, echoes its id and is recorded. */
  function Kind(refs: seq<Echo>): (world: seq<Answer>)
    ensures |world| == |refs| && Echoes(world) == refs
  {
    seq(|refs|, i requires 0 <= i < |refs| => Answer(true, false, Confirmed, refs[i], true))
  }

  lemma {:induction false} KindWorldRunsClean(c: Config, t: Table, plan: seq<Action>, refs: seq<Echo>)
    requires |refs| == |plan| && !c.dryRun && c.adapters == {UU, ECO} && forall i | 0 <= i < |refs| :: refs[i].ref != ""
    ensures var end := Execute(c, Start(t), plan, Kind(refs)); Clean(end) && end.blocked == {}
  {
    if plan != [] {
      var n := |plan| - 1;
      KindWorldRunsClean(c, t, plan[..n], refs[..n]);
      assert Kind(refs)[..n] == Kind(refs[..n]);
      assert ChannelOf(plan[n]) == UU || ChannelOf(plan[n]) == ECO;
    }
  }

  /**
   From every table, for every inventory, health, pricing function, time and grace, some cycle is
   executed without an error, with ids that fit.
   */
  lemma EveryStateHasACycle(t: Table, items: seq<Item>, uuHealthy: bool, price: Pricing, now: int, grace: int)
    returns (cy: Cycle, c: Config, world: seq<Answer>)
    requires grace > 0
    ensures cy.t == t && cy.snap.items == items && cy.snap.uuHealthy == uuHealthy
    ensures cy.price == price && cy.now == now && cy.grace == grace
    ensures RunsClean(cy, c, world) && KeepsAsset(cy)
    ensures PlanOf(cy.next, price, now, grace) == []
  {
    var ls := Enumerate(t);
    var snap := Snapshot(items, ls, uuHealthy);
    var plan := PlanOf(snap, price, now, grace);
    var refs := NewIds(t, plan, now);
    c, world := Config(false, {UU, ECO}), Kind(refs);
    var t1 := ObserveMismatches(t, Watch(snap, |ls|), now);
    var t2 := Execute(c, Start(t1), plan, world).table;
    var ls' := Enumerate(t2);
    cy := Cycle(snap, price, now, grace, plan, refs, t, t1, t2, Snapshot(items, ls', uuHealthy));
    KindWorldRunsClean(c, t1, plan, refs);
    CleanCycleReplansToNothing(cy, c, world);
    ReplanIsEmpty(cy);
  }
}
