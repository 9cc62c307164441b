/**
 The shelf snapshot protocol: an observation time is taken before the remote fetch, and the
 response is applied later, in a race with local publish, delist and reprice writes.
 */
module ShelfSnapshot {
  import opened Domain
  import opened Listings

  datatype Db = Db(table: Table, observed: map<Channel, int>)

  datatype Outcome =
    | Invalid
    | Superseded
    | Breaker(active: nat)
    | Applied(missing: nat)

  predicate ValidShelf(ch: Channel, shelf: seq<ShelfRow>)
  {
    && (forall i | 0 <= i < |shelf| :: shelf[i].ch == ch && shelf[i].ref != "")
    && (forall i, j | 0 <= i < j < |shelf| :: shelf[i].ref != shelf[j].ref)
  }

  /** A shelf row without a hash name is filed under its display name. */
  function Named(l: ShelfRow): ShelfRow { if l.hash == "" then l.(hash := l.display) else l }

  function Refs(shelf: seq<ShelfRow>): set<string> { set l | l in shelf :: l.ref }

  function Upserts(t: Table, shelf: seq<ShelfRow>, at: int): Table
  {
    if shelf == [] then t
    else UpsertFromShelf(Upserts(t, shelf[..|shelf| - 1], at), Named(shelf[|shelf| - 1]), at)
  }

  function ShelfKeys(t: Table, ch: Channel): set<Key> { set k | k in t && k.ch == ch && OnShelf(t[k]) }

  function MissingKeys(t: Table, ch: Channel, seen: set<string>, at: int): set<Key>
  {
    set k | k in t && IsMissing(k, t[k], ch, seen, at)
  }

  /** ApplyShelfSnapshot, one transaction. */
  function ApplySnapshot(db: Db, ch: Channel, shelf: seq<ShelfRow>, at: int): (Db, Outcome)
  {
    if !ValidShelf(ch, shelf) then (db, Invalid)
    else if ch in db.observed && at <= db.observed[ch] then (db, Superseded)
    else if shelf == [] && ShelfKeys(db.table, ch) != {} then (db, Breaker(|ShelfKeys(db.table, ch)|))
    else
      var t := Upserts(db.table, shelf, at);
      (Db(MarkMissing(t, ch, Refs(shelf), at), db.observed[ch := at]),
       Applied(|MissingKeys(t, ch, Refs(shelf), at)|))
  }

  // ---- what an applied snapshot does to one row ----

  lemma {:induction false} UpsertsElsewhere(t: Table, ch: Channel, shelf: seq<ShelfRow>, at: int, k: Key)
    requires ValidShelf(ch, shelf) && (k.ch != ch || k.ref !in Refs(shelf))
    ensures k in Upserts(t, shelf, at) <==> k in t
    ensures k in t ==> Upserts(t, shelf, at)[k] == t[k]
  {
    if shelf != [] {
      var n := |shelf| - 1;
      assert shelf[n] in shelf;
      UpsertsElsewhere(t, ch, shelf[..n], at, k);
    }
  }

  /** The row stored for an accepted shelf row. */
  function Accepted(t: Table, k: Key, l: ShelfRow, at: int): Row
  {
    if k !in t then Discovered(Named(l), at)
    else if Admits(t[k], at) then Refreshed(t[k], Named(l), at)
    else t[k]
  }

  lemma {:induction false} UpsertsRow(t: Table, ch: Channel, shelf: seq<ShelfRow>, at: int, i: nat)
    requires ValidShelf(ch, shelf) && i < |shelf|
    ensures var k := Key(ch, shelf[i].ref);
            k in Upserts(t, shelf, at) && Upserts(t, shelf, at)[k] == Accepted(t, k, shelf[i], at)
  {
    var n := |shelf| - 1;
    var k := Key(ch, shelf[i].ref);
    if i == n {
      assert k.ref !in Refs(shelf[..n]);
      UpsertsElsewhere(t, ch, shelf[..n], at, k);
    } else {
      UpsertsRow(t, ch, shelf[..n], at, i);
    }
  }

  /** A local write later than the observation stands against it. */
  predicate WrittenAfter(r: Row, at: int)
  {
    (r.syncedAt.Some? && at < r.syncedAt.value) || (r.repricedAt.Some? && at < r.repricedAt.value)
  }

  /** The row is the one the shelf reports: what the response decides, and what an old row keeps. */
  predicate AsReported(was: Option<Row>, l: ShelfRow, at: int, r: Row)
  {
    && (r.state == Leased <==> l.leased) && (r.state == Active <==> !l.leased)
    && r.asset == l.asset && r.terms == l.terms && r.hash == (if l.hash != "" then l.hash else l.display)
    && r.syncedAt == Some(at) && r.retiredAt == None
    && (if was == None then r.listedAt == l.listedAt && r.repricedAt == None && r.mismatch == None
        else
          && r.listedAt == KeepTime(was.value.listedAt, l.listedAt) && r.repricedAt == was.value.repricedAt
          && (was.value.state == r.state ==> r.mismatch == was.value.mismatch)
          && (was.value.state != r.state ==> r.mismatch == None))
  }

  function RowAt(t: Table, k: Key): Option<Row> { if k in t then Some(t[k]) else None }

  /** A key named by the snapshot ends with the row the shelf reports, unless a later local write stands. */
  lemma AppliedListed(db: Db, ch: Channel, shelf: seq<ShelfRow>, at: int, i: nat)
    requires ApplySnapshot(db, ch, shelf, at).1.Applied? && i < |shelf|
    ensures var k := Key(ch, shelf[i].ref);
            var t := ApplySnapshot(db, ch, shelf, at).0.table;
            k in t && if k in db.table && WrittenAfter(db.table[k], at) then t[k] == db.table[k]
                      else AsReported(RowAt(db.table, k), shelf[i], at, t[k])
  {
    UpsertsRow(db.table, ch, shelf, at, i);
    assert shelf[i] in shelf;
  }

  /**
   A key the snapshot does not name goes missing exactly when it is an active row of the channel with
   no later write.
   */
  lemma AppliedUnlisted(db: Db, ch: Channel, shelf: seq<ShelfRow>, at: int, k: Key)
    requires ApplySnapshot(db, ch, shelf, at).1.Applied? && (k.ch != ch || k.ref !in Refs(shelf))
    ensures var t := ApplySnapshot(db, ch, shelf, at).0.table;
            (k in t <==> k in db.table) &&
            (k in t ==> t[k] == if k.ch == ch && db.table[k].state == Active && !WrittenAfter(db.table[k], at)
                                then db.table[k].(state := Gone, mismatch := None, retiredAt := Some(at),
                                  syncedAt := Some(at))
                                else db.table[k])
  {
    UpsertsElsewhere(db.table, ch, shelf, at, k);
  }

  /** The rows that a snapshot takes down, as the two tables show them. */
  ghost function Lost(before: Table, after: Table): set<Key>
  {
    set k | k in before && k in after && before[k].state == Active && after[k].state == Gone
  }

  /** A response of one channel, every row of which has an id of its own. */
  ghost predicate Complete(ch: Channel, shelf: seq<ShelfRow>)
  {
    && (forall l | l in shelf :: l.ch == ch && l.ref != "")
    && (forall i, j | 0 <= i < |shelf| && 0 <= j < |shelf| && shelf[i].ref == shelf[j].ref :: i == j)
  }

  /** The channel's listings that are up, in either state. */
  ghost function Up(t: Table, ch: Channel): set<Key>
  {
    set k | k in t && k.ch == ch && (t[k].state == Active || t[k].state == Leased)
  }

  lemma CompleteIsValid(ch: Channel, shelf: seq<ShelfRow>)
    ensures ValidShelf(ch, shelf) <==> Complete(ch, shelf)
  {
    assert forall i | 0 <= i < |shelf| :: shelf[i] in shelf;
  }

  /**
   Which responses are refused, superseded or held back by the breaker, that nothing changes then, and what an
   applied one reports and records.
   */
  lemma SnapshotOutcome(db: Db, ch: Channel, shelf: seq<ShelfRow>, at: int)
    ensures var (after, outcome) := ApplySnapshot(db, ch, shelf, at);
            var late := ch in db.observed && db.observed[ch] >= at;
            && (outcome.Invalid? <==> !Complete(ch, shelf))
            && (outcome.Superseded? <==> Complete(ch, shelf) && late)
            && (outcome.Breaker? <==> !late && shelf == [] && Up(db.table, ch) != {})
            && (outcome.Breaker? ==> outcome.active == |Up(db.table, ch)|)
            && (!outcome.Applied? ==> after == db)
            && (outcome.Applied? ==> after.observed == db.observed[ch := at])
            && (outcome.Applied? ==> outcome.missing == |Lost(db.table, after.table)|)
  {
    CompleteIsValid(ch, shelf);
    assert ShelfKeys(db.table, ch) == Up(db.table, ch);
    if ApplySnapshot(db, ch, shelf, at).1.Applied? { MissingAreLost(db, ch, shelf, at); }
  }

  lemma MissingAreLost(db: Db, ch: Channel, shelf: seq<ShelfRow>, at: int)
    requires ApplySnapshot(db, ch, shelf, at).1.Applied?
    ensures MissingKeys(Upserts(db.table, shelf, at), ch, Refs(shelf), at) ==
            Lost(db.table, ApplySnapshot(db, ch, shelf, at).0.table)
  {
    var t, after := Upserts(db.table, shelf, at), ApplySnapshot(db, ch, shelf, at).0.table;
    forall k ensures k in MissingKeys(t, ch, Refs(shelf), at) <==> k in Lost(db.table, after) {
      if k.ch == ch && k.ref in Refs(shelf) {
        var i :| 0 <= i < |shelf| && shelf[i].ref == k.ref;
        AppliedListed(db, ch, shelf, at, i);
      } else {
        UpsertsElsewhere(db.table, ch, shelf, at, k);
        AppliedUnlisted(db, ch, shelf, at, k);
      }
    }
  }

  // ---- the protocol ----

  /**
   `inflight` holds the observation times handed out, whose responses may be applied at any later
   time or never; `wrote` is the time of the latest local write to a row and `log` the snapshots
   applied so far: both only record history.
   */
  datatype State = State(db: Db, clock: int, inflight: set<(Channel, int)>, wrote: map<Key, int>,
    log: seq<(Channel, int)>)

  datatype Event =
    | Tick(elapsed: nat)
    | Begin(ch: Channel)
    | Respond(ch: Channel, at: int, shelf: seq<ShelfRow>)
    | Publish(key: Key, asset: string, hash: string, terms: Terms)
    | Delist(key: Key)
    | Reprice(key: Key, terms: Terms)
    | Observe(obs: Observations, now: int)

  function Local(s: State, k: Key, t: Table): State
  {
    s.(db := s.db.(table := t), wrote := if k in t then s.wrote[k := s.clock] else s.wrote)
  }

  function Step(s: State, e: Event): State
  {
    match e
    case Tick(elapsed) => s.(clock := s.clock + elapsed)
    case Begin(ch) => s.(inflight := s.inflight + {(ch, s.clock)})
    case Respond(ch, at, shelf) =>
      if (ch, at) !in s.inflight then s
      else
        var r := ApplySnapshot(s.db, ch, shelf, at);
        s.(db := r.0, log := if r.1.Applied? then s.log + [(ch, at)] else s.log)
    case Publish(k, asset, hash, terms) => Local(s, k, RecordPublished(s.db.table, k, asset, hash, terms, s.clock))
    case Delist(k) => Local(s, k, MarkDelisted(s.db.table, k, s.clock))
    case Reprice(k, terms) => Local(s, k, UpdateDecision(s.db.table, k, terms, s.clock))
    case Observe(obs, now) => s.(db := s.db.(table := ObserveMismatches(s.db.table, obs, now)))
  }

  function Run(s: State, es: seq<Event>): State
  {
    if es == [] then s else Step(Run(s, es[..|es| - 1]), es[|es| - 1])
  }

  predicate AtMost(t: Option<int>, clock: int) { t.Some? ==> t.value <= clock }

  predicate FreshAsOf(r: Row, time: int) { Freshness(r).Some? && time <= Freshness(r).value }

  /** Stamps lie in the past and freshness covers every local write. */
  ghost predicate Stamped(s: State)
  {
    && (forall k | k in s.db.table :: AtMost(Freshness(s.db.table[k]), s.clock))
    && (forall p | p in s.inflight :: p.1 <= s.clock)
    && (forall k | k in s.wrote :: k in s.db.table && FreshAsOf(s.db.table[k], s.wrote[k]))
  }

  /** Each channel's applied snapshots have strictly increasing times, ending at the recorded one. */
  ghost predicate Ordered(s: State)
  {
    && (forall i, j | 0 <= i < j < |s.log| && s.log[i].0 == s.log[j].0 :: s.log[i].1 < s.log[j].1)
    && (forall i | 0 <= i < |s.log| :: s.log[i].0 in s.db.observed && s.log[i].1 <= s.db.observed[s.log[i].0])
  }

  /** How a row may change over one step: it stays, and its freshness does not go back. */
  ghost predicate Ages(t: Table, t': Table)
  {
    forall k | k in t :: k in t' && (Freshness(t[k]).Some? ==> FreshAsOf(t'[k], Freshness(t[k]).value))
  }

  lemma SnapshotRow(db: Db, ch: Channel, shelf: seq<ShelfRow>, at: int, k: Key)
    requires k in ApplySnapshot(db, ch, shelf, at).0.table
    ensures var r := ApplySnapshot(db, ch, shelf, at).0.table[k];
            (k in db.table && r == db.table[k]) ||
            (k.ch == ch && (k in db.table ==>
              Admits(db.table[k], at) && r.repricedAt == db.table[k].repricedAt) &&
             (k !in db.table ==> r.repricedAt == None) && r.syncedAt == Some(at))
  {
    if ApplySnapshot(db, ch, shelf, at).1.Applied? {
      if k.ch == ch && k.ref in Refs(shelf) {
        var i :| 0 <= i < |shelf| && shelf[i].ref == k.ref;
        AppliedListed(db, ch, shelf, at, i);
      } else {
        AppliedUnlisted(db, ch, shelf, at, k);
      }
    }
  }

  lemma SnapshotKeepsRows(db: Db, ch: Channel, shelf: seq<ShelfRow>, at: int, k: Key)
    requires k in db.table
    ensures k in ApplySnapshot(db, ch, shelf, at).0.table
  {
    if ApplySnapshot(db, ch, shelf, at).1.Applied? {
      if k.ch == ch && k.ref in Refs(shelf) {
        var i :| 0 <= i < |shelf| && shelf[i].ref == k.ref;
        AppliedListed(db, ch, shelf, at, i);
      } else {
        AppliedUnlisted(db, ch, shelf, at, k);
      }
    }
  }

  lemma RespondAges(s: State, ch: Channel, at: int, shelf: seq<ShelfRow>)
    requires at <= s.clock
    ensures Ages(s.db.table, ApplySnapshot(s.db, ch, shelf, at).0.table)
  {
    forall k | k in s.db.table
      ensures k in ApplySnapshot(s.db, ch, shelf, at).0.table
      ensures Freshness(s.db.table[k]).Some? ==>
              FreshAsOf(ApplySnapshot(s.db, ch, shelf, at).0.table[k], Freshness(s.db.table[k]).value)
    {
      SnapshotKeepsRows(s.db, ch, shelf, at, k);
      SnapshotRow(s.db, ch, shelf, at, k);
    }
  }

  lemma RespondStamped(s: State, ch: Channel, at: int, shelf: seq<ShelfRow>)
    requires Stamped(s) && (ch, at) in s.inflight
    ensures forall k | k in ApplySnapshot(s.db, ch, shelf, at).0.table ::
            AtMost(Freshness(ApplySnapshot(s.db, ch, shelf, at).0.table[k]), s.clock)
  {
    forall k | k in ApplySnapshot(s.db, ch, shelf, at).0.table
      ensures AtMost(Freshness(ApplySnapshot(s.db, ch, shelf, at).0.table[k]), s.clock)
    {
      SnapshotRow(s.db, ch, shelf, at, k);
    }
  }

  /** A local statement touches one row and stamps it with the current time. */
  ghost predicate LocalWrite(t: Table, k: Key, clock: int, t': Table)
  {
    && (forall x | x in t :: x in t' && (x != k ==> t'[x] == t[x]))
    && (forall x | x in t' && x != k :: x in t)
    && (k in t' ==> FreshAsOf(t'[k], clock))
    && (k in t' ==> AtMost(Freshness(t'[k]), clock) || (k in t && !AtMost(Freshness(t[k]), clock)))
  }

  lemma LocalStatements(t: Table, k: Key, asset: string, hash: string, terms: Terms, clock: int)
    ensures LocalWrite(t, k, clock, RecordPublished(t, k, asset, hash, terms, clock))
    ensures LocalWrite(t, k, clock, MarkDelisted(t, k, clock))
    ensures LocalWrite(t, k, clock, UpdateDecision(t, k, terms, clock))
  {
  }

  lemma LocalAges(s: State, k: Key, t: Table)
    requires Stamped(s) && LocalWrite(s.db.table, k, s.clock, t)
    ensures Ages(s.db.table, t)
  {
  }

  lemma StepAges(s: State, e: Event)
    requires Stamped(s)
    ensures Ages(s.db.table, Step(s, e).db.table)
  {
    match e
    case Respond(ch, at, shelf) => if (ch, at) in s.inflight { RespondAges(s, ch, at, shelf); }
    case Publish(k, asset, hash, terms) =>
      LocalStatements(s.db.table, k, asset, hash, terms, s.clock);
      LocalAges(s, k, RecordPublished(s.db.table, k, asset, hash, terms, s.clock));
    case Delist(k) =>
      LocalStatements(s.db.table, k, "", "", Terms(0, 0, 0, 0), s.clock);
      LocalAges(s, k, MarkDelisted(s.db.table, k, s.clock));
    case Reprice(k, terms) =>
      LocalStatements(s.db.table, k, "", "", terms, s.clock);
      LocalAges(s, k, UpdateDecision(s.db.table, k, terms, s.clock));
    case _ =>
  }

  lemma LocalStamped(s: State, k: Key, t: Table)
    requires Stamped(s) && LocalWrite(s.db.table, k, s.clock, t)
    ensures Stamped(Local(s, k, t))
  {
    LocalAges(s, k, t);
  }

  lemma RespondKeepsStamped(s: State, ch: Channel, at: int, shelf: seq<ShelfRow>)
    requires Stamped(s) && (ch, at) in s.inflight
    ensures Stamped(Step(s, Respond(ch, at, shelf)))
  {
    RespondStamped(s, ch, at, shelf);
    RespondAges(s, ch, at, shelf);
  }

  lemma ObserveStamped(s: State, obs: Observations, now: int)
    requires Stamped(s)
    ensures Stamped(Step(s, Observe(obs, now)))
  {
    var t := ObserveMismatches(s.db.table, obs, now);
    assert forall k | k in t :: Freshness(t[k]) == Freshness(s.db.table[k]);
  }

  lemma StepStamped(s: State, e: Event)
    requires Stamped(s)
    ensures Stamped(Step(s, e))
  {
    match e
    case Tick(_) =>
    case Begin(_) =>
    case Respond(ch, at, shelf) => if (ch, at) in s.inflight { RespondKeepsStamped(s, ch, at, shelf); }
    case Publish(k, asset, hash, terms) =>
      LocalStatements(s.db.table, k, asset, hash, terms, s.clock);
      LocalStamped(s, k, RecordPublished(s.db.table, k, asset, hash, terms, s.clock));
    case Delist(k) =>
      LocalStatements(s.db.table, k, "", "", Terms(0, 0, 0, 0), s.clock);
      LocalStamped(s, k, MarkDelisted(s.db.table, k, s.clock));
    case Reprice(k, terms) =>
      LocalStatements(s.db.table, k, "", "", terms, s.clock);
      LocalStamped(s, k, UpdateDecision(s.db.table, k, terms, s.clock));
    case Observe(obs, now) => ObserveStamped(s, obs, now);
  }

  lemma StepOrdered(s: State, e: Event)
    requires Ordered(s)
    ensures Ordered(Step(s, e))
  {
  }

  lemma {:induction false} RunInvariant(s: State, es: seq<Event>)
    requires Stamped(s) && Ordered(s)
    ensures Stamped(Run(s, es)) && Ordered(Run(s, es))
  {
    if es != [] {
      RunInvariant(s, es[..|es| - 1]);
      StepStamped(Run(s, es[..|es| - 1]), es[|es| - 1]);
      StepOrdered(Run(s, es[..|es| - 1]), es[|es| - 1]);
    }
  }

  /** Over every run, rows are never lost and their freshness never decreases. */
  lemma {:induction false} RunAges(s: State, es: seq<Event>)
    requires Stamped(s) && Ordered(s)
    ensures Ages(s.db.table, Run(s, es).db.table)
  {
    if es != [] {
      RunAges(s, es[..|es| - 1]);
      RunInvariant(s, es[..|es| - 1]);
      StepAges(Run(s, es[..|es| - 1]), es[|es| - 1]);
    }
  }

  lemma {:induction false} RunWrote(s: State, es: seq<Event>, k: Key)
    requires Stamped(s) && Ordered(s) && k in s.wrote && s.wrote[k] <= s.clock
    ensures var s' := Run(s, es); k in s'.wrote && s.wrote[k] <= s'.wrote[k] <= s'.clock && s.clock <= s'.clock
  {
    if es != [] { RunWrote(s, es[..|es| - 1], k); }
  }

  /**
   Local writes win every race: after any run, a snapshot observed strictly before the latest
   local write to a row leaves that row exactly as it is.
   */
  lemma LocalWriteWins(s: State, es: seq<Event>, ch: Channel, at: int, shelf: seq<ShelfRow>, k: Key)
    requires Stamped(s) && Ordered(s) && k in s.wrote && at < s.wrote[k] <= s.clock
    ensures var s' := Run(s, es);
            k in s'.db.table && k in Step(s', Respond(ch, at, shelf)).db.table &&
            Step(s', Respond(ch, at, shelf)).db.table[k] == s'.db.table[k]
  {
    RunInvariant(s, es);
    RunWrote(s, es, k);
    NewerWriteStands(Run(s, es), ch, at, shelf, k);
  }

  lemma NewerWriteStands(s: State, ch: Channel, at: int, shelf: seq<ShelfRow>, k: Key)
    requires Stamped(s) && k in s.wrote && at < s.wrote[k]
    ensures k in s.db.table && k in Step(s, Respond(ch, at, shelf)).db.table
    ensures Step(s, Respond(ch, at, shelf)).db.table[k] == s.db.table[k]
  {
    SnapshotKeepsRows(s.db, ch, shelf, at, k);
    SnapshotRow(s.db, ch, shelf, at, k);
  }

  /** In every run each channel's snapshots are applied in strictly increasing observation order. */
  lemma RunAppliesInOrder(clock: int, es: seq<Event>)
    ensures var log := Run(State(Db(map[], map[]), clock, {}, map[], []), es).log;
            forall i, j | 0 <= i < j < |log| && log[i].0 == log[j].0 :: log[i].1 < log[j].1
  {
    RunInvariant(State(Db(map[], map[]), clock, {}, map[], []), es);
  }

  /** The shelf feed omits rented items: a leased row that the snapshot does not name is untouched. */
  lemma LeasedIsNeverMissing(db: Db, ch: Channel, shelf: seq<ShelfRow>, at: int, k: Key)
    requires k in db.table && db.table[k].state == Leased && (k.ch != ch || k.ref !in Refs(shelf))
    ensures k in ApplySnapshot(db, ch, shelf, at).0.table && ApplySnapshot(db, ch, shelf, at).0.table[k] == db.table[k]
  {
    if ApplySnapshot(db, ch, shelf, at).1.Applied? { AppliedUnlisted(db, ch, shelf, at, k); }
  }

  /**
   The empty-shelf breaker: an empty response takes nothing down, and changes nothing at all while the
   channel has rows.
   */
  lemma EmptyShelfTakesNothingDown(db: Db, ch: Channel, at: int)
    ensures ApplySnapshot(db, ch, [], at).0.table == db.table
    ensures ShelfKeys(db.table, ch) != {} ==>
            ApplySnapshot(db, ch, [], at).0 == db && !ApplySnapshot(db, ch, [], at).1.Applied?
  {
    var t := ApplySnapshot(db, ch, [], at).0.table;
    if ApplySnapshot(db, ch, [], at).1.Applied? {
      forall k ensures (k in t <==> k in db.table) && (k in t ==> t[k] == db.table[k]) {
        AppliedUnlisted(db, ch, [], at, k);
        assert k in db.table && k.ch == ch && OnShelf(db.table[k]) ==> k in ShelfKeys(db.table, ch);
      }
    }
  }

  /** Arrival order: once a newer complete observation of the channel was applied, an older one is discarded. */
  lemma OlderArrivesLate(db: Db, ch: Channel, newer: seq<ShelfRow>, older: seq<ShelfRow>, t1: int, t2: int)
    requires t1 <= t2 && ApplySnapshot(db, ch, newer, t2).1.Applied?
    ensures ApplySnapshot(ApplySnapshot(db, ch, newer, t2).0, ch, older, t1).0 == ApplySnapshot(db, ch, newer, t2).0
  {
  }
}
