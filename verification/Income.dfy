/**
 The income ledger and its projection `daily_stats`: every finished order has one ledger entry,
 and each statistics bucket is maintained incrementally as entries come, move and go.
 */
module Income {
  import opened Domain
  import opened Money

  type OrderId = int

  datatype Status = Open | Done | BoughtOut | Cancelled | Breach

  predicate Eligible(s: Status) { s == Done || s == BoughtOut }

  predicate IsTerminal(s: Status) { s != Open }

  /** Amounts are in cents. */
  datatype Order = Order(ch: Channel, hash: string, status: Status, amount: int, finishedAt: Option<int>,
    updatedAt: int, recorded: bool)

  datatype Bucket = Bucket(day: int, ch: Channel, category: string)

  datatype Entry = Entry(bucket: Bucket, amount: int)

  datatype Stat = Stat(income: int, count: int)

  datatype Books = Books(
    orders: map<OrderId, Order>, categories: map<string, string>,
    ledger: map<OrderId, Entry>, stats: map<Bucket, Stat>)

  const UNCATEGORIZED := "未分类"

  function CategoryOf(categories: map<string, string>, hash: string): string
  {
    if hash in categories && categories[hash] != "" then categories[hash] else UNCATEGORIZED
  }

  /** The entry an eligible order should have; its day is the UTC date of completion. */
  function Projection(b: Books, o: Order): Entry
  {
    var at := if o.finishedAt.Some? then o.finishedAt.value else o.updatedAt;
    Entry(Bucket(at / DAY, o.ch, CategoryOf(b.categories, o.hash)), o.amount)
  }

  function StatAt(stats: map<Bucket, Stat>, k: Bucket): Stat { if k in stats then stats[k] else Stat(0, 0) }

  /** The delta of a projection in the given direction, rounded as it is written. */
  function Delta(amount: int, direction: int): int { Cents(direction as real * ToMoney(amount)) }

  /** applyIncomeDelta */
  function ApplyDelta(stats: map<Bucket, Stat>, e: Entry, direction: int): map<Bucket, Stat>
  {
    var s := StatAt(stats, e.bucket);
    stats[e.bucket := Stat(s.income + Delta(e.amount, direction), s.count + direction)]
  }

  /** The first half of projectOrderIncome: take a stale or no longer eligible entry back. */
  function Reverse(b: Books, id: OrderId): Books
    requires id in b.orders
  {
    if id in b.ledger && (!Eligible(b.orders[id].status) || b.ledger[id] != Projection(b, b.orders[id]))
    then b.(stats := ApplyDelta(b.stats, b.ledger[id], -1), ledger := b.ledger - {id})
    else b
  }

  /** The second half: enter the current projection of an eligible order. */
  function Enter(b: Books, id: OrderId): Books
    requires id in b.orders
  {
    var next := Projection(b, b.orders[id]);
    if Eligible(b.orders[id].status) && id !in b.ledger
    then b.(stats := ApplyDelta(b.stats, next, 1),
      ledger := b.ledger[id := next.(amount := Cents(ToMoney(next.amount)))])
    else b
  }

  /** projectOrderIncome */
  function Project(b: Books, id: OrderId): Books
  {
    if id !in b.orders then b
    else
      var c := Enter(Reverse(b, id), id);
      c.(orders := c.orders[id := c.orders[id].(recorded := Eligible(c.orders[id].status))])
  }

  function ProjectAll(b: Books, ids: seq<OrderId>): Books
  {
    if ids == [] then b else Project(ProjectAll(b, ids[..|ids| - 1]), ids[|ids| - 1])
  }

  ghost predicate Sorted(s: seq<OrderId>) { forall i, j | 0 <= i < j < |s| :: s[i] < s[j] }

  lemma HeadIsLeast(s: seq<OrderId>)
    requires Sorted(s) && s != []
    ensures Sorted(s[1..]) && forall y :: (y in s <==> y == s[0] || y in s[1..]) && (y in s[1..] ==> s[0] < y)
  {
    assert s == [s[0]] + s[1..];
    assert forall j | 0 <= j < |s| - 1 :: s[1..][j] == s[j + 1] && s[0] < s[j + 1];
  }

  lemma ConsSorted(x: OrderId, s: seq<OrderId>)
    requires Sorted(s) && forall y | y in s :: x < y
    ensures Sorted([x] + s)
  {
    assert forall j | 0 <= j < |s| :: s[j] in s;
  }

  /** Sorted and without duplicates, as the batch loop visits them. */
  function Insert(x: OrderId, s: seq<OrderId>): (r: seq<OrderId>)
    requires Sorted(s)
    ensures Sorted(r)
    ensures forall y :: y in r <==> y == x || y in s
  {
    if s == [] then [x]
    else
      HeadIsLeast(s);
      if x < s[0] then
        ConsSorted(x, s);
        [x] + s
      else if x == s[0] then s
      else
        var rest := Insert(x, s[1..]);
        ConsSorted(s[0], rest);
        [s[0]] + rest
  }

  function SortedIds(ids: seq<OrderId>): (r: seq<OrderId>)
    ensures Sorted(r)
    ensures forall y :: y in r <==> y in ids
  {
    if ids == [] then [] else Insert(ids[|ids| - 1], SortedIds(ids[..|ids| - 1]))
  }

  /** RecordIncomeBatch */
  function RecordBatch(b: Books, ids: seq<OrderId>): Books { ProjectAll(b, SortedIds(ids)) }

  // ---- order synchronization ----

  datatype OrderSync = OrderSync(ch: Channel, hash: string, status: Status, amount: Num, finishedAt: Option<int>)

  /** numeric(12,2) */
  predicate FitsColumn(cents: int) { -1000000000000 < cents < 1000000000000 }

  /** UpsertLeaseOrder, as far as income is concerned; an amount outside the column is refused by the database. */
  function UpsertOrder(b: Books, id: OrderId, u: OrderSync, now: int): Option<Books>
  {
    var amount := NumCents(u.amount);
    if !FitsColumn(amount) then None
    else
      var was := if id in b.orders then b.orders[id].finishedAt else None;
      var finished :=
        if !IsTerminal(u.status) then None
        else if u.finishedAt.Some? then u.finishedAt
        else if was.Some? then was
        else Some(now);
      var o :=
        if id in b.orders then
          b.orders[id].(hash := if u.hash == "" then b.orders[id].hash else u.hash,
                        status := u.status, amount := amount,
                        finishedAt := finished, updatedAt := now)
        else Order(u.ch, u.hash, u.status, amount, finished, now, false);
      Some(b.(orders := b.orders[id := o]))
  }

  class IncomeStore {
    var orders: map<OrderId, Order>
    var categories: map<string, string>
    var ledger: map<OrderId, Entry>
    var stats: map<Bucket, Stat>

    constructor ()
      ensures Contents() == Books(map[], map[], map[], map[])
    {
      orders, categories, ledger, stats := map[], map[], map[], map[];
    }

    ghost function Contents(): Books
      reads this
    {
      Books(orders, categories, ledger, stats)
    }

    /** The entry's bucket moves by its amount and by one, in the given direction; every other bucket stays. */
    method ApplyIncomeDelta(e: Entry, direction: int)
      modifies this`stats
      ensures StatAt(stats, e.bucket).count == StatAt(old(stats), e.bucket).count + direction
      ensures Exact(e.amount) && (direction == 1 || direction == -1) ==>
                StatAt(stats, e.bucket).income == StatAt(old(stats), e.bucket).income + direction * e.amount
      ensures forall k | k != e.bucket :: StatAt(stats, k) == StatAt(old(stats), k)
      ensures stats == ApplyDelta(old(stats), e, direction)
    {
      if Exact(e.amount) { ReversedAmount(e.amount); }
      if e.bucket !in stats { stats := stats[e.bucket := Stat(0, 0)]; }
      var s := stats[e.bucket];
      stats := stats[e.bucket := Stat(s.income + Delta(e.amount, direction), s.count + direction)];
    }

    method ProjectOrderIncome(id: OrderId)
      modifies this
      ensures Contents() == Project(old(Contents()), id)
    {
      if id !in orders { return; }
      var o := orders[id];
      var at := if o.finishedAt.Some? then o.finishedAt.value else o.updatedAt;
      var next := Entry(Bucket(at / DAY, o.ch, CategoryOf(categories, o.hash)), o.amount);
      var eligible := Eligible(o.status);
      var oldExists := id in ledger;
      var stale := oldExists && (!eligible || ledger[id] != next);
      if stale {
        ApplyIncomeDelta(ledger[id], -1);
        ledger := ledger - {id};
      }
      if eligible && (!oldExists || stale) {
        ApplyIncomeDelta(next, 1);
        ledger := ledger[id := next.(amount := Cents(ToMoney(next.amount)))];
      }
      orders := orders[id := o.(recorded := eligible)];
    }

    method RecordIncomeBatch(batch: seq<OrderId>)
      modifies this
      ensures Contents() == RecordBatch(old(Contents()), batch)
    {
      if |batch| == 0 { return; }
      var ids := SortedIds(batch);
      for i := 0 to |ids|
        invariant Contents() == ProjectAll(old(Contents()), ids[..i])
      {
        assert ids[..i + 1][..i] == ids[..i];
        ProjectOrderIncome(ids[i]);
      }
      assert ids[..|ids|] == ids;
    }
  }

  // ---- the ledger as a group-by ----

  datatype Measure = Amounts | Entries

  function Weight(e: Entry, k: Bucket, m: Measure): int
  {
    if e.bucket != k then 0 else if m == Amounts then e.amount else 1
  }

  ghost function AnyOf<T>(s: set<T>): T
    requires s != {}
    ensures AnyOf(s) in s
  {
    var x :| x in s;
    x
  }

  /** Sum or count of the entries of one bucket. */
  ghost function Total(ledger: map<OrderId, Entry>, k: Bucket, m: Measure): int
    decreases ledger.Keys
  {
    if ledger.Keys == {} then 0
    else
      var id := AnyOf(ledger.Keys);
      Weight(ledger[id], k, m) + Total(ledger - {id}, k, m)
  }

  /** The sum does not depend on the order of summation. */
  lemma {:induction false} TotalRemove(ledger: map<OrderId, Entry>, id: OrderId, k: Bucket, m: Measure)
    requires id in ledger
    ensures Total(ledger, k, m) == Weight(ledger[id], k, m) + Total(ledger - {id}, k, m)
    decreases ledger.Keys
  {
    var x := AnyOf(ledger.Keys);
    if x != id {
      TotalRemove(ledger - {x}, id, k, m);
      TotalRemove(ledger - {id}, x, k, m);
      assert ledger - {x} - {id} == ledger - {id} - {x};
    }
  }

  lemma TotalInsert(ledger: map<OrderId, Entry>, id: OrderId, e: Entry, k: Bucket, m: Measure)
    requires id !in ledger
    ensures Total(ledger[id := e], k, m) == Weight(e, k, m) + Total(ledger, k, m)
  {
    TotalRemove(ledger[id := e], id, k, m);
    assert ledger[id := e] - {id} == ledger;
  }

  /** Every bucket holds the sum and the number of its ledger entries. */
  ghost predicate Balanced(b: Books)
  {
    forall k :: StatAt(b.stats, k) == Stat(Total(b.ledger, k, Amounts), Total(b.ledger, k, Entries))
  }

  /** A ledger amount survives rounding, so reversing it takes back exactly what was entered. */
  predicate Exact(amount: int) { Cents(ToMoney(amount)) == amount }

  ghost predicate ExactLedger(b: Books) { forall id | id in b.ledger :: Exact(b.ledger[id].amount) }

  lemma FittingIsExact(amount: int)
    requires FitsColumn(amount)
    ensures Exact(amount)
  {
    CentsOfMoney(amount);
  }

  lemma ReversedAmount(amount: int)
    requires Exact(amount)
    ensures Delta(amount, -1) == -amount && Delta(amount, 1) == amount
  {
    CentsOdd(ToMoney(amount));
    assert -1 as real * ToMoney(amount) == -ToMoney(amount) && 1 as real * ToMoney(amount) == ToMoney(amount);
  }

  lemma ReverseBalanced(b: Books, id: OrderId)
    requires Balanced(b) && ExactLedger(b) && id in b.orders
    ensures Balanced(Reverse(b, id)) && ExactLedger(Reverse(b, id))
  {
    var c := Reverse(b, id);
    if c != b {
      ReversedAmount(b.ledger[id].amount);
      forall k ensures StatAt(c.stats, k) == Stat(Total(c.ledger, k, Amounts), Total(c.ledger, k, Entries)) {
        TotalRemove(b.ledger, id, k, Amounts);
        TotalRemove(b.ledger, id, k, Entries);
        assert StatAt(b.stats, k) == Stat(Total(b.ledger, k, Amounts), Total(b.ledger, k, Entries));
      }
    }
  }

  lemma EnterBalanced(b: Books, id: OrderId)
    requires Balanced(b) && ExactLedger(b) && id in b.orders && FitsColumn(b.orders[id].amount)
    ensures Balanced(Enter(b, id)) && ExactLedger(Enter(b, id))
  {
    var c, next := Enter(b, id), Projection(b, b.orders[id]);
    FittingIsExact(next.amount);
    ReversedAmount(next.amount);
    if c != b {
      forall k ensures StatAt(c.stats, k) == Stat(Total(c.ledger, k, Amounts), Total(c.ledger, k, Entries)) {
        TotalInsert(b.ledger, id, next, k, Amounts);
        TotalInsert(b.ledger, id, next, k, Entries);
        assert StatAt(b.stats, k) == Stat(Total(b.ledger, k, Amounts), Total(b.ledger, k, Entries));
      }
    }
  }

  /** What holds in every reachable state. */
  ghost predicate BooksInv(b: Books)
  {
    && Balanced(b) && ExactLedger(b)
    && b.ledger.Keys <= b.orders.Keys
    && (forall id | id in b.orders :: FitsColumn(b.orders[id].amount))
    && (forall id | id in b.orders && IsTerminal(b.orders[id].status) :: b.orders[id].finishedAt.Some?)
  }

  lemma ProjectKeepsInv(b: Books, id: OrderId)
    requires BooksInv(b)
    ensures BooksInv(Project(b, id))
  {
    if id in b.orders {
      ReverseBalanced(b, id);
      EnterBalanced(Reverse(b, id), id);
    }
  }

  lemma {:induction false} ProjectAllKeepsInv(b: Books, ids: seq<OrderId>)
    requires BooksInv(b)
    ensures BooksInv(ProjectAll(b, ids))
  {
    if ids != [] {
      ProjectAllKeepsInv(b, ids[..|ids| - 1]);
      ProjectKeepsInv(ProjectAll(b, ids[..|ids| - 1]), ids[|ids| - 1]);
    }
  }

  datatype BookEvent =
    | Sync(id: OrderId, u: OrderSync, now: int)
    | Categorize(hash: string, category: string)
    | Record(ids: seq<OrderId>)

  function BookStep(b: Books, e: BookEvent): Books
  {
    match e
    case Sync(id, u, now) => var r := UpsertOrder(b, id, u, now); if r.Some? then r.value else b
    case Categorize(hash, category) => b.(categories := b.categories[hash := category])
    case Record(ids) => RecordBatch(b, ids)
  }

  function BookRun(es: seq<BookEvent>): Books
  {
    if es == [] then Books(map[], map[], map[], map[]) else BookStep(BookRun(es[..|es| - 1]), es[|es| - 1])
  }

  /**
   In every reachable state each bucket's income and count are the sum and number of its ledger
   entries: through corrections, category and date moves, reversals, and stale or repeated batches.
   */
  lemma {:induction false} StatsAlwaysBalance(es: seq<BookEvent>)
    ensures BooksInv(BookRun(es))
  {
    if es != [] {
      var b := BookRun(es[..|es| - 1]);
      StatsAlwaysBalance(es[..|es| - 1]);
      match es[|es| - 1]
      case Sync(id, u, now) =>
        assert Balanced(BookStep(b, es[|es| - 1])) by { assert BookStep(b, es[|es| - 1]).ledger == b.ledger; }
      case Categorize(_, _) =>
      case Record(ids) => ProjectAllKeepsInv(b, SortedIds(ids));
    }
  }

  // ---- the rollup query ----

  /** Income comes from orders that ran their course or were bought out. */
  predicate Earns(o: Order) { o.status in {Done, BoughtOut} }

  /**
   The entry that an earning order calls for: its amount and channel, on the UTC day of its completion or else of
   its last update, under its template's category, or the fallback when that is missing or empty.
   */
  predicate EntryFor(b: Books, o: Order, e: Entry)
  {
    var at := match o.finishedAt case Some(t) => t case None => o.updatedAt;
    && e.amount == o.amount && e.bucket.ch == o.ch
    && e.bucket.day * 86400 <= at < e.bucket.day * 86400 + 86400
    && (if o.hash !in b.categories || |b.categories[o.hash]| == 0 then e.bucket.category == "未分类"
        else e.bucket.category == b.categories[o.hash])
  }

  /** Whether an order's entry and marker already are what its row calls for. */
  predicate Settled(b: Books, id: OrderId)
    requires id in b.orders
  {
    var o := b.orders[id];
    && (o.recorded <==> Earns(o)) && (id in b.ledger <==> Earns(o))
    && (id in b.ledger ==> EntryFor(b, o, b.ledger[id]))
  }

  lemma ProjectionIsTheEntry(b: Books, o: Order, e: Entry)
    ensures EntryFor(b, o, e) <==> e == Projection(b, o)
  {
    var at := if o.finishedAt.Some? then o.finishedAt.value else o.updatedAt;
    var k := Projection(b, o).bucket;
    assert k.day * 86400 <= at < k.day * 86400 + 86400;
  }

  /** The WHERE clause of UnrecordedTerminalOrders. */
  predicate Selected(b: Books, id: OrderId)
    requires id in b.orders
  {
    var o, p := b.orders[id], Projection(b, b.orders[id]);
    || (Eligible(o.status) &&
        (!o.recorded || id !in b.ledger || b.ledger[id].amount != p.amount || b.ledger[id].bucket.day != p.bucket.day ||
         b.ledger[id].bucket.category != p.bucket.category || b.ledger[id].bucket.ch != p.bucket.ch))
    || (!Eligible(o.status) && (id in b.ledger || o.recorded))
  }

  function Pending(b: Books): set<OrderId> { set id | id in b.orders && Selected(b, id) }

  /** The query selects exactly the orders whose entry or marker disagrees with their row. */
  lemma SelectedIffUnsettled(b: Books, id: OrderId)
    requires id in b.orders
    ensures Selected(b, id) <==> !Settled(b, id)
  {
    if id in b.ledger { ProjectionIsTheEntry(b, b.orders[id], b.ledger[id]); }
  }

  /** Projecting an order settles it and leaves every other order, entry and marker alone. */
  lemma ProjectSettles(b: Books, id: OrderId)
    requires BooksInv(b)
    ensures var c := Project(b, id);
            && c.orders.Keys == b.orders.Keys && c.categories == b.categories
            && (id in b.orders ==> Settled(c, id))
            && (forall x | x in b.orders && x != id ::
              c.orders[x] == b.orders[x] && (x in c.ledger <==> x in b.ledger) &&
                (x in b.ledger ==> c.ledger[x] == b.ledger[x]))
            && (forall x | x in b.orders :: c.orders[x] == b.orders[x].(recorded := c.orders[x].recorded))
  {
    if id in b.orders {
      FittingIsExact(b.orders[id].amount);
      ProjectionIsTheEntry(b, b.orders[id], Projection(b, b.orders[id]));
    }
  }

  lemma ProjectPending(b: Books, id: OrderId)
    requires BooksInv(b)
    ensures Pending(Project(b, id)) == Pending(b) - {id}
  {
    var c := Project(b, id);
    ProjectSettles(b, id);
    forall x | x in b.orders ensures x in Pending(c) <==> x in Pending(b) && x != id {
      SelectedIffUnsettled(b, x);
      SelectedIffUnsettled(c, x);
      assert Projection(c, c.orders[x]) == Projection(b, b.orders[x]);
    }
  }

  function ToSet(ids: seq<OrderId>): set<OrderId> { set x | x in ids }

  lemma {:induction false} ProjectAllPending(b: Books, ids: seq<OrderId>)
    requires BooksInv(b)
    ensures Pending(ProjectAll(b, ids)) == Pending(b) - ToSet(ids)
  {
    if ids != [] {
      var pre, id := ids[..|ids| - 1], ids[|ids| - 1];
      ProjectAllPending(b, pre);
      ProjectAllKeepsInv(b, pre);
      ProjectPending(ProjectAll(b, pre), id);
      assert ids == pre + [id];
    }
  }

  /** Whatever its order, its duplicates and its unknown ids, a batch settles exactly what it names. */
  lemma BatchSettles(b: Books, ids: seq<OrderId>)
    requires BooksInv(b)
    ensures Pending(RecordBatch(b, ids)) == Pending(b) - ToSet(ids)
    ensures BooksInv(RecordBatch(b, ids))
  {
    ProjectAllPending(b, SortedIds(ids));
    ProjectAllKeepsInv(b, SortedIds(ids));
    assert ToSet(SortedIds(ids)) == ToSet(ids);
  }

  /** ORDER BY id LIMIT: ascending pending ids, all of them or the `limit` smallest. */
  ghost predicate QueryResult(b: Books, limit: nat, ids: seq<OrderId>)
  {
    && (forall i, j | 0 <= i < j < |ids| :: ids[i] < ids[j])
    && ToSet(ids) <= Pending(b)
    && |ids| == Domain.Min(limit, |Pending(b)|)
    && (forall x, y | x in Pending(b) && x !in ids && y in ids :: y < x)
  }

  /** Repeated rollups: `batches` are the successive query results, each recorded before the next query. */
  ghost predicate RollupRun(b: Books, limit: nat, batches: seq<seq<OrderId>>)
    decreases |batches|
  {
    batches != [] ==> QueryResult(b, limit, batches[0]) && RollupRun(RecordBatch(b, batches[0]), limit, batches[1..])
  }

  function AfterRollups(b: Books, batches: seq<seq<OrderId>>): Books
    decreases |batches|
  {
    if batches == [] then b else AfterRollups(RecordBatch(b, batches[0]), batches[1..])
  }

  lemma {:induction false} AscendingSize(ids: seq<OrderId>)
    requires forall i, j | 0 <= i < j < |ids| :: ids[i] < ids[j]
    ensures |ToSet(ids)| == |ids|
  {
    if ids != [] {
      var pre := ids[..|ids| - 1];
      AscendingSize(pre);
      assert ids == pre + [ids[|ids| - 1]];
      assert ToSet(ids) == ToSet(pre) + {ids[|ids| - 1]};
    }
  }

  lemma RollupStep(b: Books, limit: nat, ids: seq<OrderId>)
    requires BooksInv(b) && QueryResult(b, limit, ids)
    ensures |Pending(RecordBatch(b, ids))| == |Pending(b)| - Domain.Min(limit, |Pending(b)|)
  {
    BatchSettles(b, ids);
    AscendingSize(ids);
  }

  /** n batches of up to `limit` orders cover the pending ones. */
  predicate Enough(pending: nat, n: nat, limit: nat) { pending <= n * limit }

  /** Each rollup takes `limit` orders off the pending set, so n rollups are enough for n * limit pending orders. */
  lemma {:induction false} RollupsDrain(b: Books, limit: nat, batches: seq<seq<OrderId>>)
    requires BooksInv(b) && limit >= 1 && RollupRun(b, limit, batches)
    ensures BooksInv(AfterRollups(b, batches))
    ensures Enough(|Pending(b)|, |batches|, limit) ==> Pending(AfterRollups(b, batches)) == {}
    decreases |batches|
  {
    if batches != [] {
      RollupStep(b, limit, batches[0]);
      BatchSettles(b, batches[0]);
      RollupsDrain(RecordBatch(b, batches[0]), limit, batches[1..]);
      OneBatchLess(|Pending(b)|, |batches|, limit);
    }
  }

  lemma OneBatchLess(pending: nat, n: nat, limit: nat)
    requires n >= 1 && limit >= 1
    ensures Enough(pending, n, limit) ==> Enough(pending - Domain.Min(limit, pending), n - 1, limit)
  {
    assert n * limit == (n - 1) * limit + limit;
  }

  /** The ledger holds one entry for each order that earns, the one it calls for, and no other. */
  predicate LedgerIsDue(b: Books)
  {
    && (forall id | id in b.ledger :: id in b.orders)
    && (forall id | id in b.orders :: id in b.ledger <==> Earns(b.orders[id]))
    && (forall id | id in b.ledger :: EntryFor(b, b.orders[id], b.ledger[id]))
  }

  /** With nothing pending, daily_stats is the group-by over the entries that the earning orders call for. */
  lemma DrainedIsGroupBy(b: Books, k: Bucket)
    requires BooksInv(b) && Pending(b) == {}
    ensures LedgerIsDue(b)
    ensures StatAt(b.stats, k) == Stat(Total(b.ledger, k, Amounts), Total(b.ledger, k, Entries))
  {
    forall id | id in b.orders ensures Settled(b, id) {
      SelectedIffUnsettled(b, id);
      assert id !in Pending(b);
    }
  }

  /** Enough rollups turn daily_stats into that group-by, from any reachable state. */
  lemma RollupsReachGroupBy(es: seq<BookEvent>, limit: nat, batches: seq<seq<OrderId>>, k: Bucket)
    requires limit >= 1 && RollupRun(BookRun(es), limit, batches) && Enough(|Pending(BookRun(es))|, |batches|, limit)
    ensures var b := AfterRollups(BookRun(es), batches);
            && Pending(b) == {} && LedgerIsDue(b)
            && StatAt(b.stats, k) == Stat(Total(b.ledger, k, Amounts), Total(b.ledger, k, Entries))
  {
    StatsAlwaysBalance(es);
    RollupsDrain(BookRun(es), limit, batches);
    DrainedIsGroupBy(AfterRollups(BookRun(es), batches), k);
  }

  /** Re-syncing an unchanged terminal order, with or without its completion time, reopens nothing. */
  lemma ResyncReopensNothing(b: Books, id: OrderId, u: OrderSync, now: int)
    requires BooksInv(b) && id in b.orders && IsTerminal(b.orders[id].status)
    requires u.status == b.orders[id].status && NumCents(u.amount) == b.orders[id].amount
    requires (u.hash == "" || u.hash == b.orders[id].hash) &&
             (u.finishedAt == None || u.finishedAt == b.orders[id].finishedAt)
    ensures UpsertOrder(b, id, u, now).Some? && Pending(UpsertOrder(b, id, u, now).value) == Pending(b)
  {
    var c := UpsertOrder(b, id, u, now).value;
    assert Projection(c, c.orders[id]) == Projection(b, b.orders[id]);
    forall x | x in b.orders ensures x in Pending(c) <==> x in Pending(b) {
      assert Projection(c, c.orders[x]) == Projection(b, b.orders[x]);
    }
  }
}
