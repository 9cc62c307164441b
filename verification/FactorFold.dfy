/**
 Folding finished orders into listing factors: a batch is selected, classified and folded in
 memory while orders may be corrected concurrently; the commit re-checks every order and writes
 factors and markers in one transaction. The stale scan runs between folds, in the same job.
 */
module FactorFold {
  import opened Domain
  import opened Money
  import opened Pricing
  import opened Controller

  type OrderId = int
  type ListingId = int

  datatype Status = Leasing | FinishedDone | BoughtOutStatus | OtherStatus

  datatype OrderType = Short | Long | Unset

  datatype Order = Order(
    asset: string, hash: string, status: Status, orderType: OrderType, rentDays: int,
    started: Option<int>, due: Option<int>, updatedAt: int,
    binding: Option<ListingId>, applied: bool)

  // ---- classification ----

  /** orderTerms: a missing start or due date is replaced by the query time. */
  function TermDays(started: Option<int>, due: Option<int>, now: int): int
  {
    var s := if started.Some? then started.value else now;
    var d := if due.Some? then due.value else now;
    if d > s then (d - s) / DAY else 0
  }

  function Classify(status: Status, orderType: OrderType, rentDays: int, termDays: int,
      fallbackMaxDays: int): Option<FactorEvent>
  {
    match status
    case BoughtOutStatus => Some(BoughtOut)
    case FinishedDone =>
      if orderType == Long then
        if termDays > 0 && rentDays > 0 && rentDays < termDays then Some(RentSuccess) else None
      else if termDays > 0 && rentDays > 0 then
        if rentDays < termDays then Some(RentSuccess) else None
      else if fallbackMaxDays > 0 && rentDays > 0 then
        if rentDays < fallbackMaxDays then Some(RentSuccess) else None
      else None
    case _ => None
  }

  /** The days of a known term, whole ones only, and none if it does not end after it starts. */
  lemma KnownTerm(started: int, due: int, now: int)
    ensures var days := TermDays(Some(started), Some(due), now);
            && (due <= started ==> days == 0)
            && (started < due ==> days * 86400 <= due - started < (days + 1) * 86400)
  {
  }

  /**
   A buy-out is always signalled and nothing else as one. A finished rental is a success signal exactly when it
   ended before its term; only a short or legacy one may fall back to the listing's days.
   */
  lemma SuccessIffEarly(status: Status, orderType: OrderType, rentDays: int, termDays: int, fallbackMaxDays: int)
    ensures Classify(status, orderType, rentDays, termDays, fallbackMaxDays) == Some(BoughtOut) <==>
            status == BoughtOutStatus
    ensures Classify(status, orderType, rentDays, termDays, fallbackMaxDays) in
            {None, Some(BoughtOut), Some(RentSuccess)}
    ensures Classify(status, orderType, rentDays, termDays, fallbackMaxDays) == Some(RentSuccess) <==>
      status == FinishedDone && 0 < rentDays < (if termDays > 0 || orderType == Long then termDays else fallbackMaxDays)
  {
  }

  /** Whole days of a term with a missing date, which the query time stands in for; 0 when they are not positive. */
  function SubstitutedDays(started: Option<int>, due: Option<int>, now: int): int
  {
    match (started, due)
    case (Some(s), None) => if now > s then (now - s) / DAY else 0
    case (None, Some(d)) => if d > now then (d - now) / DAY else 0
    case _ => 0
  }

  /**
   A term with a missing date is not treated as unknown. What signals a success is the span to or
   from the query time, and when it has no whole day, for any order but a long one, the listing's
   own maximum days.
   */
  lemma HalfKnownTerm(started: Option<int>, due: Option<int>, now: int, rentDays: int, orderType: OrderType,
      fallback: int)
    requires started == None || due == None
    ensures var days := SubstitutedDays(started, due, now);
            Classify(FinishedDone, orderType, rentDays, TermDays(started, due, now), fallback) == Some(RentSuccess) <==>
              0 < rentDays < (if days > 0 || orderType == Long then days else fallback)
  {
    assert TermDays(started, due, now) == SubstitutedDays(started, due, now);
    SuccessIffEarly(FinishedDone, orderType, rentDays, TermDays(started, due, now), fallback);
  }

  /** Unknown terms that signal a success: no dates at all, a start only, and a due date only for a long lease. */
  lemma UnknownTermsSignal()
    ensures Classify(FinishedDone, Unset, 1, TermDays(None, None, 0), 8) == Some(RentSuccess)
    ensures Classify(FinishedDone, Short, 3, TermDays(Some(0), None, 10 * DAY), 0) == Some(RentSuccess)
    ensures Classify(FinishedDone, Long, 3, TermDays(None, Some(10 * DAY), 0), 0) == Some(RentSuccess)
  {
    HalfKnownTerm(None, None, 0, 1, Unset, 8);
    HalfKnownTerm(Some(0), None, 10 * DAY, 3, Short, 0);
    HalfKnownTerm(None, Some(10 * DAY), 0, 3, Long, 0);
  }

  // ---- tables ----

  datatype Tables = Tables(orders: map<OrderId, Order>, factors: map<ListingId, Num>)

  /** COALESCE(factor, 1.0), and 1.0 for a listing that is gone. */
  function FactorIn(factors: map<ListingId, Num>, l: ListingId): Num { if l in factors then factors[l] else Fin(1.0) }

  datatype OrderSync = OrderSync(asset: string, hash: string, status: Status, orderType: OrderType, rentDays: int,
    started: Option<int>, due: Option<int>)

  /** The conflict branch of UpsertLeaseOrder: a changed identity unbinds an order that is not applied yet. */
  function Synced(o: Order, u: OrderSync, now: int): Order
  {
    var asset, hash, started := Keep(u.asset, o.asset), Keep(u.hash, o.hash), KeepTime(u.started, o.started);
    var moved := asset != o.asset || hash != o.hash || started != o.started;
    Order(asset, hash, u.status, u.orderType, u.rentDays, started, KeepTime(u.due, o.due), now,
          if !o.applied && moved then None else o.binding, o.applied)
  }

  function Inserted(u: OrderSync, now: int): Order
  {
    Order(u.asset, u.hash, u.status, u.orderType, u.rentDays, u.started, u.due, now, None, false)
  }

  /** bindFactorOrdersSQL for one order: only an order neither applied nor bound takes its unique candidate. */
  ghost function Bind(o: Order, candidates: set<ListingId>): Order
  {
    if !o.applied && o.binding == None && exists l :: candidates == {l} then
      var l :| candidates == {l};
      o.(binding := Some(l))
    else o
  }

  lemma BindsTheOnlyOne(o: Order, l: ListingId)
    ensures Bind(o, {l}) == if !o.applied && o.binding == None then o.(binding := Some(l)) else o
  {
    forall x | {l} == {x} ensures x == l { assert x in {l}; }
  }

  lemma BindsNoneOfMany(o: Order, candidates: set<ListingId>)
    requires |candidates| != 1
    ensures Bind(o, candidates) == o
  {
    forall l ensures candidates != {l} { assert |{l}| == 1; }
  }

  /** A row of UnhandledFactorOrders. */
  datatype FactorOrder = FactorOrder(id: OrderId, listing: ListingId, status: Status, maxDays: int, hash: string,
    updatedAt: int)

  /** A planned controller move: the order, its event (none for no signal) and the parameters in force. */
  datatype Move = Move(order: FactorOrder, event: Option<FactorEvent>, params: ControllerParams)

  function Apply(factor: Num, ev: Option<FactorEvent>, p: ControllerParams): Num
  {
    if ev == None then factor else Fin(FactorOf(NextFactor(factor, ev.value, p)))
  }

  /** The sequential meaning of a batch: each move consumes the previous factor of its listing. */
  function FoldMoves(factors: map<ListingId, Num>, moves: seq<Move>): map<ListingId, Num>
  {
    if moves == [] then factors
    else
      var m := moves[|moves| - 1];
      var f := FoldMoves(factors, moves[..|moves| - 1]);
      f[m.order.listing := Apply(FactorIn(f, m.order.listing), m.event, m.params)]
  }

  /** Any split of a batch gives the same factors. */
  lemma {:induction false} BatchSplit(factors: map<ListingId, Num>, a: seq<Move>, b: seq<Move>)
    ensures FoldMoves(factors, a + b) == FoldMoves(FoldMoves(factors, a), b)
  {
    if b == [] {
      assert a + b == a;
    } else {
      BatchSplit(factors, a, b[..|b| - 1]);
      assert (a + b)[..|a + b| - 1] == a + b[..|b| - 1];
    }
  }

  datatype FactorFold = FactorFold(listing: ListingId, factor: Num)

  function Overwrite(factors: map<ListingId, Num>, folds: seq<FactorFold>): map<ListingId, Num>
  {
    if folds == [] then factors
    else Overwrite(factors, folds[..|folds| - 1])[folds[|folds| - 1].listing := folds[|folds| - 1].factor]
  }

  ghost predicate DistinctListings(folds: seq<FactorFold>)
  {
    forall i, j | 0 <= i < j < |folds| :: folds[i].listing != folds[j].listing
  }

  lemma {:induction false} OverwriteAt(factors: map<ListingId, Num>, folds: seq<FactorFold>, i: nat)
    requires i < |folds| && DistinctListings(folds)
    ensures folds[i].listing in Overwrite(factors, folds) &&
            Overwrite(factors, folds)[folds[i].listing] == folds[i].factor
  {
    if i < |folds| - 1 { OverwriteAt(factors, folds[..|folds| - 1], i); }
  }

  lemma {:induction false} OverwriteElse(factors: map<ListingId, Num>, folds: seq<FactorFold>, l: ListingId)
    requires forall i | 0 <= i < |folds| :: folds[i].listing != l
    ensures l in Overwrite(factors, folds) <==> l in factors
    ensures l in factors ==> Overwrite(factors, folds)[l] == factors[l]
  {
    if folds != [] { OverwriteElse(factors, folds[..|folds| - 1], l); }
  }

  /** The listing index points at each listing's fold entry and nowhere else. */
  ghost predicate Indexed(folds: seq<FactorFold>, foldIdx: map<ListingId, nat>)
  {
    && (forall l | l in foldIdx :: foldIdx[l] < |folds| && folds[foldIdx[l]].listing == l)
    && (forall j | 0 <= j < |folds| :: folds[j].listing in foldIdx && foldIdx[folds[j].listing] == j)
  }

  lemma IndexedIsDistinct(folds: seq<FactorFold>, foldIdx: map<ListingId, nat>)
    requires Indexed(folds, foldIdx)
    ensures DistinctListings(folds)
  {
  }

  lemma OverwriteNew(factors: map<ListingId, Num>, folds: seq<FactorFold>, f: FactorFold)
    ensures Overwrite(factors, folds + [f]) == Overwrite(factors, folds)[f.listing := f.factor]
  {
    assert (folds + [f])[..|folds|] == folds;
  }

  method FoldOne(factors: map<ListingId, Num>, folds: seq<FactorFold>, foldIdx: map<ListingId, nat>, m: Move)
    returns (folds': seq<FactorFold>, foldIdx': map<ListingId, nat>)
    requires Indexed(folds, foldIdx)
    ensures Indexed(folds', foldIdx')
    ensures var f := Overwrite(factors, folds);
            Overwrite(factors, folds') == f[m.order.listing := Apply(FactorIn(f, m.order.listing), m.event, m.params)]
  {
    var l := m.order.listing;
    IndexedIsDistinct(folds, foldIdx);
    if l in foldIdx {
      var cur := foldIdx[l];
      OverwriteAt(factors, folds, cur);
      var next := Apply(folds[cur].factor, m.event, m.params);
      OverwriteReplace(factors, folds, cur, next);
      return folds[cur := FactorFold(l, next)], foldIdx;
    } else {
      OverwriteElse(factors, folds, l);
      var next := Apply(FactorIn(factors, l), m.event, m.params);
      OverwriteNew(factors, folds, FactorFold(l, next));
      return folds + [FactorFold(l, next)], foldIdx[l := |folds|];
    }
  }

  /** foldOrderEvents: the in-memory fold with its listing index, one fold entry per listing. */
  method FoldInMemory(factors: map<ListingId, Num>, moves: seq<Move>) returns (folds: seq<FactorFold>)
    ensures DistinctListings(folds)
    ensures Overwrite(factors, folds) == FoldMoves(factors, moves)
  {
    folds := [];
    var foldIdx: map<ListingId, nat> := map[];
    for i := 0 to |moves|
      invariant Indexed(folds, foldIdx)
      invariant Overwrite(factors, folds) == FoldMoves(factors, moves[..i])
    {
      assert moves[..i + 1][..i] == moves[..i];
      folds, foldIdx := FoldOne(factors, folds, foldIdx, moves[i]);
    }
    assert moves[..|moves|] == moves;
    IndexedIsDistinct(folds, foldIdx);
  }

  lemma {:induction false} OverwriteReplace(factors: map<ListingId, Num>, folds: seq<FactorFold>, i: nat, f: Num)
    requires i < |folds| && DistinctListings(folds)
    ensures Overwrite(factors, folds[i := FactorFold(folds[i].listing, f)]) ==
            Overwrite(factors, folds)[folds[i].listing := f]
  {
    var n := |folds| - 1;
    var folds' := folds[i := FactorFold(folds[i].listing, f)];
    if i < n {
      OverwriteReplace(factors, folds[..n], i, f);
      assert folds'[..n] == folds[..n][i := FactorFold(folds[i].listing, f)];
    } else {
      assert folds'[..n] == folds[..n];
    }
  }

  // ---- commit ----

  predicate Matches(orders: map<OrderId, Order>, o: FactorOrder)
  {
    o.id in orders && !orders[o.id].applied && orders[o.id].binding == Some(o.listing) &&
      orders[o.id].updatedAt == o.updatedAt
  }

  function Mark(orders: map<OrderId, Order>, moves: seq<Move>): map<OrderId, Order>
  {
    map id | id in orders ::
      if exists m | m in moves :: m.order.id == id then orders[id].(applied := true) else orders[id]
  }

  /** ApplyFactorFolds: all or nothing. */
  function Commit(t: Tables, moves: seq<Move>): Option<Tables>
  {
    if forall m | m in moves :: Matches(t.orders, m.order)
    then Some(Tables(Mark(t.orders, moves), FoldMoves(t.factors, moves)))
    else None
  }

  lemma MarkStep(orders: map<OrderId, Order>, moves: seq<Move>, m: Move)
    requires m.order.id in orders
    ensures m.order.id in Mark(orders, moves)
    ensures Mark(orders, moves + [m]) ==
            Mark(orders, moves)[m.order.id := Mark(orders, moves)[m.order.id].(applied := true)]
  {
    assert forall x :: x in moves + [m] <==> x in moves || x == m;
    var a, b := Mark(orders, moves + [m]), Mark(orders, moves);
    forall id | id in orders && id != m.order.id ensures a[id] == b[id] {
      assert (exists x | x in moves + [m] :: x.order.id == id) <==> (exists x | x in moves :: x.order.id == id);
    }
    assert m in moves + [m];
  }

  /** Locks and re-checks every planned order against its current row. */
  method CheckAndMark(orders: map<OrderId, Order>, ghost moves: seq<Move>, handled: seq<FactorOrder>)
    returns (matches: bool, marked: map<OrderId, Order>)
    requires |handled| == |moves| && forall i | 0 <= i < |moves| :: moves[i].order == handled[i]
    ensures matches <==> forall m | m in moves :: Matches(orders, m.order)
    ensures matches ==> marked == Mark(orders, moves)
  {
    marked := orders;
    for i := 0 to |handled|
      invariant forall j | 0 <= j < i :: Matches(orders, moves[j].order)
      invariant marked == Mark(orders, moves[..i])
    {
      if !Matches(orders, handled[i]) {
        assert moves[i] in moves;
        return false, orders;
      }
      MarkStep(orders, moves[..i], moves[i]);
      assert moves[..i + 1] == moves[..i] + [moves[i]];
      marked := marked[handled[i].id := marked[handled[i].id].(applied := true)];
    }
    assert moves[..|moves|] == moves;
    matches := true;
  }

  class FactorStore {
    var orders: map<OrderId, Order>
    var factors: map<ListingId, Num>

    constructor ()
      ensures orders == map[] && factors == map[]
    {
      orders, factors := map[], map[];
    }

    method ApplyFactorFolds(folds: seq<FactorFold>, ghost moves: seq<Move>, handled: seq<FactorOrder>)
        returns (ok: bool)
      requires |handled| == |moves| && forall i | 0 <= i < |moves| :: moves[i].order == handled[i]
      requires Overwrite(factors, folds) == FoldMoves(factors, moves)
      modifies this
      ensures var r := Commit(Tables(old(orders), old(factors)), moves);
              ok == r.Some? && Tables(orders, factors) == if ok then r.value else Tables(old(orders), old(factors))
    {
      var matches, marked := CheckAndMark(orders, moves, handled);
      if !matches { return false; }
      for i := 0 to |folds|
        invariant factors == Overwrite(old(factors), folds[..i]) && orders == old(orders)
      {
        assert folds[..i + 1][..i] == folds[..i];
        factors := factors[folds[i].listing := folds[i].factor];
      }
      assert folds[..|folds|] == folds;
      orders := marked;
      ok := true;
    }
  }

  // ---- the stale scan ----

  /** An active listing with its stored factor, the age of its last controller event, and whether it can be saved. */
  datatype StaleCandidate = StaleCandidate(listing: ListingId, hash: string, factor: Num, age: int, stored: bool)

  type Strategy = string -> Option<ControllerParams>

  /** The stale scan's event on the stored factor. */
  function ScanEvent(f: Num, p: ControllerParams): FactorEvent
  {
    if f.Fin? && AbsR(f.r - p.fMin) < 0.0001 then Reset else StaleDay
  }

  function ScanCandidates(factors: map<ListingId, Num>, cands: seq<StaleCandidate>, strategy: Strategy)
    : map<ListingId, Num>
  {
    if cands == [] then factors
    else
      var c, f := cands[|cands| - 1], ScanCandidates(factors, cands[..|cands| - 1], strategy);
      var p := strategy(c.hash);
      if p == None || c.age < p.value.staleDays * DAY || !c.stored then f
      else f[c.listing := Fin(FactorOf(NextFactor(c.factor, ScanEvent(c.factor, p.value), p.value)))]
  }

  /** The listings, in order, of the due candidates that the scan resets and saves. */
  function ResetsOf(cands: seq<StaleCandidate>, strategy: Strategy): seq<ListingId>
  {
    if cands == [] then []
    else
      var c := cands[|cands| - 1];
      var p := strategy(c.hash);
      ResetsOf(cands[..|cands| - 1], strategy) +
      if p.Some? && c.age >= p.value.staleDays * DAY && c.stored && ScanEvent(c.factor, p.value) == Reset
      then [c.listing] else []
  }

  /** runStaleScan with its strategy cache: the factor writes and the reported resets. */
  method RunStaleScan(factors: map<ListingId, Num>, cands: seq<StaleCandidate>, strategy: Strategy)
    returns (factors': map<ListingId, Num>, resets: seq<ListingId>)
    ensures factors' == ScanCandidates(factors, cands, strategy)
    ensures resets == ResetsOf(cands, strategy)
  {
    factors', resets := factors, [];
    var paramsCache: map<string, ControllerParams> := map[];
    for i := 0 to |cands|
      invariant factors' == ScanCandidates(factors, cands[..i], strategy)
      invariant resets == ResetsOf(cands[..i], strategy)
      invariant forall h | h in paramsCache :: strategy(h) == Some(paramsCache[h])
    {
      var c := cands[i];
      assert cands[..i + 1][..i] == cands[..i];
      if c.hash !in paramsCache {
        var p := strategy(c.hash);
        if p == None { continue; }
        paramsCache := paramsCache[c.hash := p.value];
      }
      var p := paramsCache[c.hash];
      if c.age < p.staleDays * DAY { continue; }
      var ev := ScanEvent(c.factor, p);
      if !c.stored { continue; }
      factors' := factors'[c.listing := Fin(FactorOf(NextFactor(c.factor, ev, p)))];
      if ev == Reset { resets := resets + [c.listing]; }
    }
    assert cands[..|cands|] == cands;
  }

  /** The listing has seen no controller event for the days its parameters ask for, and its factor can be saved. */
  predicate Steps(c: StaleCandidate, p: Option<ControllerParams>)
  {
    p.Some? && !(c.age < p.value.staleDays * 86400) && c.stored
  }

  /**
   One more candidate: unless it is due and saved it changes nothing and reports nothing; otherwise its listing,
   and no other, moves by one controller event, a reported reset exactly at the floor and a stale day elsewhere.
   */
  lemma NextCandidate(factors: map<ListingId, Num>, cands: seq<StaleCandidate>, c: StaleCandidate, strategy: Strategy)
    ensures var f, g := ScanCandidates(factors, cands, strategy), ScanCandidates(factors, cands + [c], strategy);
            var r, p := ResetsOf(cands, strategy), strategy(c.hash);
            var reset := p.Some? && c.factor.Fin? && p.value.fMin - 0.0001 < c.factor.r < p.value.fMin + 0.0001;
            && (!Steps(c, p) ==> g == f)
            && (Steps(c, p) ==> g == f[c.listing :=
                  Fin(FactorOf(NextFactor(c.factor, if reset then Reset else StaleDay, p.value)))])
            && ResetsOf(cands + [c], strategy) == r + if Steps(c, p) && reset then [c.listing] else []
  {
    assert (cands + [c])[..|cands|] == cands;
  }

  /** A due candidate moves exactly as one step of the analysed scan. */
  lemma CandidateScans(factors: map<ListingId, Num>, cands: seq<StaleCandidate>, c: StaleCandidate, q: int,
      strategy: Strategy)
    requires c.factor == Fin(FactorOf(q)) && Steps(c, strategy(c.hash))
    ensures ScanCandidates(factors, cands + [c], strategy) ==
            ScanCandidates(factors, cands, strategy)[c.listing := Fin(FactorOf(Scan(q, strategy(c.hash).value)))]
  {
    NextCandidate(factors, cands, c, strategy);
  }

  // ---- the protocol ----

  /** One entry of the committed event log. */
  datatype Entry =
    | Applied(order: OrderId, listing: ListingId, signal: Option<FactorEvent>, params: ControllerParams)
    | Idle(listing: ListingId, event: FactorEvent, params: ControllerParams)

  function EventOf(e: Entry): Option<FactorEvent> { if e.Idle? then Some(e.event) else e.signal }

  /** A planning round in flight: the selected rows, then the classified moves. */
  datatype Flight = Selected(batch: seq<FactorOrder>) | Planned(moves: seq<Move>, now: int)

  datatype FoldState = FoldState(t: Tables, clock: int, flight: Option<Flight>, log: seq<Entry>)

  datatype FoldEvent =
    | Sync(id: OrderId, u: OrderSync)
    | Rebind(id: OrderId, candidates: set<ListingId>)
    | Select(batch: seq<FactorOrder>)
    | ClassifyAll(now: int, kept: set<OrderId>, params: map<OrderId, ControllerParams>)
    | Finish
    | Abort
    | StaleScan(listing: ListingId, ctrl: ControllerParams)

  predicate Selectable(t: Tables, o: FactorOrder)
  {
    && Matches(t.orders, o) && t.orders[o.id].status == o.status
    && (o.status == FinishedDone || o.status == BoughtOutStatus)
  }

  predicate Ascending(batch: seq<FactorOrder>) { forall i, j | 0 <= i < j < |batch| :: batch[i].id < batch[j].id }

  ghost predicate CanFold(s: FoldState, e: FoldEvent)
  {
    match e
    case Select(batch) => s.flight == None && Ascending(batch) && forall o | o in batch :: Selectable(s.t, o)
    case ClassifyAll(_, kept, params) => s.flight.Some? && s.flight.value.Selected? && kept <= params.Keys &&
      s.t.orders.Keys >= kept
    case Finish => s.flight.Some? && s.flight.value.Planned?
    case StaleScan(_, _) => s.flight == None
    case _ => true
  }

  /** The event of a selected order, with the terms that its row has when they are queried. */
  function EventNow(t: Tables, o: FactorOrder, now: int): Option<FactorEvent>
  {
    if o.id !in t.orders then Classify(o.status, Unset, 0, 0, o.maxDays)
    else
      var r := t.orders[o.id];
      Classify(o.status, r.orderType, r.rentDays, TermDays(r.started, r.due, now), o.maxDays)
  }

  /** Orders whose strategy could not be loaded are skipped and stay unmarked. */
  function Moves(t: Tables, batch: seq<FactorOrder>, now: int, kept: set<OrderId>,
      params: map<OrderId, ControllerParams>): seq<Move>
  {
    if batch == [] then []
    else
      var o := batch[|batch| - 1];
      Moves(t, batch[..|batch| - 1], now, kept, params) +
      if o.id in kept && o.id in params then [Move(o, EventNow(t, o, now), params[o.id])] else []
  }

  function Logged(moves: seq<Move>): (r: seq<Entry>)
    ensures |r| == |moves|
    ensures forall i | 0 <= i < |r| ::
            r[i] == Applied(moves[i].order.id, moves[i].order.listing, moves[i].event, moves[i].params)
  {
    seq(|moves|, i requires 0 <= i < |moves| => Applied(moves[i].order.id, moves[i].order.listing, moves[i].event,
      moves[i].params))
  }

  ghost function FoldStep(s: FoldState, e: FoldEvent): FoldState
    requires CanFold(s, e)
  {
    match e
    case Sync(id, u) =>
      var now := s.clock + 1;
      var o := if id in s.t.orders then Synced(s.t.orders[id], u, now) else Inserted(u, now);
      s.(clock := now, t := s.t.(orders := s.t.orders[id := o]))
    case Rebind(id, candidates) =>
      if id in s.t.orders then s.(t := s.t.(orders := s.t.orders[id := Bind(s.t.orders[id], candidates)])) else s
    case Select(batch) => s.(flight := Some(Selected(batch)))
    case ClassifyAll(now, kept, params) => s.(flight :=
      Some(Planned(Moves(s.t, s.flight.value.batch, now, kept, params), now)))
    case Finish =>
      var r := Commit(s.t, s.flight.value.moves);
      if r.Some? then FoldState(r.value, s.clock, None, s.log + Logged(s.flight.value.moves)) else s.(flight := None)
    case Abort => s.(flight := None)
    case StaleScan(l, p) =>
      var f := FactorIn(s.t.factors, l);
      var ev := ScanEvent(f, p);
      s.(t := s.t.(factors := s.t.factors[l := Apply(f, Some(ev), p)]), log := s.log + [Idle(l, ev, p)])
  }

  // ---- what the log says ----

  /** The left fold of the controller over one listing's entries, from a neutral factor. */
  function Replay(log: seq<Entry>, l: ListingId): Num
  {
    if log == [] then Fin(1.0)
    else
      var e, f := log[|log| - 1], Replay(log[..|log| - 1], l);
      if e.listing == l then Apply(f, EventOf(e), e.params) else f
  }

  ghost predicate OncePerOrder(log: seq<Entry>)
  {
    forall i, j | 0 <= i < j < |log| && log[i].Applied? && log[j].Applied? :: log[i].order != log[j].order
  }

  ghost predicate LoggedOrder(log: seq<Entry>, id: OrderId, l: Option<ListingId>)
  {
    exists e | e in log :: e.Applied? && e.order == id && l == Some(e.listing)
  }

  ghost predicate AscendingMoves(moves: seq<Move>)
  {
    forall i, j | 0 <= i < j < |moves| :: moves[i].order.id < moves[j].order.id
  }

  /** A selected order was finished or bought out, and is so for as long as its row carries the selected update time. */
  ghost predicate SelectedAs(s: FoldState, o: FactorOrder)
  {
    && o.updatedAt <= s.clock && (o.status == FinishedDone || o.status == BoughtOutStatus)
    && (o.id in s.t.orders && s.t.orders[o.id].updatedAt == o.updatedAt ==> s.t.orders[o.id].status == o.status)
  }

  /** A planned event is that of the order's current row for as long as the row carries the selected update time. */
  ghost predicate CurrentMove(s: FoldState, m: Move, now: int)
  {
    && SelectedAs(s, m.order)
    && (m.order.id in s.t.orders && s.t.orders[m.order.id].updatedAt == m.order.updatedAt ==>
      m.event == EventNow(s.t, m.order, now))
  }

  ghost predicate FlightOk(s: FoldState)
  {
    s.flight.Some? ==>
      match s.flight.value
      case Selected(batch) => Ascending(batch) && forall o | o in batch :: SelectedAs(s, o)
      case Planned(moves, now) => AscendingMoves(moves) && forall m | m in moves :: CurrentMove(s, m, now)
  }

  /** Markers and log entries of orders agree, in both directions. */
  ghost predicate MarkersMatchLog(s: FoldState)
  {
    && (forall id | id in s.t.orders && s.t.orders[id].applied :: LoggedOrder(s.log, id, s.t.orders[id].binding))
    && (forall e | e in s.log && e.Applied? ::
      e.order in s.t.orders && s.t.orders[e.order].applied && s.t.orders[e.order].binding == Some(e.listing))
  }

  ghost predicate FactorsReplayLog(s: FoldState)
  {
    forall l :: FactorIn(s.t.factors, l) == Replay(s.log, l)
  }

  ghost predicate FoldInv(s: FoldState)
  {
    && OncePerOrder(s.log) && MarkersMatchLog(s) && FactorsReplayLog(s) && FlightOk(s)
    && (forall id | id in s.t.orders :: s.t.orders[id].updatedAt <= s.clock)
  }

  // ---- steps ----

  lemma {:induction false} MovesShape(t: Tables, batch: seq<FactorOrder>, now: int, kept: set<OrderId>,
      params: map<OrderId, ControllerParams>)
    requires Ascending(batch)
    ensures var ms := Moves(t, batch, now, kept, params);
            AscendingMoves(ms) && forall m | m in ms :: m.order in batch && m.event == EventNow(t, m.order, now)
  {
    if batch != [] {
      var pre := batch[..|batch| - 1];
      MovesShape(t, pre, now, kept, params);
      var ms := Moves(t, pre, now, kept, params);
      forall i | 0 <= i < |ms| ensures ms[i].order.id < batch[|batch| - 1].id {
        assert ms[i] in ms;
        var j :| 0 <= j < |pre| && pre[j] == ms[i].order;
      }
    }
  }

  lemma {:induction false} ReplayAppended(log: seq<Entry>, more: seq<Entry>, moves: seq<Move>,
      factors: map<ListingId, Num>, l: ListingId)
    requires more == Logged(moves) && forall x :: FactorIn(factors, x) == Replay(log, x)
    ensures Replay(log + more, l) == FactorIn(FoldMoves(factors, moves), l)
  {
    if moves == [] {
      assert log + more == log;
    } else {
      var n := |moves| - 1;
      assert Logged(moves[..n]) == more[..n];
      assert (log + more)[..|log + more| - 1] == log + more[..n];
      ReplayAppended(log, more[..n], moves[..n], factors, l);
      ReplayAppended(log, more[..n], moves[..n], factors, moves[n].order.listing);
    }
  }

  lemma SyncKeepsInv(s: FoldState, id: OrderId, u: OrderSync)
    requires FoldInv(s)
    ensures FoldInv(FoldStep(s, Sync(id, u)))
  {
    var s' := FoldStep(s, Sync(id, u));
    forall e | e in s.log && e.Applied?
      ensures e.order in s'.t.orders && s'.t.orders[e.order].applied && s'.t.orders[e.order].binding == Some(e.listing)
    {
      assert e.order in s.t.orders;
    }
    if s.flight.Some? && s.flight.value.Planned? {
      forall m | m in s.flight.value.moves ensures CurrentMove(s', m, s.flight.value.now) {
        assert CurrentMove(s, m, s.flight.value.now);
      }
    }
  }

  lemma RebindKeepsInv(s: FoldState, id: OrderId, candidates: set<ListingId>)
    requires FoldInv(s)
    ensures FoldInv(FoldStep(s, Rebind(id, candidates)))
  {
    var s' := FoldStep(s, Rebind(id, candidates));
    if s.flight.Some? && s.flight.value.Planned? {
      forall m | m in s.flight.value.moves ensures CurrentMove(s', m, s.flight.value.now) {
        assert CurrentMove(s, m, s.flight.value.now);
      }
    }
  }

  lemma ClassifyKeepsInv(s: FoldState, now: int, kept: set<OrderId>, params: map<OrderId, ControllerParams>)
    requires FoldInv(s) && CanFold(s, ClassifyAll(now, kept, params))
    ensures FoldInv(FoldStep(s, ClassifyAll(now, kept, params)))
  {
    MovesShape(s.t, s.flight.value.batch, now, kept, params);
    var s' := FoldStep(s, ClassifyAll(now, kept, params));
    forall m | m in s'.flight.value.moves ensures CurrentMove(s', m, now) {
      assert m.order in s.flight.value.batch;
    }
  }

  lemma CommittedLog(s: FoldState, moves: seq<Move>)
    requires OncePerOrder(s.log) && MarkersMatchLog(s) && AscendingMoves(moves)
    requires forall m | m in moves :: Matches(s.t.orders, m.order)
    ensures OncePerOrder(s.log + Logged(moves))
  {
    var log := s.log + Logged(moves);
    forall i, j | 0 <= i < j < |log| && log[i].Applied? && log[j].Applied? ensures log[i].order != log[j].order {
      if i < |s.log| <= j {
        assert log[i] in s.log && moves[j - |s.log|] in moves;
      }
    }
  }

  lemma CommittedMarkers(s: FoldState, moves: seq<Move>)
    requires MarkersMatchLog(s) && forall m | m in moves :: Matches(s.t.orders, m.order)
    ensures MarkersMatchLog(FoldState(Tables(Mark(s.t.orders, moves), FoldMoves(s.t.factors, moves)), s.clock, None,
            s.log + Logged(moves)))
  {
    var orders', log' := Mark(s.t.orders, moves), s.log + Logged(moves);
    forall id | id in orders' && orders'[id].applied ensures LoggedOrder(log', id, orders'[id].binding) {
      if s.t.orders[id].applied {
        var e :| e in s.log && e.Applied? && e.order == id && s.t.orders[id].binding == Some(e.listing);
        assert e in log';
      } else {
        var i :| 0 <= i < |moves| && moves[i].order.id == id;
        assert moves[i] in moves && Logged(moves)[i] in log';
      }
    }
    forall e | e in log' && e.Applied?
      ensures e.order in orders' && orders'[e.order].applied && orders'[e.order].binding == Some(e.listing)
    {
      if e !in s.log {
        var i :| 0 <= i < |moves| && Logged(moves)[i] == e;
        assert moves[i] in moves;
      }
    }
  }

  lemma FinishKeepsInv(s: FoldState)
    requires FoldInv(s) && CanFold(s, Finish)
    ensures FoldInv(FoldStep(s, Finish))
  {
    var moves := s.flight.value.moves;
    if Commit(s.t, moves).Some? {
      CommittedLog(s, moves);
      CommittedMarkers(s, moves);
      forall l ensures FactorIn(FoldMoves(s.t.factors, moves), l) == Replay(s.log + Logged(moves), l) {
        ReplayAppended(s.log, Logged(moves), moves, s.t.factors, l);
      }
    }
  }

  lemma StaleScanKeepsInv(s: FoldState, l: ListingId, p: ControllerParams)
    requires FoldInv(s) && CanFold(s, StaleScan(l, p))
    ensures FoldInv(FoldStep(s, StaleScan(l, p)))
  {
    var s' := FoldStep(s, StaleScan(l, p));
    assert s'.log[..|s'.log| - 1] == s.log;
    forall x ensures FactorIn(s'.t.factors, x) == Replay(s'.log, x) {
      assert FactorIn(s.t.factors, x) == Replay(s.log, x);
    }
    forall id | id in s'.t.orders && s'.t.orders[id].applied ensures LoggedOrder(s'.log, id, s'.t.orders[id].binding) {
      var e :| e in s.log && e.Applied? && e.order == id && s.t.orders[id].binding == Some(e.listing);
      assert e in s'.log;
    }
  }

  lemma FoldStepKeepsInv(s: FoldState, e: FoldEvent)
    requires FoldInv(s) && CanFold(s, e)
    ensures FoldInv(FoldStep(s, e))
  {
    match e
    case Sync(id, u) => SyncKeepsInv(s, id, u);
    case Rebind(id, candidates) => RebindKeepsInv(s, id, candidates);
    case Select(batch) =>
    case ClassifyAll(now, kept, params) => ClassifyKeepsInv(s, now, kept, params);
    case Finish => FinishKeepsInv(s);
    case Abort =>
    case StaleScan(l, p) => StaleScanKeepsInv(s, l, p);
  }

  // ---- runs ----

  ghost predicate FoldRun(states: seq<FoldState>, events: seq<FoldEvent>)
  {
    && |states| == |events| + 1
    && states[0] == FoldState(Tables(map[], map[]), 0, None, [])
    && forall i | 0 <= i < |events| :: CanFold(states[i], events[i]) && states[i + 1] == FoldStep(states[i], events[i])
  }

  /**
   In every reachable state each order is folded at most once and into the listing it is bound to,
   exactly the applied orders are in the log, and every factor is the left fold of the controller
   over the committed log.
   */
  lemma {:induction false} FoldedExactlyOnce(states: seq<FoldState>, events: seq<FoldEvent>, n: nat)
    requires FoldRun(states, events) && n < |states|
    ensures FoldInv(states[n])
  {
    if n == 0 {
      assert Replay([], 0) == Fin(1.0);
    } else {
      FoldedExactlyOnce(states, events, n - 1);
      FoldStepKeepsInv(states[n - 1], events[n - 1]);
    }
  }

  predicate AppliedAs(s: FoldState, id: OrderId, l: Option<ListingId>)
  {
    id in s.t.orders && s.t.orders[id].applied && s.t.orders[id].binding == l
  }

  lemma RunKeepsApplied(states: seq<FoldState>, events: seq<FoldEvent>, i: nat, id: OrderId, l: Option<ListingId>)
    requires FoldRun(states, events) && i < |events| && AppliedAs(states[i], id, l)
    ensures AppliedAs(states[i + 1], id, l)
  {
    var s, e := states[i], events[i];
    assert CanFold(s, e) && states[i + 1] == FoldStep(s, e);
    StepKeepsApplied(s, e, id);
  }

  /** Once applied, an order stays applied and its binding never changes. */
  lemma {:induction false} AppliedBindingIsFinal(states: seq<FoldState>, events: seq<FoldEvent>, n: nat, m: nat,
      id: OrderId, l: Option<ListingId>)
    requires FoldRun(states, events) && n <= m < |states| && AppliedAs(states[n], id, l)
    ensures AppliedAs(states[m], id, l)
  {
    if n < m {
      AppliedBindingIsFinal(states, events, n, m - 1, id, l);
      RunKeepsApplied(states, events, m - 1, id, l);
    }
  }

  lemma StepKeepsApplied(s: FoldState, e: FoldEvent, id: OrderId)
    requires CanFold(s, e) && id in s.t.orders && s.t.orders[id].applied
    ensures var o := FoldStep(s, e).t.orders; id in o && o[id].applied && o[id].binding == s.t.orders[id].binding
  {
  }

  /**
   What is committed is what the orders say: a successful commit marks finished and bought-out orders only, each in
   the listing it is bound to and for the first time, with the event that its row calls for at that moment.
   */
  lemma CommitIsCurrent(s: FoldState)
    requires FoldInv(s) && CanFold(s, Finish) && Commit(s.t, s.flight.value.moves).Some?
    ensures forall m | m in s.flight.value.moves :: CommittedAsIs(s.t.orders, m, s.flight.value.now)
  {
    forall m | m in s.flight.value.moves ensures CommittedAsIs(s.t.orders, m, s.flight.value.now) {
      assert CurrentMove(s, m, s.flight.value.now);
    }
  }

  ghost predicate CommittedAsIs(orders: map<OrderId, Order>, m: Move, now: int)
  {
    && m.order.id in orders
    && var r := orders[m.order.id];
       && !r.applied && r.binding == Some(m.order.listing) && (r.status == FinishedDone || r.status == BoughtOutStatus)
       && m.event == Classify(r.status, r.orderType, r.rentDays, TermDays(r.started, r.due, now), m.order.maxDays)
  }

  /** A finished or bought-out order that is bound and not applied, as a round selects it. */
  predicate Ready(t: Tables, o: FactorOrder)
  {
    && o.id in t.orders && o.status in {FinishedDone, BoughtOutStatus}
    && var r := t.orders[o.id];
       r.status == o.status && r.updatedAt == o.updatedAt && !r.applied && r.binding == Some(o.listing)
  }

  /**
   An undisturbed round takes any ready order all the way: it is selected, classified and committed, which marks its
   row and moves the factor of its listing by its event, and nothing else.
   */
  lemma UndisturbedRoundFolds(s: FoldState, o: FactorOrder, now: int, p: ControllerParams)
    requires s.flight == None && Ready(s.t, o)
    ensures var select, classify := Select([o]), ClassifyAll(now, {o.id}, map[o.id := p]);
            && CanFold(s, select) && CanFold(FoldStep(s, select), classify)
            && CanFold(FoldStep(FoldStep(s, select), classify), Finish)
            && var r, f := s.t.orders[o.id], FactorIn(s.t.factors, o.listing);
               var event := Classify(r.status, r.orderType, r.rentDays, TermDays(r.started, r.due, now), o.maxDays);
               FoldStep(FoldStep(FoldStep(s, select), classify), Finish) == FoldState(
                 Tables(s.t.orders[o.id := r.(applied := true)], s.t.factors[o.listing := Apply(f, event, p)]),
                 s.clock, None, s.log + [Applied(o.id, o.listing, event, p)])
  {
    var m := Move(o, EventNow(s.t, o, now), p);
    assert [o][..0] == [] && [m][..0] == [];
    assert Moves(s.t, [o], now, {o.id}, map[o.id := p]) == [] + [m] == [m];
    assert FoldMoves(s.t.factors, []) == s.t.factors;
    MarkOne(s.t.orders, m);
    assert Logged([m]) == [Applied(o.id, o.listing, m.event, p)];
  }

  lemma MarkOne(orders: map<OrderId, Order>, m: Move)
    requires m.order.id in orders
    ensures Mark(orders, [m]) == orders[m.order.id := orders[m.order.id].(applied := true)]
  {
    assert Mark(orders, []) == orders;
    MarkStep(orders, [], m);
    assert [] + [m] == [m];
  }

  /** An order of the round in flight, selected or already planned. */
  ghost predicate InFlight(s: FoldState, o: FactorOrder)
  {
    s.flight.Some? &&
    match s.flight.value
    case Selected(batch) => o in batch
    case Planned(moves, _) => exists m | m in moves :: m.order == o
  }

  /** An order in flight was corrected after it was selected. */
  ghost predicate Outdated(s: FoldState, o: FactorOrder)
  {
    InFlight(s, o) && o.id in s.t.orders && o.updatedAt < s.t.orders[o.id].updatedAt
  }

  lemma FlightIsPast(s: FoldState, o: FactorOrder)
    requires FoldInv(s) && InFlight(s, o)
    ensures o.updatedAt <= s.clock
  {
    if s.flight.value.Planned? {
      var m :| m in s.flight.value.moves && m.order == o;
      assert CurrentMove(s, m, s.flight.value.now);
    }
  }

  /** A correction of any order in flight outdates it, whether it comes before or after classification. */
  lemma CorrectionVoidsPlan(s: FoldState, o: FactorOrder, u: OrderSync)
    requires FoldInv(s) && InFlight(s, o)
    ensures Outdated(FoldStep(s, Sync(o.id, u)), o)
  {
    FlightIsPast(s, o);
  }

  /** Every kept order of the batch has a move. */
  lemma {:induction false} KeptHasMove(t: Tables, batch: seq<FactorOrder>, now: int, kept: set<OrderId>,
      params: map<OrderId, ControllerParams>, o: FactorOrder)
    requires o in batch && o.id in kept && o.id in params
    ensures exists m | m in Moves(t, batch, now, kept, params) :: m.order == o
  {
    var n := |batch| - 1;
    var all, pre := Moves(t, batch, now, kept, params), Moves(t, batch[..n], now, kept, params);
    if o in batch[..n] {
      KeptHasMove(t, batch[..n], now, kept, params, o);
      var m :| m in pre && m.order == o;
      assert m in all;
    } else {
      var m := Move(o, EventNow(t, o, now), params[o.id]);
      assert batch[n] == o && all == pre + [m];
      assert m in all;
    }
  }

  /** An event that drops an order from the round: the round ends, or classification leaves the order out. */
  predicate Drops(e: FoldEvent, o: FactorOrder) { e.Finish? || e.Abort? || (e.ClassifyAll? && o.id !in e.kept) }

  /**
   An outdated order stays outdated until it is dropped, and the commit of a round that still has one
   changes nothing.
   */
  lemma OutdatedStays(s: FoldState, e: FoldEvent, o: FactorOrder)
    requires Outdated(s, o) && CanFold(s, e)
    requires forall id | id in s.t.orders :: s.t.orders[id].updatedAt <= s.clock
    ensures Drops(e, o) || Outdated(FoldStep(s, e), o)
    ensures e.Finish? ==> FoldStep(s, e) == s.(flight := None)
  {
    match e
    case ClassifyAll(now, kept, params) =>
      if o.id in kept { KeptHasMove(s.t, s.flight.value.batch, now, kept, params, o); }
    case Finish =>
      var m :| m in s.flight.value.moves && m.order == o;
      assert !Matches(s.t.orders, m.order);
    case _ =>
  }
}
