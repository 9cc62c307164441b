/**
 The `lease_orders` table and its upsert. The income ledger and the factor fold each work on part of
 an order; both parts are views of the one statement below.
 */
module LeaseOrders {
  import opened Domain
  import opened Money
  import Income
  import FactorFold

  type OrderId = int

  datatype LeaseOrder = LeaseOrder(
    ch: Channel, asset: string, hash: string, orderType: FactorFold.OrderType, status: Income.Status, rentDays: int,
    rent: int, amount: int, deposits: int,
    started: Option<int>, due: Option<int>, finished: Option<int>, updatedAt: int,
    recorded: bool, binding: Option<FactorFold.ListingId>, applied: bool)

  /** An order as the platform reports it; a zero time is missing. */
  datatype Report = Report(
    ch: Channel, asset: string, hash: string, orderType: FactorFold.OrderType, status: Income.Status, rentDays: int,
    rent: Num, amount: Num, deposits: Num, started: Option<int>, due: Option<int>, finished: Option<int>)

  predicate Fits(u: Report)
  {
    Income.FitsColumn(NumCents(u.rent)) && Income.FitsColumn(NumCents(u.amount)) &&
      Income.FitsColumn(NumCents(u.deposits))
  }

  /** Whether the conflict branch gives the order another identity. */
  predicate Moves(o: LeaseOrder, u: Report)
  {
    (u.asset != "" && u.asset != o.asset) || (u.hash != "" && u.hash != o.hash) ||
      (u.started.Some? && u.started != o.started)
  }

  class OrderTable {
    var rows: map<OrderId, LeaseOrder>

    constructor ()
      ensures rows == map[]
    {
      rows := map[];
    }

    /**
     UpsertLeaseOrder, one transaction: an amount outside its column is refused, an unbound order takes
     its only candidate listing.
     */
    method UpsertLeaseOrder(id: OrderId, u: Report, now: int, candidates: seq<FactorFold.ListingId>) returns (ok: bool)
      modifies this
      ensures ok <==> forall v | v in [u.rent, u.amount, u.deposits] ::
                        -1000000000000 < NumCents(v) < 1000000000000
      ensures ok ==> Fits(u)
      ensures !ok ==> rows == old(rows)
      ensures ok ==> rows.Keys == old(rows).Keys + {id} && forall x | x in old(rows) && x != id ::
              rows[x] == old(rows)[x]
      ensures ok ==> Reported(rows[id], u, now)
      ensures ok && id in old(rows) ==> Updated(old(rows)[id], rows[id], u, now)
      ensures ok && id !in old(rows) ==> Created(rows[id], u, now)
      ensures ok ==> BoundAs(if id in old(rows) then UnboundIfMoved(old(rows)[id], u) else None, candidates, rows[id])
    {
      var rent, amount, deposits := NumCents(u.rent), NumCents(u.amount), NumCents(u.deposits);
      if !Income.FitsColumn(rent) || !Income.FitsColumn(amount) || !Income.FitsColumn(deposits) { return false; }
      var terminal := Income.IsTerminal(u.status);
      var o: LeaseOrder;
      if id !in rows {
        var finished := if !terminal then None else if u.finished.Some? then u.finished else Some(now);
        o := LeaseOrder(u.ch, u.asset, u.hash, u.orderType, u.status, u.rentDays, rent, amount, deposits,
                        u.started, u.due, finished, now, false, None, false);
      } else {
        var was := rows[id];
        var asset, hash := Keep(u.asset, was.asset), Keep(u.hash, was.hash);
        var started, due := KeepTime(u.started, was.started), KeepTime(u.due, was.due);
        var finished := if !terminal then None else if u.finished.Some? then u.finished
          else if was.finished.Some? then was.finished else Some(now);
        var moved := asset != was.asset || hash != was.hash || started != was.started;
        var binding := if !was.applied && moved then None else was.binding;
        o := LeaseOrder(was.ch, asset, hash, u.orderType, u.status, u.rentDays, rent, amount, deposits,
                        started, due, finished, now, was.recorded, binding, was.applied);
      }
      if !o.applied && o.binding == None && |candidates| == 1 {
        o := o.(binding := Some(candidates[0]));
      }
      rows := rows[id := o];
      ok := true;
    }
  }

  // ---- what the upsert promises ----

  /** What the report always decides. */
  predicate Reported(o: LeaseOrder, u: Report, now: int)
  {
    && o.status == u.status && o.orderType == u.orderType && o.rentDays == u.rentDays && o.updatedAt == now
    && o.rent == NumCents(u.rent) && o.amount == NumCents(u.amount) && o.deposits == NumCents(u.deposits)
  }

  predicate Created(o: LeaseOrder, u: Report, now: int)
  {
    && o.ch == u.ch && o.asset == u.asset && o.hash == u.hash && o.started == u.started && o.due == u.due
    && !o.recorded && !o.applied
    && (if u.status != Income.Open then o.finished.Some? && (u.finished.Some? ==> o.finished == u.finished)
      else o.finished == None)
    && (u.status != Income.Open && u.finished == None ==> o.finished == Some(now))
  }

  /**
   What a conflict keeps: the channel and both markers always; identity and dates where the report has
   none; and the completion time of a terminal order unless the report has one. A reopened order has none.
   */
  predicate Updated(was: LeaseOrder, o: LeaseOrder, u: Report, now: int)
  {
    && o.ch == was.ch && o.recorded == was.recorded && o.applied == was.applied
    && o.asset == Keep(u.asset, was.asset) && o.hash == Keep(u.hash, was.hash)
    && o.started == KeepTime(u.started, was.started) && o.due == KeepTime(u.due, was.due)
    && (u.status == Income.Open ==> o.finished == None)
    && (u.status != Income.Open ==> o.finished == KeepTime(u.finished, KeepTime(was.finished, Some(now))))
  }

  /**
   The binding after the conflict branch: an applied order keeps it whatever happens, any other one
   loses it with its identity.
   */
  function UnboundIfMoved(was: LeaseOrder, u: Report): Option<FactorFold.ListingId>
  {
    if !was.applied && Moves(was, u) then None else was.binding
  }

  /** An order neither applied nor bound takes its candidate listing when there is exactly one. */
  predicate BoundAs(binding: Option<FactorFold.ListingId>, candidates: seq<FactorFold.ListingId>, o: LeaseOrder)
  {
    && (binding.Some? || o.applied ==> o.binding == binding)
    && (binding == None && !o.applied ==> o.binding == if |candidates| == 1 then Some(candidates[0]) else None)
  }

  // ---- the two views ----

  function ForIncome(o: LeaseOrder): Income.Order
  {
    Income.Order(o.ch, o.hash, o.status, o.amount, o.finished, o.updatedAt, o.recorded)
  }

  function IncomeReport(u: Report): Income.OrderSync { Income.OrderSync(u.ch, u.hash, u.status, u.amount, u.finished) }

  function FactorStatus(s: Income.Status): (r: FactorFold.Status)
    ensures r == FactorFold.FinishedDone <==> s == Income.Done
    ensures r == FactorFold.BoughtOutStatus <==> s == Income.BoughtOut
  {
    match s
    case Done => FactorFold.FinishedDone
    case BoughtOut => FactorFold.BoughtOutStatus
    case Open => FactorFold.Leasing
    case _ => FactorFold.OtherStatus
  }

  function ForFactor(o: LeaseOrder): FactorFold.Order
  {
    FactorFold.Order(o.asset, o.hash, FactorStatus(o.status), o.orderType, o.rentDays, o.started, o.due, o.updatedAt,
      o.binding, o.applied)
  }

  function FactorReport(u: Report): FactorFold.OrderSync
  {
    FactorFold.OrderSync(u.asset, u.hash, FactorStatus(u.status), u.orderType, u.rentDays, u.started, u.due)
  }

  /** The income ledger's upsert is the part of this one that it reads. */
  lemma IncomeSeesTheUpsert(b: Income.Books, id: OrderId, was: Option<LeaseOrder>, o: LeaseOrder, u: Report, now: int)
    requires Fits(u) && Reported(o, u, now) && if was.Some? then Updated(was.value, o, u, now) else Created(o, u, now)
    requires if was.Some? then id in b.orders && b.orders[id] == ForIncome(was.value) else id !in b.orders
    ensures Income.UpsertOrder(b, id, IncomeReport(u), now) == Some(b.(orders := b.orders[id := ForIncome(o)]))
    ensures var v := ForIncome(o);
            && v.ch == o.ch && v.hash == o.hash && v.status == u.status && v.amount == NumCents(u.amount)
            && v.finishedAt == o.finished && v.updatedAt == now && v.recorded == o.recorded
  {
  }

  /** The factor fold's upsert and bind are, too: `o` is the synchronized order after taking its only candidate. */
  lemma FactorSeesTheUpsert(was: Option<LeaseOrder>, o: LeaseOrder, u: Report, now: int,
      candidates: seq<FactorFold.ListingId>)
    requires Reported(o, u, now) && if was.Some? then Updated(was.value, o, u, now) else Created(o, u, now)
    requires BoundAs(if was.Some? then UnboundIfMoved(was.value, u) else None, candidates, o)
    requires forall i, j | 0 <= i < j < |candidates| :: candidates[i] != candidates[j]
    ensures var synced := if was.Some? then FactorFold.Synced(ForFactor(was.value), FactorReport(u), now)
            else FactorFold.Inserted(FactorReport(u), now);
            ForFactor(o) == FactorFold.Bind(synced, set l | l in candidates)
    ensures var v := ForFactor(o);
            && v.asset == o.asset && v.hash == o.hash && v.orderType == u.orderType && v.rentDays == u.rentDays
            && v.started == o.started && v.due == o.due && v.updatedAt == now
            && v.binding == o.binding && v.applied == o.applied
  {
    var synced := if was.Some? then FactorFold.Synced(ForFactor(was.value), FactorReport(u), now)
      else FactorFold.Inserted(FactorReport(u), now);
    BindsOnlyCandidate(synced, candidates);
  }

  /** Binding to a set of candidates, when they are listed without repetition. */
  lemma BindsOnlyCandidate(o: FactorFold.Order, candidates: seq<FactorFold.ListingId>)
    requires forall i, j | 0 <= i < j < |candidates| :: candidates[i] != candidates[j]
    ensures FactorFold.Bind(o, set l | l in candidates) ==
            if !o.applied && o.binding == None && |candidates| == 1 then o.(binding := Some(candidates[0])) else o
  {
    var ls := set l | l in candidates;
    if |candidates| == 1 {
      assert ls == {candidates[0]};
      FactorFold.BindsTheOnlyOne(o, candidates[0]);
    } else {
      if |candidates| > 1 {
        assert {candidates[0], candidates[1]} <= ls;
        TwoAreMore(candidates[0], candidates[1], ls);
      } else {
        assert ls == {};
      }
      FactorFold.BindsNoneOfMany(o, ls);
    }
  }

  lemma TwoAreMore(a: FactorFold.ListingId, b: FactorFold.ListingId, s: set<FactorFold.ListingId>)
    requires a != b && {a, b} <= s
    ensures |s| >= 2
  {
    assert s == {a, b} + (s - {a, b});
  }

  /** Applied orders keep their binding through any report; so does every order whose identity the report repeats. */
  lemma BindingIsKept(was: LeaseOrder, o: LeaseOrder, u: Report, now: int, candidates: seq<FactorFold.ListingId>)
    requires Updated(was, o, u, now) && BoundAs(UnboundIfMoved(was, u), candidates, o)
    ensures was.applied || (was.binding.Some? && !Moves(was, u)) ==> o.binding == was.binding
    ensures !was.applied && Moves(was, u) && |candidates| != 1 ==> o.binding == None
    ensures Moves(was, u) <==> o.asset != was.asset || o.hash != was.hash || o.started != was.started
  {
  }
}
