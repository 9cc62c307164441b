/** Market quotes: merging ranked snapshot rows into quotes, and the baseline computed from them. */
module Quotes {
  import opened Domain
  import opened Money
  import opened Pricing
  import opened PricingMeaning

  /** The kinds the collector captures. */
  datatype Kind = LeaseShort | LeaseLong | DepositKind

  datatype QuoteRow = QuoteRow(rank: int, kind: Kind, price: Num)

  datatype Quote = Quote(short: Num, long: Num, deposit: Num)

  /** The query result before LIMIT: ordered by rank, one row per (rank, kind), ties in any order. */
  ghost predicate Ranked(rows: seq<QuoteRow>)
  {
    && (forall i, j | 0 <= i < j < |rows| :: rows[i].rank <= rows[j].rank)
    && (forall i, j | 0 <= i < j < |rows| :: (rows[i].rank, rows[i].kind) != (rows[j].rank, rows[j].kind))
  }

  // ---- merging ----

  /** Ranks in order of first appearance. */
  function Order(rows: seq<QuoteRow>): seq<int>
  {
    if rows == [] then []
    else
      var o := Order(rows[..|rows| - 1]);
      if rows[|rows| - 1].rank in o then o else o + [rows[|rows| - 1].rank]
  }

  /** The last price of a kind at a rank, 0 when absent. */
  function PriceAt(rows: seq<QuoteRow>, rank: int, kind: Kind): Num
  {
    if rows == [] then Fin(0.0)
    else
      var q := rows[|rows| - 1];
      if q.rank == rank && q.kind == kind then q.price else PriceAt(rows[..|rows| - 1], rank, kind)
  }

  function QuoteAt(rows: seq<QuoteRow>, rank: int): Quote
  {
    Quote(PriceAt(rows, rank, LeaseShort), PriceAt(rows, rank, LeaseLong), PriceAt(rows, rank, DepositKind))
  }

  function QuotesOf(rows: seq<QuoteRow>, ranks: seq<int>): (r: seq<Quote>)
    ensures |r| == |ranks| && forall i | 0 <= i < |r| :: r[i] == QuoteAt(rows, ranks[i])
  {
    seq(|ranks|, i requires 0 <= i < |ranks| => QuoteAt(rows, ranks[i]))
  }

  function Merge(rows: seq<QuoteRow>): seq<Quote> { QuotesOf(rows, Order(rows)) }

  /** The merge loop of RecentMergedQuotes: one map entry per rank, filled in row by row. */
  method MergeRows(rows: seq<QuoteRow>) returns (out: seq<Quote>)
    ensures out == Merge(rows)
  {
    var byRank: map<int, Quote> := map[];
    var order: seq<int> := [];
    for i := 0 to |rows|
      invariant order == Order(rows[..i])
      invariant forall j | 0 <= j < |order| :: order[j] in byRank
      invariant forall r | r in byRank :: r in order
      invariant forall r | r in byRank :: byRank[r] == QuoteAt(rows[..i], r)
    {
      var q := rows[i];
      assert rows[..i + 1][..i] == rows[..i];
      if q.rank !in byRank {
        AbsentRank(rows[..i], q.rank);
        byRank := byRank[q.rank := Quote(Fin(0.0), Fin(0.0), Fin(0.0))];
        order := order + [q.rank];
      }
      var m := byRank[q.rank];
      byRank := byRank[q.rank := match q.kind
                                 case LeaseShort => m.(short := q.price)
                                 case LeaseLong => m.(long := q.price)
                                 case DepositKind => m.(deposit := q.price)];
    }
    assert rows[..|rows|] == rows;
    out := [];
    for i := 0 to |order|
      invariant |out| == i && forall j | 0 <= j < i :: out[j] == QuoteAt(rows, order[j])
    {
      out := out + [byRank[order[i]]];
    }
  }

  lemma {:induction false} AbsentRank(rows: seq<QuoteRow>, rank: int)
    requires rank !in Order(rows)
    ensures QuoteAt(rows, rank) == Quote(Fin(0.0), Fin(0.0), Fin(0.0))
  {
    if rows != [] { AbsentRank(rows[..|rows| - 1], rank); }
  }

  // ---- the LIMIT loses nothing ----

  function Kinds(rows: seq<QuoteRow>, rank: int): set<Kind> { set q | q in rows && q.rank == rank :: q.kind }

  lemma AtMostThreeKinds(ks: set<Kind>)
    ensures |ks| <= 3
    ensures |ks| == 3 ==> forall k: Kind :: k in ks
  {
    var all := {LeaseShort, LeaseLong, DepositKind};
    forall k: Kind ensures k in all {
      match k
      case LeaseShort =>
      case LeaseLong =>
      case DepositKind =>
    }
    assert all == ks + (all - ks) && |all| == 3;
    if |ks| == 3 { assert all - ks == {}; }
  }

  lemma {:induction false} OrderMembers(rows: seq<QuoteRow>, rank: int)
    ensures rank in Order(rows) <==> exists i | 0 <= i < |rows| :: rows[i].rank == rank
  {
    if rows != [] {
      OrderMembers(rows[..|rows| - 1], rank);
    }
  }

  /** Ranked rows give strictly ascending ranks ending at the last row's rank. */
  lemma {:induction false} OrderAscends(rows: seq<QuoteRow>)
    requires Ranked(rows)
    ensures forall i, j | 0 <= i < j < |Order(rows)| :: Order(rows)[i] < Order(rows)[j]
    ensures rows != [] ==> Order(rows) != [] && Order(rows)[|Order(rows)| - 1] == rows[|rows| - 1].rank
  {
    if rows != [] {
      var pre, q := rows[..|rows| - 1], rows[|rows| - 1];
      OrderAscends(pre);
      OrderMembers(pre, q.rank);
      forall r | r in Order(pre) ensures r <= q.rank { OrderMembers(pre, r); }
    }
  }

  lemma KindsStep(pre: seq<QuoteRow>, q: QuoteRow)
    requires Ranked(pre + [q])
    ensures Ranked(pre) && |Kinds(pre + [q], q.rank)| == |Kinds(pre, q.rank)| + 1
  {
    var rows := pre + [q];
    assert forall i | 0 <= i < |pre| :: rows[i] == pre[i];
    assert forall x :: x in rows <==> x in pre || x == q;
    assert Kinds(rows, q.rank) == Kinds(pre, q.rank) + {q.kind};
    forall x | x in pre && x.rank == q.rank ensures x.kind != q.kind {
      var i :| 0 <= i < |pre| && pre[i] == x;
      assert rows[i] == x && rows[|pre|] == q;
    }
    assert q.kind !in Kinds(pre, q.rank);
  }

  lemma OrderStep(pre: seq<QuoteRow>, q: QuoteRow)
    ensures Order(pre + [q]) == if q.rank in Order(pre) then Order(pre) else Order(pre) + [q.rank]
  {
    assert (pre + [q])[..|pre|] == pre;
  }

  /** A rank seen before can only be the last one. */
  lemma SeenRankIsLast(pre: seq<QuoteRow>, q: QuoteRow)
    requires Ranked(pre + [q]) && q.rank in Order(pre)
    ensures pre != [] && q.rank == pre[|pre| - 1].rank
  {
    var rows := pre + [q];
    OrderMembers(pre, q.rank);
    var i :| 0 <= i < |pre| && pre[i].rank == q.rank;
    assert rows[i] == pre[i] && rows[|pre| - 1] == pre[|pre| - 1] && rows[|pre|] == q;
  }

  /** Each rank carries at most three rows. */
  lemma {:induction false} RowsPerRank(rows: seq<QuoteRow>)
    requires Ranked(rows) && rows != []
    ensures |rows| <= 3 * (|Order(rows)| - 1) + |Kinds(rows, rows[|rows| - 1].rank)|
  {
    var pre, q := rows[..|rows| - 1], rows[|rows| - 1];
    assert rows == pre + [q];
    KindsStep(pre, q);
    OrderStep(pre, q);
    if pre != [] {
      RowsPerRank(pre);
      AtMostThreeKinds(Kinds(pre, pre[|pre| - 1].rank));
      if q.rank in Order(pre) { SeenRankIsLast(pre, q); }
    }
  }

  lemma {:induction false} OrderGrows(rows: seq<QuoteRow>, n: nat)
    requires n <= |rows|
    ensures Order(rows[..n]) <= Order(rows)
  {
    if n < |rows| {
      OrderGrows(rows[..|rows| - 1], n);
      assert rows[..|rows| - 1][..n] == rows[..n];
    } else {
      assert rows[..n] == rows;
    }
  }

  /** Rows of other ranks do not change a quote. */
  lemma {:induction false} PriceStable(rows: seq<QuoteRow>, n: nat, rank: int, kind: Kind)
    requires n <= |rows| && forall i | n <= i < |rows| :: rows[i].rank != rank
    ensures PriceAt(rows, rank, kind) == PriceAt(rows[..n], rank, kind)
  {
    if n < |rows| {
      PriceStable(rows[..|rows| - 1], n, rank, kind);
      assert rows[..|rows| - 1][..n] == rows[..n];
    } else {
      assert rows[..n] == rows;
    }
  }

  lemma QuoteStable(rows: seq<QuoteRow>, n: nat, rank: int)
    requires n <= |rows| && forall i | n <= i < |rows| :: rows[i].rank != rank
    ensures QuoteAt(rows, rank) == QuoteAt(rows[..n], rank)
  {
    PriceStable(rows, n, rank, LeaseShort);
    PriceStable(rows, n, rank, LeaseLong);
    PriceStable(rows, n, rank, DepositKind);
  }

  lemma RankedPrefix(rows: seq<QuoteRow>, n: nat)
    requires Ranked(rows) && n <= |rows|
    ensures Ranked(rows[..n])
  {
  }

  /** A rank that already has all three kinds has no further row. */
  lemma FullRankEnds(rows: seq<QuoteRow>, n: nat, j: nat)
    requires Ranked(rows) && 0 < n <= j < |rows| && |Kinds(rows[..n], rows[n - 1].rank)| == 3
    ensures rows[n - 1].rank < rows[j].rank
  {
    AtMostThreeKinds(Kinds(rows[..n], rows[n - 1].rank));
    assert rows[j].kind in Kinds(rows[..n], rows[n - 1].rank);
    var q :| q in rows[..n] && q.rank == rows[n - 1].rank && q.kind == rows[j].kind;
    var k :| 0 <= k < n && rows[..n][k] == q;
    assert rows[k] == q;
  }

  /** The first N ranks of the first 3N rows are complete. */
  lemma FirstRanksComplete(rows: seq<QuoteRow>, topN: nat, i: nat, j: nat)
    requires Ranked(rows) && topN >= 1 && 3 * topN <= j < |rows| && i < topN
    ensures topN <= |Order(rows[..3 * topN])| && rows[j].rank != Order(rows[..3 * topN])[i]
  {
    var p := rows[..3 * topN];
    var last := p[|p| - 1];
    RankedPrefix(rows, 3 * topN);
    RowsPerRank(p);
    AtMostThreeKinds(Kinds(p, last.rank));
    OrderAscends(p);
    assert last == rows[3 * topN - 1] && last.rank <= rows[j].rank;
    if i == |Order(p)| - 1 { FullRankEnds(rows, 3 * topN, j); }
  }

  function Take<T>(s: seq<T>, n: nat): seq<T> { if |s| > n then s[..n] else s }

  lemma LimitKeepsTop(rows: seq<QuoteRow>, topN: nat)
    requires Ranked(rows) && topN >= 1
    ensures Take(Merge(Take(rows, 3 * topN)), topN) == Take(Merge(rows), topN)
  {
    if |rows| > 3 * topN {
      var p := rows[..3 * topN];
      FirstRanksComplete(rows, topN, 0, 3 * topN);
      OrderGrows(rows, 3 * topN);
      forall i | 0 <= i < topN ensures Merge(p)[i] == Merge(rows)[i] {
        forall j | 3 * topN <= j < |rows| ensures rows[j].rank != Order(p)[i] { FirstRanksComplete(rows, topN, i, j); }
        QuoteStable(rows, 3 * topN, Order(p)[i]);
      }
    }
  }

  // ---- row order ----

  lemma {:induction false} AscendingUnique(a: seq<int>, b: seq<int>)
    requires forall i, j | 0 <= i < j < |a| :: a[i] < a[j]
    requires forall i, j | 0 <= i < j < |b| :: b[i] < b[j]
    requires forall x :: x in a <==> x in b
    ensures a == b
  {
    assert (a != [] ==> a[0] in a) && (b != [] ==> b[0] in b);
    if a != [] && b != [] {
      var m, n := |a| - 1, |b| - 1;
      assert a[m] in b && b[n] in a;
      assert a[m] == b[n];
      forall x ensures x in a[..m] <==> x in b[..n] {
        if x in a[..m] {
          var i :| 0 <= i < m && a[i] == x;
          assert x in b;
        }
        if x in b[..n] {
          var i :| 0 <= i < n && b[i] == x;
          assert x in a;
        }
      }
      AscendingUnique(a[..m], b[..n]);
    }
  }

  lemma {:induction false} PriceOfRow(rows: seq<QuoteRow>, i: nat)
    requires Ranked(rows) && i < |rows|
    ensures PriceAt(rows, rows[i].rank, rows[i].kind) == rows[i].price
  {
    if i < |rows| - 1 {
      RankedPrefix(rows, |rows| - 1);
      PriceOfRow(rows[..|rows| - 1], i);
    }
  }

  lemma {:induction false} PriceOfNone(rows: seq<QuoteRow>, rank: int, kind: Kind)
    requires forall i | 0 <= i < |rows| :: (rows[i].rank, rows[i].kind) != (rank, kind)
    ensures PriceAt(rows, rank, kind) == Fin(0.0)
  {
    if rows != [] { PriceOfNone(rows[..|rows| - 1], rank, kind); }
  }

  lemma PriceOrderFree(rows: seq<QuoteRow>, rows': seq<QuoteRow>, rank: int, kind: Kind)
    requires Ranked(rows) && Ranked(rows') && forall q :: q in rows <==> q in rows'
    ensures PriceAt(rows, rank, kind) == PriceAt(rows', rank, kind)
  {
    if i :| 0 <= i < |rows| && (rows[i].rank, rows[i].kind) == (rank, kind) {
      assert rows[i] in rows';
      var j :| 0 <= j < |rows'| && rows'[j] == rows[i];
      PriceOfRow(rows, i);
      PriceOfRow(rows', j);
    } else {
      forall j | 0 <= j < |rows'| ensures (rows'[j].rank, rows'[j].kind) != (rank, kind) { assert rows'[j] in rows; }
      PriceOfNone(rows, rank, kind);
      PriceOfNone(rows', rank, kind);
    }
  }

  /** Rows of one rank may come back in any order. */
  lemma MergeOrderFree(rows: seq<QuoteRow>, rows': seq<QuoteRow>)
    requires Ranked(rows) && Ranked(rows') && forall q :: q in rows <==> q in rows'
    ensures Merge(rows) == Merge(rows')
  {
    OrderAscends(rows);
    OrderAscends(rows');
    forall r ensures r in Order(rows) <==> r in Order(rows') {
      OrderMembers(rows, r);
      OrderMembers(rows', r);
      if i :| 0 <= i < |rows| && rows[i].rank == r { assert rows[i] in rows'; }
      if i :| 0 <= i < |rows'| && rows'[i].rank == r { assert rows'[i] in rows; }
    }
    AscendingUnique(Order(rows), Order(rows'));
    forall r ensures QuoteAt(rows, r) == QuoteAt(rows', r) {
      PriceOrderFree(rows, rows', r, LeaseShort);
      PriceOrderFree(rows, rows', r, LeaseLong);
      PriceOrderFree(rows, rows', r, DepositKind);
    }
  }

  /** The price of the row of this rank and kind, and 0 when there is none. */
  ghost predicate Quoted(rows: seq<QuoteRow>, rank: int, kind: Kind, price: Num)
  {
    && (forall q | q in rows && q.rank == rank && q.kind == kind :: price == q.price)
    && ((forall q | q in rows :: q.rank != rank || q.kind != kind) ==> price == Fin(0.0))
  }

  lemma PriceIsQuoted(rows: seq<QuoteRow>, rank: int, kind: Kind)
    requires Ranked(rows)
    ensures Quoted(rows, rank, kind, PriceAt(rows, rank, kind))
  {
    if i :| 0 <= i < |rows| && (rows[i].rank, rows[i].kind) == (rank, kind) {
      PriceOfRow(rows, i);
      forall q | q in rows && q.rank == rank && q.kind == kind ensures q == rows[i] {
        var j :| 0 <= j < |rows| && rows[j] == q;
      }
    } else {
      PriceOfNone(rows, rank, kind);
    }
  }

  /**
   The merged quotes are those of the ranks that occur, in ascending order, each with the short price, long price
   and deposit captured at that rank.
   */
  lemma MergedInWords(rows: seq<QuoteRow>) returns (ranks: seq<int>)
    requires Ranked(rows)
    ensures |Merge(rows)| == |ranks| && forall i, j | 0 <= i < j < |ranks| :: ranks[i] < ranks[j]
    ensures forall r :: r in ranks <==> exists i | 0 <= i < |rows| :: rows[i].rank == r
    ensures forall i | 0 <= i < |ranks| ::
              && Quoted(rows, ranks[i], LeaseShort, Merge(rows)[i].short)
              && Quoted(rows, ranks[i], LeaseLong, Merge(rows)[i].long)
              && Quoted(rows, ranks[i], DepositKind, Merge(rows)[i].deposit)
  {
    ranks := Order(rows);
    OrderAscends(rows);
    forall r ensures r in ranks <==> exists i | 0 <= i < |rows| :: rows[i].rank == r { OrderMembers(rows, r); }
    forall i | 0 <= i < |ranks|
      ensures Quoted(rows, ranks[i], LeaseShort, Merge(rows)[i].short)
      ensures Quoted(rows, ranks[i], LeaseLong, Merge(rows)[i].long)
      ensures Quoted(rows, ranks[i], DepositKind, Merge(rows)[i].deposit)
    {
      PriceIsQuoted(rows, ranks[i], LeaseShort);
      PriceIsQuoted(rows, ranks[i], LeaseLong);
      PriceIsQuoted(rows, ranks[i], DepositKind);
    }
  }

  // ---- baseline ----

  predicate PosFinite(n: Num) { n.Fin? && n.r > 0.0 }

  /** Usable short prices among the first ten positions. */
  function Shorts(qs: seq<Quote>): seq<real>
  {
    if qs == [] then []
    else
      var n := |qs| - 1;
      Shorts(qs[..n]) + if PosFinite(qs[n].short) && n < 10 then [qs[n].short.r] else []
  }

  function Deposits(qs: seq<Quote>): seq<real>
  {
    if qs == [] then []
    else
      var n := |qs| - 1;
      Deposits(qs[..n]) + if PosFinite(qs[n].short) && n < 10 && PosFinite(qs[n].deposit) then [qs[n].deposit.r] else []
  }

  function Longs(qs: seq<Quote>): seq<real>
  {
    if qs == [] then []
    else
      var n := |qs| - 1;
      Longs(qs[..n]) + if PosFinite(qs[n].long) then [qs[n].long.r] else []
  }

  function Sum(v: seq<real>): real { if v == [] then 0.0 else Sum(v[..|v| - 1]) + v[|v| - 1] }

  function Mean(v: seq<real>): real { if v == [] then 0.0 else Sum(v) / |v| as real }

  function Least(v: seq<real>): real
    requires v != []
  {
    if |v| == 1 then v[0] else MinR(Least(v[..|v| - 1]), v[|v| - 1])
  }

  method MeanOf(v: seq<real>) returns (m: real)
    ensures m == Mean(v)
  {
    if |v| == 0 { return 0.0; }
    var s := 0.0;
    for i := 0 to |v|
      invariant s == Sum(v[..i])
    {
      assert v[..i + 1][..i] == v[..i];
      s := s + v[i];
    }
    assert v[..|v|] == v;
    m := s / |v| as real;
  }

  method LeastOf(v: seq<real>) returns (m: real)
    requires v != []
    ensures m == Least(v)
  {
    m := v[0];
    for i := 1 to |v|
      invariant m == Least(v[..i])
    {
      assert v[..i + 1][..i] == v[..i];
      if v[i] < m { m := v[i]; }
    }
    assert v[..|v|] == v;
  }

  function Window(qs: seq<Quote>, topN: int): seq<Quote> { Take(qs, if topN <= 0 then 15 else topN) }

  function ShortBase(qs: seq<Quote>, p: BaselineParams, v: real): real
    requires Shorts(qs) != []
  {
    var short := MaxR(Mean(Shorts(qs)) * p.k1, MaxR(Shorts(qs)[0], 0.01));
    if p.minLeaseRatio > 0.0 && v > 0.0 then MaxR(short, p.minLeaseRatio * v) else short
  }

  function LongBase(qs: seq<Quote>, p: BaselineParams, short: real): real
  {
    if Longs(qs) == [] then MaxR(short - 0.01, 0.01)
    else MaxR(MinR(short * 0.98, Mean(Longs(qs)) * p.k2), MaxR(Longs(qs)[0], 0.01))
  }

  function DepositBase(qs: seq<Quote>, p: BaselineParams): real
  {
    if Deposits(qs) == [] then 0.0 else MaxR(Mean(Deposits(qs)) * p.k3, Least(Deposits(qs)))
  }

  /** The baseline of the quotes within the window, in rounded money; None without a usable short price. */
  function BaselineOf(qs: seq<Quote>, p: BaselineParams, v: real): Option<Base>
  {
    var w := Window(qs, p.topN);
    if Shorts(w) == [] then None
    else
      var short := ShortBase(w, p, v);
      Some(Base(Fin(ToMoney(Cents(short))), Fin(ToMoney(Cents(MinR(LongBase(w, p, short), short)))),
        Fin(ToMoney(Cents(DepositBase(w, p))))))
  }

  method Baseline(quotes: seq<Quote>, p: BaselineParams, v: real) returns (base: Option<Base>)
    ensures base == BaselineOf(quotes, p, v)
  {
    var topn := if p.topN <= 0 then 15 else p.topN;
    var qs := if |quotes| > topn then quotes[..topn] else quotes;
    var shorts, longs, deps := Collect(qs);
    if |shorts| == 0 { return None; }
    var short := PriceShort(qs, p, v, shorts);
    var long := PriceLong(qs, p, short, longs);
    var dep := PriceDeposit(qs, p, deps);
    base := Some(Base(Fin(ToMoney(Cents(short))), Fin(ToMoney(Cents(MinR(long, short)))), Fin(ToMoney(Cents(dep)))));
  }

  method PriceShort(qs: seq<Quote>, p: BaselineParams, v: real, shorts: seq<real>) returns (short: real)
    requires shorts == Shorts(qs) != []
    ensures short == ShortBase(qs, p, v)
  {
    var mean := MeanOf(shorts);
    short := MaxR(mean * p.k1, MaxR(shorts[0], 0.01));
    if p.minLeaseRatio > 0.0 && v > 0.0 { short := MaxR(short, p.minLeaseRatio * v); }
  }

  method PriceLong(qs: seq<Quote>, p: BaselineParams, short: real, longs: seq<real>) returns (long: real)
    requires longs == Longs(qs)
    ensures long == LongBase(qs, p, short)
  {
    if |longs| == 0 { return MaxR(short - 0.01, 0.01); }
    var mean := MeanOf(longs);
    long := MaxR(MinR(short * 0.98, mean * p.k2), MaxR(longs[0], 0.01));
  }

  method PriceDeposit(qs: seq<Quote>, p: BaselineParams, deps: seq<real>) returns (dep: real)
    requires deps == Deposits(qs)
    ensures dep == DepositBase(qs, p)
  {
    if |deps| == 0 { return 0.0; }
    var mean := MeanOf(deps);
    var least := LeastOf(deps);
    dep := MaxR(mean * p.k3, least);
  }

  method Collect(qs: seq<Quote>) returns (shorts: seq<real>, longs: seq<real>, deps: seq<real>)
    ensures shorts == Shorts(qs) && longs == Longs(qs) && deps == Deposits(qs)
  {
    shorts, longs, deps := [], [], [];
    for i := 0 to |qs|
      invariant shorts == Shorts(qs[..i]) && longs == Longs(qs[..i]) && deps == Deposits(qs[..i])
    {
      var q := qs[i];
      assert qs[..i + 1][..i] == qs[..i];
      if PosFinite(q.short) && i < 10 {
        shorts := shorts + [q.short.r];
        if PosFinite(q.deposit) { deps := deps + [q.deposit.r]; }
      }
      if PosFinite(q.long) { longs := longs + [q.long.r]; }
    }
    assert qs[..|qs|] == qs;
  }

  // ---- main results ----

  /** LIMIT topN*3; a limit that is not positive returns no row (a negative one is a query error read as no quotes). */
  function Limited(rows: seq<QuoteRow>, topN: int): seq<QuoteRow> { if topN <= 0 then [] else Take(rows, 3 * topN) }

  /**
   The quote LIMIT loses nothing exactly when it is positive: for every market and every row
   order of the two queries, the baseline on the limited rows equals the baseline on all rows if
   and only if TopN is at least 1 or no position offers a usable short price.
   */
  lemma LimitLosesNothing(rows: seq<QuoteRow>, rows': seq<QuoteRow>, p: BaselineParams, v: real)
    requires Ranked(rows) && Ranked(rows') && forall q :: q in rows <==> q in rows'
    ensures BaselineOf(Merge(Limited(rows', p.topN)), p, v) == BaselineOf(Merge(rows), p, v)
      <==> p.topN >= 1 || Shorts(Window(Merge(rows), p.topN)) == []
  {
    MergeOrderFree(rows, rows');
    if p.topN >= 1 {
      LimitKeepsTop(rows', p.topN);
    } else {
      assert Merge([]) == [];
    }
  }

  predicate Usable(qs: seq<Quote>, i: nat)
    requires i < |qs|
  {
    i < 10 && PosFinite(qs[i].short)
  }

  lemma {:induction false} ShortsExist(qs: seq<Quote>)
    ensures Shorts(qs) != [] <==> exists i: nat | i < |qs| :: Usable(qs, i)
  {
    if qs != [] {
      var n := |qs| - 1;
      ShortsExist(qs[..n]);
      if i: nat :| i < |qs| && Usable(qs, i) {
        if i < n { assert Usable(qs[..n], i); }
      }
      if Shorts(qs[..n]) != [] {
        var i: nat :| i < n && Usable(qs[..n], i);
        assert Usable(qs, i);
      } else if Shorts(qs) != [] {
        assert Usable(qs, n);
      }
    }
  }

  /**
   There is a baseline exactly when one of the first ten positions of the window offers a usable short price.
   Its deposit is not negative. It prices the long lease between a cent and the short lease, and the short
   lease at no less than the first usable offer, if and only if the short price is in Round2's range.
   */
  lemma BaselineBounds(qs: seq<Quote>, p: BaselineParams, v: real)
    ensures var w := Window(qs, p.topN);
            && (BaselineOf(qs, p, v).Some? <==> exists i: nat | i < |w| :: Usable(w, i))
            && (BaselineOf(qs, p, v).Some? ==>
                  var short, long := ShortBase(w, p, v), LongBase(w, p, ShortBase(w, p, v));
                  && 0 <= Cents(DepositBase(w, p))
                  && (1 <= Cents(MinR(long, short)) <= Cents(short) && Cents(Shorts(w)[0]) <= Cents(short) <==>
                    InRange(short)))
  {
    var w := Window(qs, p.topN);
    ShortsExist(w);
    DepositIsPositive(w, p);
    if Shorts(w) != [] && InRange(ShortBase(w, p, v)) {
      var short := ShortBase(w, p, v);
      var long := MinR(LongBase(w, p, short), short);
      ShortsPositive(w);
      assert Shorts(w)[0] in Shorts(w) && Shorts(w)[0] <= short && 0.01 <= long <= short;
      CentsMonotone(long, short);
      CentsMonotone(0.01, long);
      CentsMonotone(Shorts(w)[0], short);
    }
  }

  // ---- the baseline in words ----

  /** A short price counts at the first ten positions when it is positive and finite, and the deposit beside it, too. */
  function CountedShort(q: Quote, i: nat): Option<real>
  {
    if i < 10 && q.short.Fin? && 0.0 < q.short.r then Some(q.short.r) else None
  }

  function CountedDeposit(q: Quote, i: nat): Option<real>
  {
    if CountedShort(q, i).Some? && q.deposit.Fin? && 0.0 < q.deposit.r then Some(q.deposit.r) else None
  }

  /** A long price counts at any position. */
  function CountedLong(q: Quote): Option<real> { if q.long.Fin? && 0.0 < q.long.r then Some(q.long.r) else None }

  /** The numbers that are there, in order. */
  function Present(s: seq<Option<real>>): seq<real>
  {
    if s == [] then []
    else Present(s[..|s| - 1]) + match s[|s| - 1] case Some(x) => [x] case None => []
  }

  lemma {:induction false} SamplesInWords(qs: seq<Quote>)
    ensures Shorts(qs) == Present(seq(|qs|, i requires 0 <= i < |qs| => CountedShort(qs[i], i)))
    ensures Deposits(qs) == Present(seq(|qs|, i requires 0 <= i < |qs| => CountedDeposit(qs[i], i)))
    ensures Longs(qs) == Present(seq(|qs|, i requires 0 <= i < |qs| => CountedLong(qs[i])))
  {
    if qs != [] {
      var n := |qs| - 1;
      SamplesInWords(qs[..n]);
      assert seq(|qs|, i requires 0 <= i < |qs| => CountedShort(qs[i], i))[..n] ==
        seq(n, i requires 0 <= i < n => CountedShort(qs[..n][i], i));
      assert seq(|qs|, i requires 0 <= i < |qs| => CountedDeposit(qs[i], i))[..n] ==
        seq(n, i requires 0 <= i < n => CountedDeposit(qs[..n][i], i));
      assert seq(|qs|, i requires 0 <= i < |qs| => CountedLong(qs[i]))[..n] ==
        seq(n, i requires 0 <= i < n => CountedLong(qs[..n][i]));
    }
  }

  /** What a mean is: as many times itself as there are numbers is their sum, and sums add up. */
  lemma {:induction false} MeanInWords(a: seq<real>, b: seq<real>)
    ensures a != [] ==> Mean(a) * |a| as real == Sum(a)
    ensures Sum(a + b) == Sum(a) + Sum(b) && (|a| == 1 ==> Sum(a) == a[0])
  {
    if a != [] { assert Sum(a) / |a| as real * |a| as real == Sum(a); }
    if b == [] {
      assert a + b == a;
    } else {
      MeanInWords(a, b[..|b| - 1]);
      assert (a + b)[..|a + b| - 1] == a + b[..|b| - 1];
    }
    if |a| == 1 { assert a[..0] == []; }
  }

  /** The short price before rounding. */
  ghost predicate ShortFor(w: seq<Quote>, p: BaselineParams, v: real, short: real)
    requires Shorts(w) != []
  {
    Greatest(short, [Mean(Shorts(w)) * p.k1, Shorts(w)[0], 0.01] +
                    if p.minLeaseRatio > 0.0 && v > 0.0 then [p.minLeaseRatio * v] else [])
  }

  /** The long price before it is capped by the short one and rounded. */
  ghost predicate LongFor(w: seq<Quote>, p: BaselineParams, short: real, long: real)
  {
    if Longs(w) == [] then Greatest(long, [short - 0.01, 0.01])
    else Greatest(long, [MinR(short * 0.98, Mean(Longs(w)) * p.k2), Longs(w)[0], 0.01])
  }

  ghost predicate DepositFor(w: seq<Quote>, p: BaselineParams, deposit: real)
  {
    if Deposits(w) == [] then deposit == 0.0
    else Greatest(deposit, [Mean(Deposits(w)) * p.k3, Least(Deposits(w))])
  }

  /**
   The baseline in words: of the first topN quotes, 15 if that is not positive, the discounted mean of the usable
   short prices, of the long ones and of the deposits, each with its own coefficient and lower bounds.
   */
  lemma BaselineInWords(qs: seq<Quote>, p: BaselineParams, v: real) returns (short: real, long: real, deposit: real)
    ensures var n := if p.topN > 0 then p.topN else 15;
            var w := if n < |qs| then qs[..n] else qs;
            && (BaselineOf(qs, p, v) == None <==> Shorts(w) == [])
            && (Shorts(w) != [] ==>
                  && ShortFor(w, p, v, short) && LongFor(w, p, short, long) && DepositFor(w, p, deposit)
                  && BaselineOf(qs, p, v) == Some(Base(
                       Fin(ToMoney(Cents(short))), Fin(ToMoney(Cents(if long < short then long else short))),
                       Fin(ToMoney(Cents(deposit))))))
  {
    var w := Window(qs, p.topN);
    short, long, deposit := 0.0, 0.0, 0.0;
    if Shorts(w) != [] {
      short := ShortBase(w, p, v);
      long, deposit := LongBase(w, p, short), DepositBase(w, p);
      ShortInWords(w, p, v);
      LongInWords(w, p, short);
      DepositInWords(w, p);
    }
  }

  lemma ShortInWords(w: seq<Quote>, p: BaselineParams, v: real)
    requires Shorts(w) != []
    ensures ShortFor(w, p, v, ShortBase(w, p, v))
  {
    LowerBounds(Mean(Shorts(w)) * p.k1, Shorts(w)[0], p.minLeaseRatio > 0.0 && v > 0.0, p.minLeaseRatio * v);
  }

  lemma LowerBounds(x: real, y: real, more: bool, z: real)
    ensures var m := MaxR(x, MaxR(y, 0.01));
            Greatest(if more then MaxR(m, z) else m, [x, y, 0.01] + if more then [z] else [])
  {
    GreatestOfThree(x, y, 0.01);
    if more {
      OneMoreBound(MaxR(x, MaxR(y, 0.01)), [x, y, 0.01], z);
    } else {
      assert [x, y, 0.01] + [] == [x, y, 0.01];
    }
  }

  lemma GreatestOfThree(x: real, y: real, z: real)
    ensures Greatest(MaxR(x, MaxR(y, z)), [x, y, z])
  {
  }

  lemma OneMoreBound(x: real, s: seq<real>, y: real)
    requires Greatest(x, s)
    ensures Greatest(MaxR(x, y), s + [y])
  {
  }

  lemma LongInWords(w: seq<Quote>, p: BaselineParams, short: real)
    ensures LongFor(w, p, short, LongBase(w, p, short))
  {
    if Longs(w) == [] {
      GreaterOfTwo(short - 0.01, 0.01);
    } else {
      GreatestOfThree(MinR(short * 0.98, Mean(Longs(w)) * p.k2), Longs(w)[0], 0.01);
    }
  }

  lemma DepositInWords(w: seq<Quote>, p: BaselineParams)
    ensures DepositFor(w, p, DepositBase(w, p))
  {
    if Deposits(w) != [] {
      GreaterOfTwo(Mean(Deposits(w)) * p.k3, Least(Deposits(w)));
    }
  }

  lemma {:induction false} DepositsPositive(qs: seq<Quote>)
    ensures forall x | x in Deposits(qs) :: x > 0.0
  {
    if qs != [] { DepositsPositive(qs[..|qs| - 1]); }
  }

  lemma {:induction false} LeastIsMember(v: seq<real>)
    requires v != []
    ensures Least(v) in v && forall x | x in v :: Least(v) <= x
  {
    if |v| > 1 {
      LeastIsMember(v[..|v| - 1]);
      assert v == v[..|v| - 1] + [v[|v| - 1]];
    }
  }

  lemma DepositIsPositive(qs: seq<Quote>, p: BaselineParams)
    ensures 0 <= Cents(DepositBase(qs, p))
  {
    if Deposits(qs) != [] {
      DepositsPositive(qs);
      LeastIsMember(Deposits(qs));
      HalfAwayMonotone(0.0, DepositBase(qs, p) * 100.0);
    }
  }

  lemma {:induction false} ShortsPositive(qs: seq<Quote>)
    ensures forall x | x in Shorts(qs) :: x > 0.0
  {
    if qs != [] { ShortsPositive(qs[..|qs| - 1]); }
  }
}
