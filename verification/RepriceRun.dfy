/**
 The repricing pass: one channel's candidates are decided, recorded, sent and written back one by
 one, under a risk-control cooldown shared with every other pass.

 The outside world's part in a candidate (clock readings, platform reply, whether each database
 write succeeds) is an arbitrary input.
 */
module RepriceRun {
  import opened Domain
  import opened Listings
  import opened Pricing
  import opened Reprice

  datatype Fault = RateLimited | PlatformBlocked | UkExpired | AuthExpired | OtherFault

  /** riskCooldown, in seconds. */
  function CooldownSeconds(f: Fault): nat
  {
    match f
    case RateLimited => 300
    case PlatformBlocked => 900
    case UkExpired => 120
    case AuthExpired => 1800
    case OtherFault => 0
  }

  type Cooldowns = map<Channel, int>

  /** channelReady */
  predicate Ready(until: Cooldowns, ch: Channel, now: int) { ch !in until || now > until[ch] }

  /** penalize: a deadline is only ever moved later. */
  function Penalized(until: Cooldowns, ch: Channel, f: Fault, now: int): Cooldowns
  {
    var deadline := now + CooldownSeconds(f);
    if CooldownSeconds(f) == 0 then until
    else if ch in until && deadline <= until[ch] then until
    else until[ch := deadline]
  }

  /** A listing with its strategy: no input means that the strategy could not be read or parsed. */
  datatype Candidate = Candidate(key: Key, input: Option<Input>, globalLive: bool, templateLive: bool,
    subletApplied: bool)

  datatype Reply = Failed(fault: Fault) | Items(ok: seq<bool>)

  datatype World = World(ready: int, sendAt: int, failedAt: int, reply: Reply, logged: bool, stored: bool,
    storedAt: int, marked: bool)

  /** A recorded price action; a skip carries no new terms. */
  datatype PriceAction = PriceAction(key: Key, terms: Option<Terms>, dryRun: bool, success: bool)

  /** A platform call, with the error it drew and when that was noted. */
  datatype Call = Call(key: Key, ch: Channel, terms: Terms, at: int, fault: Fault, failedAt: int)

  /** A pass in progress; strategy errors and per-listing operation errors are collected apart. */
  datatype Pass = Pass(
    table: Table, sublet: set<Key>, until: Cooldowns, actions: seq<PriceAction>, calls: seq<Call>,
    stratErrs: seq<Fault>, opErrs: seq<Fault>, stopped: bool)

  /** joinChannelErrs: strategy errors first. */
  function AllErrors(p: Pass): seq<Fault> { p.stratErrs + p.opErrs }

  predicate DryRun(dryRun: bool, x: Candidate) { dryRun || !x.globalLive || !x.templateLive }

  /** An ECO listing without an accepted sublet policy is sent even at an unchanged price. */
  predicate Forced(x: Candidate) { x.key.ch == ECO && !x.subletApplied }

  function Question(x: Candidate): Input
    requires x.input.Some?
  {
    x.input.value.(ignoreNoise := Forced(x))
  }

  function Fail(p: Pass, f: Fault): Pass { p.(opErrs := p.opErrs + [f]) }

  function Log(p: Pass, a: PriceAction, ok: bool): Pass
  {
    if ok then p.(actions := p.actions + [a]) else Fail(p, OtherFault)
  }

  function Store(p: Pass, k: Key, forced: bool, t: Terms, w: World): Pass
  {
    var q := if w.stored then p.(table := UpdateDecision(p.table, k, t, w.storedAt)) else Fail(p, OtherFault);
    if !forced then q else if w.marked then q.(sublet := q.sublet + {k}) else Fail(q, OtherFault)
  }

  function FaultOf(reply: Reply): Fault { if reply.Failed? then reply.fault else OtherFault }

  function SentCall(ch: Channel, k: Key, t: Terms, w: World): Call
  {
    Call(k, ch, t, w.sendAt, FaultOf(w.reply), w.failedAt)
  }

  function Send(p: Pass, ch: Channel, k: Key, forced: bool, t: Terms, w: World): Pass
  {
    var ok, fault := w.reply == Items([true]), FaultOf(w.reply);
    var q := p.(calls := p.calls + [SentCall(ch, k, t, w)], until := Penalized(p.until, ch, fault, w.failedAt));
    var r := Log(q, PriceAction(k, Some(t), false, ok), w.logged);
    if ok then Store(r, k, forced, t, w) else Fail(r, fault)
  }

  /** What becomes of a decision. */
  function Carried(p: Pass, ch: Channel, k: Key, forced: bool, dry: bool, d: Decision, w: World): Pass
  {
    if d.Skip? then Log(p, PriceAction(k, None, dry, true), w.logged)
    else if dry then Log(p, PriceAction(k, Some(d.terms), true, true), w.logged)
    else if !Ready(p.until, ch, w.sendAt) then p.(stopped := true)
    else Send(p, ch, k, forced, d.terms, w)
  }

  /** One candidate of repriceChannel's loop; a channel that is cooling down ends the pass. */
  function Visit(dryRun: bool, p: Pass, ch: Channel, x: Candidate, w: World): Pass
  {
    if p.stopped then p
    else if !Ready(p.until, ch, w.ready) then p.(stopped := true)
    else if x.input == None then p.(stratErrs := p.stratErrs + [OtherFault])
    else Carried(p, ch, x.key, Forced(x), DryRun(dryRun, x), Decide(Question(x)), w)
  }

  function Visits(dryRun: bool, p: Pass, ch: Channel, xs: seq<Candidate>, ws: seq<World>): Pass
    requires |ws| == |xs|
  {
    if xs == [] then p
    else
      var n := |xs| - 1;
      Visit(dryRun, Visits(dryRun, p, ch, xs[..n], ws[..n]), ch, xs[n], ws[n])
  }

  /**
   One channel's turn of a run: whether its candidates could be read, the candidates with the world's
   part in each, and when a failed pass is noted.
   */
  datatype Turn = Turn(ch: Channel, loaded: bool, xs: seq<Candidate>, ws: seq<World>, failedAt: int)

  ghost predicate WellFormed(t: Turn) { |t.ws| == |t.xs| }

  /** repriceChannel: a candidate query that fails is the pass's only error. */
  function ChannelPass(dryRun: bool, p: Pass, t: Turn): Pass
    requires WellFormed(t)
  {
    if !t.loaded then Fail(p, OtherFault) else Visits(dryRun, p, t.ch, t.xs, t.ws)
  }

  /** A pass starts with nothing recorded and no error. */
  function Begin(table: Table, sublet: set<Key>, until: Cooldowns): Pass
  {
    Pass(table, sublet, until, [], [], [], [], false)
  }

  /** riskCooldown of the joined error of a pass: the kinds are looked for in a fixed order. */
  function Joined(errors: seq<Fault>): Fault
  {
    if RateLimited in errors then RateLimited
    else if PlatformBlocked in errors then PlatformBlocked
    else if UkExpired in errors then UkExpired
    else if AuthExpired in errors then AuthExpired
    else OtherFault
  }

  class Repricer {
    const dryRun: bool
    var table: Table
    var sublet: set<Key>
    var until: Cooldowns

    constructor (dryRun: bool, table: Table, sublet: set<Key>)
      ensures this.dryRun == dryRun && this.table == table && this.sublet == sublet && until == map[]
    {
      this.dryRun, this.table, this.sublet, until := dryRun, table, sublet, map[];
    }

    /** Other channels are untouched, no deadline moves earlier, and a risk signal is served from now on. */
    method Penalize(ch: Channel, f: Fault, now: int)
      modifies this`until
      ensures forall c | c in old(until) :: c in until && old(until)[c] <= until[c]
      ensures forall c | c != ch :: (c in until <==> c in old(until)) && (c in until ==> until[c] == old(until)[c])
      ensures CooldownSeconds(f) == 0 ==> until == old(until)
      ensures CooldownSeconds(f) > 0 ==>
                && ch in until && now + CooldownSeconds(f) <= until[ch]
                && (until[ch] == now + CooldownSeconds(f) || (ch in old(until) && until[ch] == old(until)[ch]))
      ensures until == Penalized(old(until), ch, f, now)
    {
      var cooldown := CooldownSeconds(f);
      if cooldown == 0 { return; }
      var deadline := now + cooldown;
      if ch !in until || deadline > until[ch] { until := until[ch := deadline]; }
    }

    method RepriceChannel(t: Turn) returns (actions: seq<PriceAction>, calls: seq<Call>, errors: seq<Fault>)
      requires WellFormed(t)
      modifies this
      ensures var end := ChannelPass(dryRun, Begin(old(table), old(sublet), old(until)), t);
              && table == end.table && sublet == end.sublet && until == end.until
              && actions == end.actions && calls == end.calls && errors == end.stratErrs + end.opErrs
    {
      actions, calls, errors := [], [], [];
      if !t.loaded {
        errors := [OtherFault];
        return;
      }
      var ch, xs, ws := t.ch, t.xs, t.ws;
      var stratErrs: seq<Fault>, opErrs: seq<Fault> := [], [];
      ghost var start := Begin(table, sublet, until);
      for i := 0 to |xs|
        invariant Visits(dryRun, start, ch, xs[..i], ws[..i]) ==
                  Pass(table, sublet, until, actions, calls, stratErrs, opErrs, false)
      {
        ghost var p := Visits(dryRun, start, ch, xs[..i], ws[..i]);
        VisitsOneMore(dryRun, start, ch, xs, ws, i);
        var stopped, a, c, se, oe := VisitOne(p, ch, xs[i], ws[i]);
        actions, calls, stratErrs, opErrs := actions + a, calls + c, stratErrs + se, opErrs + oe;
        if stopped {
          StoppedStays(dryRun, start, ch, xs, ws, i + 1);
          errors := stratErrs + opErrs;
          return;
        }
      }
      assert xs[..|xs|] == xs && ws[..|ws|] == ws;
      errors := stratErrs + opErrs;
    }

    /** One turn of the loop, and whether it ends the pass. */
    method VisitOne(ghost p: Pass, ch: Channel, x: Candidate, w: World)
      returns (stopped: bool, actions: seq<PriceAction>, calls: seq<Call>, stratErrs: seq<Fault>, opErrs: seq<Fault>)
      requires !p.stopped && p.table == table && p.sublet == sublet && p.until == until
      modifies this
      ensures Visit(dryRun, p, ch, x, w) ==
        Pass(table, sublet, until, p.actions + actions, p.calls + calls, p.stratErrs + stratErrs,
          p.opErrs + opErrs, stopped)
    {
      stopped, actions, calls, stratErrs, opErrs := false, [], [], [], [];
      if !Ready(until, ch, w.ready) {
        stopped := true;
        return;
      }
      if x.input == None {
        stratErrs := [OtherFault];
        return;
      }
      stopped, actions, calls, opErrs := Carry(p, ch, x.key, Forced(x), DryRun(dryRun, x), Decide(Question(x)), w);
    }

    /** The part of the loop after a decision was made. */
    method Carry(ghost p: Pass, ch: Channel, k: Key, forced: bool, dry: bool, d: Decision, w: World)
      returns (stopped: bool, actions: seq<PriceAction>, calls: seq<Call>, errors: seq<Fault>)
      requires !p.stopped && p.table == table && p.sublet == sublet && p.until == until
      modifies this
      ensures Carried(p, ch, k, forced, dry, d, w) ==
        Pass(table, sublet, until, p.actions + actions, p.calls + calls, p.stratErrs, p.opErrs + errors, stopped)
    {
      stopped, actions, calls, errors := false, [], [], [];
      if d.Skip? {
        if w.logged { actions := [PriceAction(k, None, dry, true)]; } else { errors := [OtherFault]; }
        return;
      }
      if dry {
        if w.logged { actions := [PriceAction(k, Some(d.terms), true, true)]; } else { errors := [OtherFault]; }
        return;
      }
      if !Ready(until, ch, w.sendAt) {
        stopped := true;
        return;
      }
      var call;
      call, actions, errors := SendOne(p, ch, k, forced, d.terms, w);
      calls := [call];
    }

    /** The live branch: call, penalize, record, write back. */
    method SendOne(ghost p: Pass, ch: Channel, k: Key, forced: bool, t: Terms, w: World)
      returns (call: Call, actions: seq<PriceAction>, errors: seq<Fault>)
      requires p.table == table && p.sublet == sublet && p.until == until
      modifies this
      ensures Send(p, ch, k, forced, t, w) ==
        Pass(table, sublet, until, p.actions + actions, p.calls + [call], p.stratErrs, p.opErrs + errors, p.stopped)
    {
      actions, errors := [], [];
      var ok := w.reply == Items([true]);
      call := SentCall(ch, k, t, w);
      Penalize(ch, FaultOf(w.reply), w.failedAt);
      var a := PriceAction(k, Some(t), false, ok);
      if w.logged { actions := [a]; } else { errors := [OtherFault]; }
      ghost var logged := Log(p.(until := until, calls := p.calls + [call]), a, w.logged);
      assert logged.actions == p.actions + actions && logged.opErrs == p.opErrs + errors;
      if !ok {
        errors := errors + [FaultOf(w.reply)];
        return;
      }
      var more := StoreOne(logged, k, forced, t, w);
      errors := errors + more;
    }

    method StoreOne(ghost p: Pass, k: Key, forced: bool, t: Terms, w: World) returns (errors: seq<Fault>)
      requires p.table == table && p.sublet == sublet
      modifies this`table, this`sublet
      ensures Store(p, k, forced, t, w) == p.(table := table, sublet := sublet, opErrs := p.opErrs + errors)
    {
      errors := [];
      if w.stored { table := UpdateDecision(table, k, t, w.storedAt); } else { errors := [OtherFault]; }
      if forced {
        if w.marked { sublet := sublet + {k}; } else { errors := errors + [OtherFault]; }
      }
    }

    /** RunReprice: channels still cooling down are left out, and a failed pass is penalized by its joined error. */
    method RunReprice(turns: seq<Turn>, now: int) returns (failed: seq<Channel>)
      requires forall t | t in turns :: WellFormed(t)
      modifies this
      ensures var end := RunOf(dryRun, turns, now, Begin(old(table), old(sublet), old(until)));
              table == end.0.table && sublet == end.0.sublet && until == end.0.until && failed == end.1
    {
      failed := [];
      ghost var start := Begin(table, sublet, until);
      for i := 0 to |turns|
        invariant var end := RunOf(dryRun, turns[..i], now, start);
                  table == end.0.table && sublet == end.0.sublet && until == end.0.until && failed == end.1
      {
        var t := turns[i];
        assert turns[..i + 1][..i] == turns[..i];
        if Ready(until, t.ch, now) {
          var _, _, errors := RepriceChannel(t);
          if errors != [] {
            Penalize(t.ch, Joined(errors), t.failedAt);
            failed := failed + [t.ch];
          }
        }
      }
      assert turns[..|turns|] == turns;
    }
  }

  /** One channel of a run: its pass from the tables as they stand, and whether it failed. */
  function RunOne(dryRun: bool, t: Turn, now: int, p: Pass): (Pass, seq<Channel>)
    requires WellFormed(t)
  {
    if !Ready(p.until, t.ch, now) then (p, [])
    else
      var q := ChannelPass(dryRun, Begin(p.table, p.sublet, p.until), t);
      var errors := AllErrors(q);
      if errors == [] then (q, []) else (q.(until := Penalized(q.until, t.ch, Joined(errors), t.failedAt)), [t.ch])
  }

  function RunOf(dryRun: bool, turns: seq<Turn>, now: int, p: Pass): (Pass, seq<Channel>)
    requires forall t | t in turns :: WellFormed(t)
  {
    if turns == [] then (p, [])
    else
      var n := |turns| - 1;
      var (q, failed) := RunOf(dryRun, turns[..n], now, p);
      var (r, more) := RunOne(dryRun, turns[n], now, q);
      (r, failed + more)
  }

  lemma VisitsOneMore(dryRun: bool, p: Pass, ch: Channel, xs: seq<Candidate>, ws: seq<World>, i: nat)
    requires |ws| == |xs| && i < |xs|
    ensures Visits(dryRun, p, ch, xs[..i + 1], ws[..i + 1]) ==
            Visit(dryRun, Visits(dryRun, p, ch, xs[..i], ws[..i]), ch, xs[i], ws[i])
  {
    assert xs[..i + 1][..i] == xs[..i] && ws[..i + 1][..i] == ws[..i];
  }

  lemma {:induction false} StoppedStays(dryRun: bool, p: Pass, ch: Channel, xs: seq<Candidate>, ws: seq<World>, n: nat)
    requires |ws| == |xs| && n <= |xs| && Visits(dryRun, p, ch, xs[..n], ws[..n]).stopped
    ensures Visits(dryRun, p, ch, xs, ws) == Visits(dryRun, p, ch, xs[..n], ws[..n])
    decreases |xs| - n
  {
    if n < |xs| {
      assert xs[..n + 1][..n] == xs[..n] && ws[..n + 1][..n] == ws[..n];
      StoppedStays(dryRun, p, ch, xs, ws, n + 1);
    } else {
      assert xs[..n] == xs && ws[..n] == ws;
    }
  }

  // ---- cooldown discipline over many passes ----

  /** A long run: candidates of any channel visited in any order, passes begun again and again. */
  datatype Event =
    | Visited(dryRun: bool, ch: Channel, x: Candidate, w: World)
    | NewPass
    | Noted(ch: Channel, fault: Fault, at: int)

  function After(p: Pass, e: Event): Pass
  {
    match e
    case Visited(dryRun, ch, x, w) => Visit(dryRun, p, ch, x, w)
    case NewPass => p.(stopped := false, actions := [], stratErrs := [], opErrs := [])
    case Noted(ch, fault, at) => p.(until := Penalized(p.until, ch, fault, at))
  }

  function History(p: Pass, es: seq<Event>): Pass
  {
    if es == [] then p else After(History(p, es[..|es| - 1]), es[|es| - 1])
  }

  /** Every risk signal so far is covered by its channel's cooldown. */
  ghost predicate Covered(p: Pass)
  {
    forall c | c in p.calls && CooldownSeconds(c.fault) > 0 ::
      c.ch in p.until && c.failedAt + CooldownSeconds(c.fault) <= p.until[c.ch]
  }

  /** No call goes out before the cooldowns that earlier risk signals of its channel asked for are over. */
  ghost predicate ServedCooldowns(calls: seq<Call>)
  {
    forall i, j | 0 <= i < j < |calls| && calls[i].ch == calls[j].ch && CooldownSeconds(calls[i].fault) > 0 ::
      calls[j].at > calls[i].failedAt + CooldownSeconds(calls[i].fault)
  }

  lemma PenaltyOnlyGrows(until: Cooldowns, ch: Channel, f: Fault, now: int)
    ensures var u := Penalized(until, ch, f, now);
            (forall c | c in until :: c in u && until[c] <= u[c]) &&
              (CooldownSeconds(f) > 0 ==> ch in u && now + CooldownSeconds(f) <= u[ch])
  {
  }

  /** One call, which was sent when its channel was ready and whose risk signal is noted at once. */
  ghost predicate Calls(p: Pass, q: Pass, ch: Channel, k: Key, t: Terms, w: World)
  {
    && Ready(p.until, ch, w.sendAt)
    && q.calls == p.calls + [SentCall(ch, k, t, w)]
    && q.until == Penalized(p.until, ch, FaultOf(w.reply), w.failedAt)
  }

  lemma SendCalls(p: Pass, ch: Channel, k: Key, forced: bool, t: Terms, w: World)
    requires Ready(p.until, ch, w.sendAt)
    ensures Calls(p, Send(p, ch, k, forced, t, w), ch, k, t, w)
  {
  }

  lemma CarriedCalls(p: Pass, ch: Channel, k: Key, forced: bool, dry: bool, d: Decision, w: World)
    ensures var q := Carried(p, ch, k, forced, dry, d, w);
            (q.calls == p.calls && q.until == p.until) || (d.Accept? && Calls(p, q, ch, k, d.terms, w))
  {
    if d.Accept? && Ready(p.until, ch, w.sendAt) { SendCalls(p, ch, k, forced, d.terms, w); }
  }

  lemma VisitCalls(dryRun: bool, p: Pass, ch: Channel, x: Candidate, w: World)
    ensures var q := Visit(dryRun, p, ch, x, w);
            || (q.calls == p.calls && q.until == p.until)
            || (x.input.Some? && Decide(Question(x)).Accept? && Calls(p, q, ch, x.key, Decide(Question(x)).terms, w))
  {
    if x.input.Some? { CarriedCalls(p, ch, x.key, Forced(x), DryRun(dryRun, x), Decide(Question(x)), w); }
  }

  lemma CallKeepsDiscipline(p: Pass, q: Pass, ch: Channel, k: Key, t: Terms, w: World)
    requires Covered(p) && ServedCooldowns(p.calls) && Calls(p, q, ch, k, t, w)
    ensures Covered(q) && ServedCooldowns(q.calls)
  {
    var f := FaultOf(w.reply);
    PenaltyOnlyGrows(p.until, ch, f, w.failedAt);
  }

  lemma EventKeepsDiscipline(p: Pass, e: Event)
    requires Covered(p) && ServedCooldowns(p.calls)
    ensures Covered(After(p, e)) && ServedCooldowns(After(p, e).calls)
  {
    match e
    case NewPass =>
    case Noted(ch, fault, at) => PenaltyOnlyGrows(p.until, ch, fault, at);
    case Visited(dryRun, ch, x, w) =>
      VisitCalls(dryRun, p, ch, x, w);
      var q := Visit(dryRun, p, ch, x, w);
      if q.calls != p.calls || q.until != p.until {
        CallKeepsDiscipline(p, q, ch, x.key, Decide(Question(x)).terms, w);
      }
  }

  lemma {:induction false} HistoryKeepsDiscipline(t: Table, sublet: set<Key>, until: Cooldowns, es: seq<Event>)
    ensures Covered(History(Begin(t, sublet, until), es)) && ServedCooldowns(History(Begin(t, sublet, until), es).calls)
  {
    if es != [] {
      HistoryKeepsDiscipline(t, sublet, until, es[..|es| - 1]);
      EventKeepsDiscipline(History(Begin(t, sublet, until), es[..|es| - 1]), es[|es| - 1]);
    }
  }

  /**
   Over every run: after a rate limit no call reaches its channel for five minutes, after a block for fifteen,
   after an expired key for two and after an expired login for thirty, whatever the clock, the platform and the
   other pipelines do.
   */
  lemma CooldownsAreServed(t: Table, sublet: set<Key>, until: Cooldowns, es: seq<Event>, i: nat, j: nat)
    requires i < j < |History(Begin(t, sublet, until), es).calls|
    ensures var a, b := History(Begin(t, sublet, until), es).calls[i], History(Begin(t, sublet, until), es).calls[j];
            a.ch == b.ch ==>
              && (a.fault == RateLimited ==> b.at > a.failedAt + 5 * 60)
              && (a.fault == PlatformBlocked ==> b.at > a.failedAt + 15 * 60)
              && (a.fault == UkExpired ==> b.at > a.failedAt + 2 * 60)
              && (a.fault == AuthExpired ==> b.at > a.failedAt + 30 * 60)
  {
    HistoryKeepsDiscipline(t, sublet, until, es);
  }

  // ---- what a visit does ----

  /** The dry-run switch is off, and execution is switched on globally and for the template. */
  predicate Live(dryRun: bool, x: Candidate) { x.globalLive && x.templateLive && !dryRun }

  /** An ECO listing whose sublet policy is still to be accepted. */
  predicate Backfill(x: Candidate) { !x.subletApplied && x.key.ch != UU }

  /** No deadline of the channel is still running. */
  predicate Free(until: Cooldowns, ch: Channel, now: int) { ch in until ==> until[ch] < now }

  /** The decision on a candidate; only a backfill ignores the noise band. */
  function Decided(x: Candidate): Option<Decision>
  {
    if x.input == None then None else Some(Decide(x.input.value.(ignoreNoise := Backfill(x))))
  }

  /** The pass gets to the candidate. */
  predicate Reached(p: Pass, ch: Channel, w: World) { !p.stopped && Free(p.until, ch, w.ready) }

  predicate Accepted(x: Candidate) { Decided(x).Some? && Decided(x).value.Accept? }

  /** The candidate is sent to the platform. */
  predicate Sent(dryRun: bool, p: Pass, ch: Channel, x: Candidate, w: World)
  {
    Reached(p, ch, w) && Accepted(x) && Live(dryRun, x) && Free(p.until, ch, w.sendAt)
  }

  /** The platform's answer is one item, and that one a success. */
  predicate Confirmed(w: World) { w.reply.Items? && |w.reply.ok| == 1 && w.reply.ok[0] }

  /** The error of a call: a transport error, or none of the kinds that ask for a cooldown. */
  function ErrorOf(w: World): Fault { match w.reply case Failed(f) => f case Items(_) => OtherFault }

  /** Nothing changes but the terms and reprice time of one listing, if there are new terms for it. */
  ghost predicate Rewrote(t: Table, k: Key, terms: Option<Terms>, at: int, t': Table)
  {
    && t'.Keys == t.Keys && (forall x | x in t && (x != k || terms == None) :: t'[x] == t[x])
    && (k in t && terms.Some? ==> t'[k] == t[k].(terms := terms.value, repricedAt := Some(at)))
  }

  /** The channel's deadline is the later of the old and the new one; no other channel is concerned. */
  predicate Extended(u: Cooldowns, ch: Channel, deadline: int, u': Cooldowns)
  {
    && ch in u' && u'[ch] == (if ch in u then Domain.Max(u[ch], deadline) else deadline)
    && u' - {ch} == u - {ch}
  }

  /** How long a channel is left alone after each kind of error. */
  predicate Cooled(u: Cooldowns, ch: Channel, f: Fault, at: int, u': Cooldowns)
  {
    match f
    case RateLimited => Extended(u, ch, at + 5 * 60, u')
    case PlatformBlocked => Extended(u, ch, at + 15 * 60, u')
    case UkExpired => Extended(u, ch, at + 2 * 60, u')
    case AuthExpired => Extended(u, ch, at + 30 * 60, u')
    case OtherFault => u' == u
  }

  lemma PenaltyCools(u: Cooldowns, ch: Channel, f: Fault, at: int)
    ensures Cooled(u, ch, f, at, Penalized(u, ch, f, at))
  {
  }

  lemma SentInWords(p: Pass, ch: Channel, k: Key, forced: bool, t: Terms, w: World)
    ensures var q := Send(p, ch, k, forced, t, w);
            && q.calls == p.calls + [Call(k, ch, t, w.sendAt, ErrorOf(w), w.failedAt)]
            && Cooled(p.until, ch, ErrorOf(w), w.failedAt, q.until) && q.stopped == p.stopped
            && q.actions == p.actions + (if w.logged then [PriceAction(k, Some(t), false, Confirmed(w))] else [])
    ensures var q := Send(p, ch, k, forced, t, w);
            && Rewrote(p.table, k, if Confirmed(w) && w.stored then Some(t) else None, w.storedAt, q.table)
            && q.sublet == p.sublet + (if Confirmed(w) && forced && w.marked then {k} else {})
  {
    assert w.reply == Items([true]) <==> Confirmed(w);
    PenaltyCools(p.until, ch, ErrorOf(w), w.failedAt);
  }

  /** The record of a decision: a skip has no new terms, and only a call can fail. */
  function RecordOf(k: Key, live: bool, d: Decision, w: World): PriceAction
  {
    PriceAction(k, if d.Accept? then Some(d.terms) else None, !live, (d.Accept? && live) ==> Confirmed(w))
  }

  lemma CarriedInWords(p: Pass, ch: Channel, k: Key, forced: bool, dry: bool, d: Decision, w: World)
    requires !p.stopped
    ensures var q := Carried(p, ch, k, forced, dry, d, w);
            var calling := d.Accept? && !dry;
            var sent := calling && Free(p.until, ch, w.sendAt);
            && (q.stopped <==> calling && !sent) && q.stratErrs == p.stratErrs
            && q.calls == p.calls + (if sent then [Call(k, ch, d.terms, w.sendAt, ErrorOf(w), w.failedAt)] else [])
            && (if sent then Cooled(p.until, ch, ErrorOf(w), w.failedAt, q.until) else q.until == p.until)
            && q.actions == p.actions + (if w.logged && !q.stopped then [RecordOf(k, !dry, d, w)] else [])
  {
    if d.Accept? { SentInWords(p, ch, k, forced, d.terms, w); }
  }

  /**
   What a visit does, in every case. The candidate is sent exactly when the pass reaches it, it is accepted, live
   and the channel is still free, and then its risk signal is noted. What it leaves on record says whether it was
   live. The pass stops at a channel that is cooling down, before the decision or before the call.
   */
  lemma VisitInWords(dryRun: bool, p: Pass, ch: Channel, x: Candidate, w: World)
    ensures var q := Visit(dryRun, p, ch, x, w);
            var sent := Sent(dryRun, p, ch, x, w);
            && q.calls == p.calls + (if sent then
                 [Call(x.key, ch, Decided(x).value.terms, w.sendAt, ErrorOf(w), w.failedAt)] else [])
            && (if sent then Cooled(p.until, ch, ErrorOf(w), w.failedAt, q.until) else q.until == p.until)
            && (q.stopped <==> !Reached(p, ch, w) || (Accepted(x) && Live(dryRun, x) && !sent))
            && q.actions == p.actions + (if w.logged && Decided(x).Some? && !q.stopped then
                 [RecordOf(x.key, Live(dryRun, x), Decided(x).value, w)] else [])
            && q.stratErrs == p.stratErrs + (if Reached(p, ch, w) && Decided(x) == None then [OtherFault] else [])
  {
    if Reached(p, ch, w) && x.input.Some? {
      CarriedInWords(p, ch, x.key, Forced(x), DryRun(dryRun, x), Decided(x).value, w);
    }
  }

  lemma CarriedWrites(p: Pass, ch: Channel, k: Key, forced: bool, dry: bool, d: Decision, w: World)
    ensures var q := Carried(p, ch, k, forced, dry, d, w);
            var confirmed := d.Accept? && !dry && Free(p.until, ch, w.sendAt) && Confirmed(w);
            && Rewrote(p.table, k, if confirmed && w.stored then Some(d.terms) else None, w.storedAt, q.table)
            && q.sublet == p.sublet + (if confirmed && forced && w.marked then {k} else {})
  {
    if d.Accept? { SentInWords(p, ch, k, forced, d.terms, w); }
  }

  /** A live decision that the platform accepted and the store recorded. */
  predicate Stored(dryRun: bool, p: Pass, ch: Channel, x: Candidate, w: World)
  {
    Sent(dryRun, p, ch, x, w) && Confirmed(w) && w.stored
  }

  /**
   A listing's terms and reprice time change exactly when a live decision was accepted, confirmed and stored, and
   become the decided ones; nothing else in the table ever changes. Only a confirmed backfill is marked.
   */
  lemma VisitWrites(dryRun: bool, p: Pass, ch: Channel, x: Candidate, w: World)
    ensures Rewrote(p.table, x.key, if Stored(dryRun, p, ch, x, w) then Some(Decided(x).value.terms) else None,
              w.storedAt, Visit(dryRun, p, ch, x, w).table)
    ensures Visit(dryRun, p, ch, x, w).sublet == p.sublet +
            if Sent(dryRun, p, ch, x, w) && Confirmed(w) && Backfill(x) && w.marked then {x.key} else {}
  {
    if x.input.Some? { CarriedWrites(p, ch, x.key, Forced(x), DryRun(dryRun, x), Decided(x).value, w); }
  }

  // ---- what a pass reports ----

  /** A decision that leaves nothing to report: recorded, and, when sent, confirmed, stored and marked. */
  predicate CleanCarry(forced: bool, dry: bool, d: Decision, w: World)
  {
    w.logged && (d.Accept? && !dry ==> Confirmed(w) && w.stored && (forced ==> w.marked))
  }

  predicate CleanVisit(dryRun: bool, x: Candidate, w: World)
  {
    Decided(x).Some? && CleanCarry(Backfill(x), !Live(dryRun, x), Decided(x).value, w)
  }

  /** The operation errors of a decision: an unrecorded action, a failed call, unsaved terms, an unsaved mark. */
  function FailuresOf(sent: bool, forced: bool, w: World): seq<Fault>
  {
    (if w.logged then [] else [OtherFault]) +
    (if sent && !Confirmed(w) then [ErrorOf(w)] else []) +
    (if sent && Confirmed(w) && !w.stored then [OtherFault] else []) +
    (if sent && Confirmed(w) && forced && !w.marked then [OtherFault] else [])
  }

  lemma CarriedReports(p: Pass, ch: Channel, k: Key, forced: bool, dry: bool, d: Decision, w: World)
    requires !p.stopped
    ensures var q := Carried(p, ch, k, forced, dry, d, w);
            q.opErrs == p.opErrs + if q.stopped then [] else FailuresOf(d.Accept? && !dry, forced, w)
  {
    assert w.reply == Items([true]) <==> Confirmed(w);
  }

  /** Which operation errors a visit adds, in order. */
  lemma VisitReports(dryRun: bool, p: Pass, ch: Channel, x: Candidate, w: World)
    ensures var q := Visit(dryRun, p, ch, x, w);
            q.opErrs == p.opErrs + if q.stopped || Decided(x) == None then []
                                   else FailuresOf(Sent(dryRun, p, ch, x, w), Backfill(x), w)
  {
    if Reached(p, ch, w) && x.input.Some? {
      CarriedReports(p, ch, x.key, Forced(x), DryRun(dryRun, x), Decided(x).value, w);
    }
  }

  /**
   A channel whose cooldown still runs is left out of a run. The joined error of a failed pass cools its channel
   down by its first kind in the order of the source; a pass without an error is not a failure.
   */
  lemma RunInWords(dryRun: bool, t: Turn, now: int, p: Pass)
    requires WellFormed(t)
    ensures var (q, failed) := RunOne(dryRun, t, now, p);
            var r := ChannelPass(dryRun, Begin(p.table, p.sublet, p.until), t);
            var errors := r.stratErrs + r.opErrs;
            if !Free(p.until, t.ch, now) then q == p && failed == []
            else
              && q.table == r.table && q.sublet == r.sublet && failed == (if |errors| > 0 then [t.ch] else [])
              && (RateLimited in errors ==> Cooled(r.until, t.ch, RateLimited, t.failedAt, q.until))
              && (RateLimited !in errors && PlatformBlocked in errors ==>
                    Cooled(r.until, t.ch, PlatformBlocked, t.failedAt, q.until))
              && (RateLimited !in errors && PlatformBlocked !in errors && UkExpired in errors ==>
                    Cooled(r.until, t.ch, UkExpired, t.failedAt, q.until))
              && (errors != [] && (forall e | e in errors :: e == AuthExpired || e == OtherFault) ==>
                    Cooled(r.until, t.ch, if AuthExpired in errors then AuthExpired else OtherFault, t.failedAt,
                      q.until))
              && (errors == [] ==> q.until == r.until)
  {
    var r := ChannelPass(dryRun, Begin(p.table, p.sublet, p.until), t);
    PenaltyCools(r.until, t.ch, Joined(AllErrors(r)), t.failedAt);
  }

  /** Errors are only ever added. */
  ghost predicate Extends(p: Pass, q: Pass) { p.stratErrs <= q.stratErrs && p.opErrs <= q.opErrs }

  predicate SameErrors(p: Pass, q: Pass) { p.stratErrs == q.stratErrs && p.opErrs == q.opErrs }

  lemma StoreErrors(p: Pass, k: Key, forced: bool, t: Terms, w: World)
    ensures var q := Store(p, k, forced, t, w);
            && Extends(p, q) && q.stratErrs == p.stratErrs
            && (SameErrors(p, q) <==> w.stored && (forced ==> w.marked))
  {
  }

  lemma SendErrors(p: Pass, ch: Channel, k: Key, forced: bool, t: Terms, w: World)
    ensures var q := Send(p, ch, k, forced, t, w);
            && Extends(p, q) && q.stratErrs == p.stratErrs
            && (SameErrors(p, q) <==> w.logged && Confirmed(w) && w.stored && (forced ==> w.marked))
  {
    var ok := w.reply == Items([true]);
    var until := Penalized(p.until, ch, FaultOf(w.reply), w.failedAt);
    var q := p.(calls := p.calls + [SentCall(ch, k, t, w)], until := until);
    var r := Log(q, PriceAction(k, Some(t), false, ok), w.logged);
    if ok { StoreErrors(r, k, forced, t, w); }
  }

  lemma CarriedErrors(p: Pass, ch: Channel, k: Key, forced: bool, dry: bool, d: Decision, w: World)
    requires !Carried(p, ch, k, forced, dry, d, w).stopped
    ensures var q := Carried(p, ch, k, forced, dry, d, w);
            !p.stopped && Extends(p, q) && (SameErrors(p, q) <==> CleanCarry(forced, dry, d, w))
  {
    if d.Accept? && !dry { SendErrors(p, ch, k, forced, d.terms, w); }
  }

  lemma VisitErrors(dryRun: bool, p: Pass, ch: Channel, x: Candidate, w: World)
    requires !Visit(dryRun, p, ch, x, w).stopped
    ensures !p.stopped && Extends(p, Visit(dryRun, p, ch, x, w))
    ensures SameErrors(p, Visit(dryRun, p, ch, x, w)) <==> CleanVisit(dryRun, x, w)
  {
    if x.input.Some? { CarriedErrors(p, ch, x.key, Forced(x), DryRun(dryRun, x), Decide(Question(x)), w); }
  }

  lemma {:induction false} VisitsErrors(dryRun: bool, p: Pass, ch: Channel, xs: seq<Candidate>, ws: seq<World>)
    requires |ws| == |xs| && !Visits(dryRun, p, ch, xs, ws).stopped
    ensures !p.stopped && Extends(p, Visits(dryRun, p, ch, xs, ws))
    ensures SameErrors(p, Visits(dryRun, p, ch, xs, ws)) <==>
            forall i | 0 <= i < |xs| :: CleanVisit(dryRun, xs[i], ws[i])
  {
    if xs != [] {
      var n := |xs| - 1;
      VisitErrors(dryRun, Visits(dryRun, p, ch, xs[..n], ws[..n]), ch, xs[n], ws[n]);
      VisitsErrors(dryRun, p, ch, xs[..n], ws[..n]);
      assert forall i | 0 <= i < n :: xs[..n][i] == xs[i] && ws[..n][i] == ws[i];
    }
  }

  /** A pass in which no cooldown intervened reports no error exactly when every candidate was clean. */
  lemma SilentIffClean(dryRun: bool, table: Table, sublet: set<Key>, until: Cooldowns, t: Turn)
    requires WellFormed(t) && !ChannelPass(dryRun, Begin(table, sublet, until), t).stopped
    ensures AllErrors(ChannelPass(dryRun, Begin(table, sublet, until), t)) == [] <==>
            t.loaded && forall i | 0 <= i < |t.xs| :: CleanVisit(dryRun, t.xs[i], t.ws[i])
  {
    if t.loaded { VisitsErrors(dryRun, Begin(table, sublet, until), t.ch, t.xs, t.ws); }
  }

  // ---- convergence of the pass ----

  /** A listing's row as the candidate query reads it. */
  function ViewOf(r: Row): Repriced { Repriced(r.terms, if r.repricedAt.Some? then r.repricedAt else r.listedAt) }

  /** A listing that was just published, or just repriced, is left alone for its cooldown. */
  lemma ChangedListingRests(m: Input, t: Table, k: Key, asset: string, hash: string, terms: Terms, clock: int, now: int)
    requires now < clock + 60 * m.params.guard.cooldownMinutes
    ensures k !in t ==> Decide(AtRound(m, ViewOf(RecordPublished(t, k, asset, hash, terms, clock)[k]), now)).Skip?
    ensures k in t ==> Decide(AtRound(m, ViewOf(UpdateDecision(t, k, terms, clock)[k]), now)).Skip?
  {
  }

  /**
   A visit to a listing in a fixed market: its input is built from the stored row, and it is not a
   forced backfill.
   */
  ghost predicate FixedMarket(m: Input, p: Pass, k: Key, e: Event)
  {
    e.Visited? && e.x.key == k ==>
      k in p.table && (k.ch == ECO ==> e.x.subletApplied) &&
        (e.x.input.Some? ==> exists now :: Question(e.x) == AtRound(m, ViewOf(p.table[k]), now))
  }

  ghost predicate InFixedMarket(m: Input, p: Pass, k: Key, es: seq<Event>)
  {
    es == [] || (InFixedMarket(m, p, k, es[..|es| - 1]) && FixedMarket(m, History(p, es[..|es| - 1]), k, es[|es| - 1]))
  }

  predicate Writes(p: Pass, k: Key, e: Event) { e.Visited? && e.x.key == k && Stored(e.dryRun, p, e.ch, e.x, e.w) }

  function WriteCount(p: Pass, k: Key, es: seq<Event>): nat
  {
    if es == [] then 0
    else WriteCount(p, k, es[..|es| - 1]) + if Writes(History(p, es[..|es| - 1]), k, es[|es| - 1]) then 1 else 0
  }

  lemma RoundKeepsOff(m: Input, s: Repriced, now: int)
    requires Market(m) && (PartialCap(m) || m.params.guard.maxChangeRatio >= 1.0) && !Loops(m, s.terms)
    ensures !Loops(m, Round(m, s, now).terms)
  {
    if AsksForZero(m) {
      if PartialCap(m) { RoundKeepsSettling(m, s, now); } else { FullCapDecision(m, s, now); }
    }
  }

  lemma EventProgress(m: Input, p: Pass, k: Key, e: Event)
    requires Market(m) && (PartialCap(m) || m.params.guard.maxChangeRatio >= 1.0)
    requires k in p.table && !Loops(m, p.table[k].terms) && FixedMarket(m, p, k, e)
    ensures var q := After(p, e);
            && k in q.table && !Loops(m, q.table[k].terms)
            && Between(q.table[k].terms.rent, p.table[k].terms.rent, TargetRent(m))
            && Work(m, q.table[k].terms) + (if Writes(p, k, e) then 1 else 0) <= Work(m, p.table[k].terms)
  {
    if e.Visited? {
      VisitWrites(e.dryRun, p, e.ch, e.x, e.w);
      if Writes(p, k, e) {
        var s := ViewOf(p.table[k]);
        var now :| Question(e.x) == AtRound(m, s, now);
        RoundKeepsOff(m, s, now);
        RoundProgress(m, s, now);
      }
    }
  }

  /**
   Repricing converges through the whole pipeline: whatever skips, dry runs, refusals, lost writes,
   cooldowns and other listings come between, in a fixed market a listing is rewritten at most
   (initial cent distance + 1) times, always towards the target and never past it.
   */
  lemma {:induction false} PassesConverge(m: Input, p: Pass, k: Key, es: seq<Event>)
    requires Market(m) && (PartialCap(m) || m.params.guard.maxChangeRatio >= 1.0)
    requires k in p.table && !Loops(m, p.table[k].terms) && InFixedMarket(m, p, k, es)
    ensures var q := History(p, es);
            && k in q.table && !Loops(m, q.table[k].terms)
            && Between(q.table[k].terms.rent, p.table[k].terms.rent, TargetRent(m))
            && Work(m, q.table[k].terms) + WriteCount(p, k, es) <= Work(m, p.table[k].terms)
            && WriteCount(p, k, es) <= Gap(m, p.table[k].terms.rent) + 1
  {
    if es != [] {
      PassesConverge(m, p, k, es[..|es| - 1]);
      EventProgress(m, History(p, es[..|es| - 1]), k, es[|es| - 1]);
    }
  }

  // ---- and exactly when it does ----

  lemma {:induction false} HistoryInTurn(p: Pass, es: seq<Event>, more: seq<Event>)
    ensures History(p, es + more) == History(History(p, es), more)
  {
    if more == [] {
      assert es + more == es;
    } else {
      HistoryInTurn(p, es, more[..|more| - 1]);
      assert (es + more)[..|es + more| - 1] == es + more[..|more| - 1];
    }
  }

  lemma {:induction false} WritesInTurn(p: Pass, k: Key, es: seq<Event>, more: seq<Event>)
    ensures WriteCount(p, k, es + more) == WriteCount(p, k, es) + WriteCount(History(p, es), k, more)
  {
    if more == [] {
      assert es + more == es;
    } else {
      var rest := more[..|more| - 1];
      WritesInTurn(p, k, es, rest);
      HistoryInTurn(p, es, rest);
      assert (es + more)[..|es + more| - 1] == es + rest;
    }
  }

  lemma {:induction false} MarketInTurn(m: Input, p: Pass, k: Key, es: seq<Event>, more: seq<Event>)
    requires InFixedMarket(m, p, k, es) && InFixedMarket(m, History(p, es), k, more)
    ensures InFixedMarket(m, p, k, es + more)
  {
    if more == [] {
      assert es + more == es;
    } else {
      var rest := more[..|more| - 1];
      MarketInTurn(m, p, k, es, rest);
      HistoryInTurn(p, es, rest);
      assert (es + more)[..|es + more| - 1] == es + rest;
    }
  }

  lemma InTurn(m: Input, p: Pass, k: Key, es: seq<Event>, more: seq<Event>)
    requires InFixedMarket(m, p, k, es) && InFixedMarket(m, History(p, es), k, more)
    ensures History(p, es + more) == History(History(p, es), more)
    ensures WriteCount(p, k, es + more) == WriteCount(p, k, es) + WriteCount(History(p, es), k, more)
    ensures InFixedMarket(m, p, k, es + more)
  {
    HistoryInTurn(p, es, more);
    WritesInTurn(p, k, es, more);
    MarketInTurn(m, p, k, es, more);
  }

  lemma OneEvent(m: Input, p: Pass, k: Key, e: Event)
    ensures History(p, [e]) == After(p, e)
    ensures WriteCount(p, k, [e]) == if Writes(p, k, e) then 1 else 0
    ensures InFixedMarket(m, p, k, [e]) <==> FixedMarket(m, p, k, e)
  {
    assert [e][..0] == [];
    assert History(p, []) == p && WriteCount(p, k, []) == 0 && InFixedMarket(m, p, k, []);
  }

  /** A visit at which the platform and the store do their part, in a fresh pass when the channel is ready. */
  lemma LiveVisit(m: Input, p: Pass, k: Key, now: int) returns (es: seq<Event>)
    requires InputCheck(m) == None && k in p.table && Decide(AtRound(m, ViewOf(p.table[k]), now)).Accept?
    ensures InFixedMarket(m, p, k, es) && WriteCount(p, k, es) == 1
    ensures k in History(p, es).table && ViewOf(History(p, es).table[k]) == Round(m, ViewOf(p.table[k]), now)
  {
    var s, ready := ViewOf(p.table[k]), if k.ch in p.until then p.until[k.ch] + 1 else 0;
    var x := Candidate(k, Some(AtRound(m, s, now)), true, true, true);
    var w := World(ready, ready, ready, Items([true]), true, true, now, true);
    var e := Visited(false, k.ch, x, w);
    var q := After(p, NewPass);
    assert Question(x) == AtRound(m, s, now);
    VisitWrites(false, q, k.ch, x, w);
    assert Stored(false, q, k.ch, x, w) && FixedMarket(m, q, k, e);
    es := [NewPass] + [e];
    OneEvent(m, p, k, NewPass);
    OneEvent(m, q, k, e);
    InTurn(m, p, k, [NewPass], [e]);
  }

  lemma {:induction false} EndlessWrites(m: Input, p: Pass, k: Key, n: nat) returns (es: seq<Event>)
    requires Market(m) && (PartialCap(m) || m.params.guard.maxChangeRatio >= 1.0) && k in p.table &&
             Loops(m, p.table[k].terms)
    ensures InFixedMarket(m, p, k, es) && WriteCount(p, k, es) == n
    decreases n
  {
    if n == 0 {
      es := [];
    } else {
      var s := ViewOf(p.table[k]);
      var now := Awake(m, s);
      if s.terms.rent <= 0 { ZeroRentIsAcceptedAgain(m, s, now); } else { FullCapDecision(m, s, now); }
      var first := LiveVisit(m, p, k, now);
      var more := EndlessWrites(m, History(p, first), k, n - 1);
      InTurn(m, p, k, first, more);
      es := first + more;
    }
  }

  ghost predicate WritesAtMost(m: Input, p: Pass, k: Key, b: nat)
  {
    forall es | InFixedMarket(m, p, k, es) :: WriteCount(p, k, es) <= b
  }

  /**
   In a fixed market the pipeline stops rewriting a listing exactly if the market and its terms do not
   loop at a rent of 0.
   */
  lemma PassesStopIff(m: Input, p: Pass, k: Key)
    requires Market(m) && (PartialCap(m) || m.params.guard.maxChangeRatio >= 1.0) && k in p.table
    ensures (exists b: nat :: WritesAtMost(m, p, k, b)) <==> !Loops(m, p.table[k].terms)
  {
    if Loops(m, p.table[k].terms) {
      forall b: nat ensures !WritesAtMost(m, p, k, b) {
        var es := EndlessWrites(m, p, k, b + 1);
      }
    } else {
      var b := Gap(m, p.table[k].terms.rent) + 1;
      forall es | InFixedMarket(m, p, k, es) ensures WriteCount(p, k, es) <= b { PassesConverge(m, p, k, es); }
      assert WritesAtMost(m, p, k, b);
    }
  }
}
