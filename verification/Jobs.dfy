/**
 The job scheduler: ticks, manual triggers and stop, interleaved at every point where the
 scheduler's mutex is released.

 An execution moves through the phases of its goroutine. A scheduled one clears the running flag
 before it leaves the WaitGroup; a manual one leaves the WaitGroup first.
 */
module Jobs {
  import opened Domain

  datatype Job = Job(running: bool, next: int, last: Option<int>, lastOk: bool, failStreak: nat)

  datatype Phase = Claimed | Running | Returned(ok: bool) | Recorded | Released

  datatype Exec = Exec(name: string, manual: bool, phase: Phase)

  type ExecId = nat

  datatype Sched = Sched(jobs: map<string, Job>, stopped: bool, wg: int, execs: map<ExecId, Exec>, started: nat,
    waited: bool)

  /** Claiming under the mutex: flag, WaitGroup count and the new execution. */
  function Claim(s: Sched, name: string, manual: bool): Sched
    requires name in s.jobs
  {
    s.(jobs := s.jobs[name := s.jobs[name].(running := true)], wg := s.wg + 1,
       execs := s.execs[s.started := Exec(name, manual, Claimed)], started := s.started + 1)
  }

  predicate IsDue(s: Sched, name: string, now: int)
  {
    name in s.jobs && !s.jobs[name].running && s.jobs[name].next <= now
  }

  function ClaimDue(s: Sched, order: seq<string>, now: int): Sched
  {
    if order == [] then s
    else
      var r := ClaimDue(s, order[..|order| - 1], now);
      if IsDue(r, order[|order| - 1], now) then Claim(r, order[|order| - 1], false) else r
  }

  /** The critical section of runDue. */
  function Tick(s: Sched, order: seq<string>, now: int): Sched { if s.stopped then s else ClaimDue(s, order, now) }

  datatype TriggerError = SchedulerStopped | UnknownJob | AlreadyRunning

  function TriggerCheck(s: Sched, name: string): Option<TriggerError>
  {
    if s.stopped then Some(SchedulerStopped)
    else if name !in s.jobs then Some(UnknownJob)
    else if s.jobs[name].running then Some(AlreadyRunning)
    else None
  }

  function Trigger(s: Sched, name: string): Sched { if TriggerCheck(s, name) == None then Claim(s, name, true) else s }

  /** The status written when a job function returned; a scheduled run also gives up the flag here. */
  function Finished(j: Job, ok: bool, manual: bool, at: int, next: int): Job
  {
    Job(j.running && manual, next, Some(at), ok, if ok then 0 else j.failStreak + 1)
  }

  datatype JobEvent =
    | Ticked(order: seq<string>, now: int)
    | Triggered(name: string)
    | Started(id: ExecId)
    | Return(id: ExecId, ok: bool)
    | Record(id: ExecId, at: int, next: int)
    | Leave(id: ExecId)
    | Release(id: ExecId)
    | Stop
    | WaitDone

  predicate MayStep(s: Sched, e: JobEvent)
  {
    match e
    case Started(id) => id in s.execs && s.execs[id].phase == Claimed
    case Return(id, _) => id in s.execs && s.execs[id].phase == Running
    case Record(id, _, _) => id in s.execs && s.execs[id].phase.Returned? && s.execs[id].name in s.jobs
    case Leave(id) => id in s.execs && s.execs[id].phase == Recorded
    case Release(id) => id in s.execs && s.execs[id].phase == Released && s.execs[id].name in s.jobs
    case WaitDone => s.stopped && s.wg == 0
    case _ => true
  }

  function Advance(s: Sched, id: ExecId, p: Phase): Sched
    requires id in s.execs
  {
    s.(execs := s.execs[id := s.execs[id].(phase := p)])
  }

  function JobStep(s: Sched, e: JobEvent): Sched
    requires MayStep(s, e)
  {
    match e
    case Ticked(order, now) => Tick(s, order, now)
    case Triggered(name) => Trigger(s, name)
    case Started(id) => Advance(s, id, Running)
    case Return(id, ok) => Advance(s, id, Returned(ok))
    case Record(id, at, next) =>
      var x := s.execs[id];
      Advance(s, id, Recorded).(jobs := s.jobs[x.name := Finished(s.jobs[x.name], x.phase.ok, x.manual, at, next)])
    case Leave(id) =>
      if s.execs[id].manual then Advance(s, id, Released).(wg := s.wg - 1)
      else s.(execs := s.execs - {id}, wg := s.wg - 1)
    case Release(id) =>
      var name := s.execs[id].name;
      s.(jobs := s.jobs[name := s.jobs[name].(running := false)], execs := s.execs - {id})
    case Stop => s.(stopped := true)
    case WaitDone => s.(waited := true)
  }

  // ---- registration ----

  /** An interval, or a daily time as text, with what scanning it for "%d:%d" yields. */
  datatype Schedule = Interval | Daily(at: string, scanned: Option<(int, int)>)

  datatype RegisterError = Incomplete | BadTime | Duplicate

  /** Five characters around a colon that scan to an hour and a minute of a day. */
  predicate WellTimed(s: Schedule)
  {
    s.Daily? ==>
      |s.at| == 5 && s.at[2] == ':' && s.scanned.Some? && 0 <= s.scanned.value.0 < 24 && 0 <= s.scanned.value.1 < 60
  }

  // ---- the scheduler object ----

  class Scheduler {
    var jobs: map<string, Job>
    var order: seq<string>
    var stopped: bool
    var wg: int
    var execs: map<ExecId, Exec>
    var started: nat

    constructor ()
      ensures jobs == map[] && order == [] && !stopped && wg == 0 && execs == map[] && started == 0
    {
      jobs, order, stopped, wg, execs, started := map[], [], false, 0, map[], 0;
    }

    ghost function State(): Sched
      reads this
    {
      Sched(jobs, stopped, wg, execs, started, false)
    }

    /** An unusable job is refused before the lock is taken, a duplicate under it. */
    method Register(name: string, hasFn: bool, schedule: Schedule, next: int) returns (error: Option<RegisterError>)
      modifies this`jobs, this`order
      ensures error == None <==> name != "" && hasFn && WellTimed(schedule) && name !in old(jobs)
      ensures error == Some(Duplicate) <==> name != "" && hasFn && WellTimed(schedule) && name in old(jobs)
      ensures error == Some(BadTime) <==> name != "" && hasFn && !WellTimed(schedule)
      ensures error == None ==>
                jobs == old(jobs)[name := Job(false, next, None, false, 0)] && order == old(order) + [name]
      ensures error != None ==> jobs == old(jobs) && order == old(order)
    {
      if !hasFn || name == "" { return Some(Incomplete); }
      if schedule.Daily? {
        if |schedule.at| != 5 || schedule.at[2] != ':' { return Some(BadTime); }
        if schedule.scanned == None { return Some(BadTime); }
        var (h, m) := schedule.scanned.value;
        if h < 0 || h > 23 || m < 0 || m > 59 { return Some(BadTime); }
      }
      if name in jobs { return Some(Duplicate); }
      jobs := jobs[name := Job(false, next, None, false, 0)];
      order := order + [name];
      error := None;
    }

    method ClaimJob(name: string, manual: bool)
      requires name in jobs
      modifies this`jobs, this`wg, this`execs, this`started
      ensures State() == Claim(old(State()), name, manual)
    {
      jobs := jobs[name := jobs[name].(running := true)];
      wg := wg + 1;
      execs := execs[started := Exec(name, manual, Claimed)];
      started := started + 1;
    }

    /** The locked part of runDue. */
    method RunDue(now: int)
      modifies this`jobs, this`wg, this`execs, this`started
      ensures State() == Tick(old(State()), old(order), now)
    {
      if stopped { return; }
      for i := 0 to |order|
        invariant !stopped && order == old(order)
        invariant State() == ClaimDue(old(State()), order[..i], now)
      {
        assert order[..i + 1][..i] == order[..i];
        var name := order[i];
        if name in jobs && !jobs[name].running && jobs[name].next <= now { ClaimJob(name, false); }
      }
      assert order[..|order|] == order;
    }

    /** The locked part of Trigger before the job function runs. */
    method TriggerJob(name: string) returns (error: Option<TriggerError>)
      modifies this`jobs, this`wg, this`execs, this`started
      ensures error == Some(SchedulerStopped) <==> stopped
      ensures error == Some(UnknownJob) <==> !stopped && name !in old(jobs)
      ensures error == Some(AlreadyRunning) <==> !stopped && name in old(jobs) && old(jobs)[name].running
      ensures error.Some? ==> State() == old(State())
      ensures error == None ==>
                && jobs == old(jobs)[name := old(jobs)[name].(running := true)] && wg == old(wg) + 1
                && execs == old(execs)[old(started) := Exec(name, true, Claimed)] && started == old(started) + 1
      ensures error == TriggerCheck(old(State()), name) && State() == Trigger(old(State()), name)
    {
      if stopped { return Some(SchedulerStopped); }
      if name !in jobs { return Some(UnknownJob); }
      if jobs[name].running { return Some(AlreadyRunning); }
      ClaimJob(name, true);
      error := None;
    }

    /** The locked part after a job function returned. */
    method RecordRun(id: ExecId, at: int, next: int)
      requires MayStep(State(), Record(id, at, next))
      modifies this`jobs, this`execs
      ensures var x := old(execs)[id];
              && execs == old(execs)[id := Exec(x.name, x.manual, Recorded)]
              && x.name in jobs && jobs == old(jobs)[x.name := jobs[x.name]]
              && var j, was := jobs[x.name], old(jobs)[x.name];
                 && j.next == next && j.last == Some(at) && (j.lastOk <==> x.phase == Returned(true))
                 && (j.running <==> was.running && x.manual)
                 && j.failStreak == (if j.lastOk then 0 else was.failStreak + 1)
      ensures State() == JobStep(old(State()), Record(id, at, next))
    {
      var x := execs[id];
      var j := jobs[x.name];
      var streak := if x.phase.ok then 0 else j.failStreak + 1;
      jobs := jobs[x.name := Job(if x.manual then j.running else false, next, Some(at), x.phase.ok, streak)];
      execs := execs[id := x.(phase := Recorded)];
    }
  }

  // ---- what a tick does ----

  /** The registered jobs that are idle and whose time has come. */
  function Ripe(s: Sched, order: seq<string>, now: int): set<string>
  {
    set n | n in s.jobs && n in order && !s.jobs[n].running && !(now < s.jobs[n].next)
  }

  /** From s to t these jobs were flagged, and no other job changed. */
  ghost predicate FlaggedAll(s: Sched, t: Sched, names: set<string>)
  {
    && t.jobs.Keys == s.jobs.Keys && (t.stopped <==> s.stopped) && (t.waited <==> s.waited)
    && (forall n | n in s.jobs :: t.jobs[n] == if n in names then s.jobs[n].(running := true) else s.jobs[n])
  }

  /** From s to t each of these jobs got one scheduled execution, and no other execution came or changed. */
  ghost predicate StartedAll(s: Sched, t: Sched, names: set<string>)
  {
    && t.started == s.started + |names| && t.wg == s.wg + |names|
    && (forall id | id < s.started :: id in t.execs <==> id in s.execs)
    && (forall id | id < s.started && id in s.execs :: t.execs[id] == s.execs[id])
    && (forall id | s.started <= id < t.started ::
          id in t.execs && t.execs[id].name in names && !t.execs[id].manual && t.execs[id].phase == Claimed)
    && (forall id, jd | s.started <= id < jd < t.started :: t.execs[id].name != t.execs[jd].name)
  }

  ghost predicate ClaimedAll(s: Sched, t: Sched, names: set<string>)
  {
    FlaggedAll(s, t, names) && StartedAll(s, t, names)
  }

  lemma FlagOneMore(s: Sched, r: Sched, names: set<string>, name: string)
    requires FlaggedAll(s, r, names) && name in s.jobs
    ensures FlaggedAll(s, Claim(r, name, false), names + {name})
  {
  }

  lemma StartOneMore(s: Sched, r: Sched, names: set<string>, name: string)
    requires StartedAll(s, r, names) && name in r.jobs && name !in names
    ensures StartedAll(s, Claim(r, name, false), names + {name})
  {
  }

  lemma {:induction false} ClaimDueInWords(s: Sched, order: seq<string>, now: int)
    ensures ClaimedAll(s, ClaimDue(s, order, now), Ripe(s, order, now))
  {
    if order != [] {
      var n := |order| - 1;
      var r, ripe := ClaimDue(s, order[..n], now), Ripe(s, order[..n], now);
      ClaimDueInWords(s, order[..n], now);
      assert order == order[..n] + [order[n]];
      if IsDue(r, order[n], now) {
        FlagOneMore(s, r, ripe, order[n]);
        StartOneMore(s, r, ripe, order[n]);
        assert Ripe(s, order, now) == ripe + {order[n]};
      } else {
        assert Ripe(s, order, now) == ripe;
      }
    }
  }

  /**
   A tick claims exactly the idle jobs whose time has come, once each, whatever the registration order, and no other
   job, flag or execution changes; a stopped scheduler claims none.
   */
  lemma TickInWords(s: Sched, order: seq<string>, now: int)
    ensures s.stopped ==> Tick(s, order, now) == s
    ensures !s.stopped ==> ClaimedAll(s, Tick(s, order, now), Ripe(s, order, now))
  {
    ClaimDueInWords(s, order, now);
  }

  // ---- invariants ----

  /** The execution holds its job's running flag. */
  predicate Holds(x: Exec) { x.manual || x.phase == Claimed || x.phase == Running || x.phase.Returned? }

  function InGroup(s: Sched): set<ExecId> { set id | id in s.execs && s.execs[id].phase != Released }

  ghost predicate OneHolder(s: Sched)
  {
    forall a, b | a in s.execs && b in s.execs && Holds(s.execs[a]) && Holds(s.execs[b]) &&
      s.execs[a].name == s.execs[b].name :: a == b
  }

  /** A job is flagged running exactly while some execution holds the flag. */
  ghost predicate FlagsMatch(s: Sched)
  {
    && (forall id | id in s.execs ::
      s.execs[id].name in s.jobs && (Holds(s.execs[id]) ==> s.jobs[s.execs[id].name].running))
    && (forall n | n in s.jobs && s.jobs[n].running :: exists id | id in s.execs ::
      Holds(s.execs[id]) && s.execs[id].name == n)
  }

  ghost predicate JobInv(s: Sched)
  {
    && s.wg == |InGroup(s)|
    && OneHolder(s) && FlagsMatch(s)
    && (forall id | id in s.execs :: id < s.started && (s.execs[id].phase == Released ==> s.execs[id].manual))
    && (s.waited ==> s.stopped && InGroup(s) == {})
  }

  lemma ClaimFlags(s: Sched, name: string, manual: bool)
    requires FlagsMatch(s) && OneHolder(s) && name in s.jobs && !s.jobs[name].running
    requires forall id | id in s.execs :: id < s.started
    ensures FlagsMatch(Claim(s, name, manual)) && OneHolder(Claim(s, name, manual))
  {
    var t := Claim(s, name, manual);
    assert s.started in t.execs && Holds(t.execs[s.started]);
    forall n | n in t.jobs && t.jobs[n].running && n != name
      ensures exists id | id in t.execs :: Holds(t.execs[id]) && t.execs[id].name == n
    {
      var id :| id in s.execs && Holds(s.execs[id]) && s.execs[id].name == n;
      assert id in t.execs;
    }
  }

  lemma ClaimGroup(s: Sched, name: string, manual: bool)
    requires name in s.jobs && s.wg == |InGroup(s)| && forall id | id in s.execs :: id < s.started
    ensures Claim(s, name, manual).wg == |InGroup(Claim(s, name, manual))|
  {
    assert InGroup(Claim(s, name, manual)) == InGroup(s) + {s.started};
  }

  lemma ClaimKeepsInv(s: Sched, name: string, manual: bool)
    requires JobInv(s) && !s.stopped && name in s.jobs && !s.jobs[name].running
    ensures JobInv(Claim(s, name, manual)) && !Claim(s, name, manual).stopped
  {
    ClaimFlags(s, name, manual);
    ClaimGroup(s, name, manual);
  }

  lemma {:induction false} ClaimDueKeepsInv(s: Sched, order: seq<string>, now: int)
    requires JobInv(s) && !s.stopped
    ensures JobInv(ClaimDue(s, order, now)) && !ClaimDue(s, order, now).stopped
  {
    if order != [] {
      ClaimDueKeepsInv(s, order[..|order| - 1], now);
      var r := ClaimDue(s, order[..|order| - 1], now);
      if IsDue(r, order[|order| - 1], now) { ClaimKeepsInv(r, order[|order| - 1], false); }
    }
  }

  /** Phase changes that neither enter nor leave the group nor touch the flag. */
  lemma AdvanceKeepsInv(s: Sched, id: ExecId, p: Phase)
    requires JobInv(s) && id in s.execs && s.execs[id].phase != Released && p != Released
    requires Holds(s.execs[id].(phase := p)) == Holds(s.execs[id])
    ensures JobInv(Advance(s, id, p))
  {
    var t := Advance(s, id, p);
    assert InGroup(t) == InGroup(s);
    forall n | n in t.jobs && t.jobs[n].running
      ensures exists x | x in t.execs :: Holds(t.execs[x]) && t.execs[x].name == n
    {
      var x :| x in s.execs && Holds(s.execs[x]) && s.execs[x].name == n;
      assert x in t.execs;
    }
  }

  lemma RecordFlags(s: Sched, id: ExecId, at: int, next: int)
    requires FlagsMatch(s) && OneHolder(s) && MayStep(s, Record(id, at, next))
    ensures FlagsMatch(JobStep(s, Record(id, at, next))) && OneHolder(JobStep(s, Record(id, at, next)))
  {
    var t := JobStep(s, Record(id, at, next));
    forall n | n in t.jobs && t.jobs[n].running
      ensures exists x | x in t.execs :: Holds(t.execs[x]) && t.execs[x].name == n
    {
      var x :| x in s.execs && Holds(s.execs[x]) && s.execs[x].name == n;
      assert x in t.execs;
    }
  }

  lemma RecordKeepsInv(s: Sched, id: ExecId, at: int, next: int)
    requires JobInv(s) && MayStep(s, Record(id, at, next))
    ensures JobInv(JobStep(s, Record(id, at, next)))
  {
    RecordFlags(s, id, at, next);
    assert InGroup(JobStep(s, Record(id, at, next))) == InGroup(s);
  }

  lemma LeaveHolders(s: Sched, id: ExecId)
    requires OneHolder(s) && MayStep(s, Leave(id))
    ensures OneHolder(JobStep(s, Leave(id)))
  {
    var t := JobStep(s, Leave(id));
    forall a, b | a in t.execs && b in t.execs && Holds(t.execs[a]) && Holds(t.execs[b]) &&
      t.execs[a].name == t.execs[b].name
      ensures a == b
    {
      assert Holds(s.execs[a]) && Holds(s.execs[b]);
    }
  }

  lemma LeaveFlags(s: Sched, id: ExecId)
    requires FlagsMatch(s) && MayStep(s, Leave(id))
    ensures FlagsMatch(JobStep(s, Leave(id)))
  {
    var t := JobStep(s, Leave(id));
    forall n | n in t.jobs && t.jobs[n].running
      ensures exists x | x in t.execs :: Holds(t.execs[x]) && t.execs[x].name == n
    {
      var x :| x in s.execs && Holds(s.execs[x]) && s.execs[x].name == n;
      assert x in t.execs;
    }
  }

  lemma LeaveGroup(s: Sched, id: ExecId)
    requires MayStep(s, Leave(id))
    ensures id in InGroup(s) && InGroup(JobStep(s, Leave(id))) == InGroup(s) - {id}
  {
  }

  lemma LeaveKeepsInv(s: Sched, id: ExecId)
    requires JobInv(s) && MayStep(s, Leave(id))
    ensures JobInv(JobStep(s, Leave(id)))
  {
    LeaveFlags(s, id);
    LeaveHolders(s, id);
    LeaveGroup(s, id);
  }

  lemma ReleaseKeepsInv(s: Sched, id: ExecId)
    requires JobInv(s) && MayStep(s, Release(id))
    ensures JobInv(JobStep(s, Release(id)))
  {
    var t := JobStep(s, Release(id));
    assert InGroup(t) == InGroup(s);
    forall n | n in t.jobs && t.jobs[n].running
      ensures exists x | x in t.execs :: Holds(t.execs[x]) && t.execs[x].name == n
    {
      var x :| x in s.execs && Holds(s.execs[x]) && s.execs[x].name == n;
      assert x in t.execs;
    }
  }

  lemma JobStepKeepsInv(s: Sched, e: JobEvent)
    requires JobInv(s) && MayStep(s, e)
    ensures JobInv(JobStep(s, e))
  {
    match e
    case Ticked(order, now) => if !s.stopped { ClaimDueKeepsInv(s, order, now); }
    case Triggered(name) => if TriggerCheck(s, name) == None { ClaimKeepsInv(s, name, true); }
    case Started(id) => AdvanceKeepsInv(s, id, Running);
    case Return(id, ok) => AdvanceKeepsInv(s, id, Returned(ok));
    case Record(id, at, next) => RecordKeepsInv(s, id, at, next);
    case Leave(id) => LeaveKeepsInv(s, id);
    case Release(id) => ReleaseKeepsInv(s, id);
    case Stop => assert InGroup(JobStep(s, e)) == InGroup(s);
    case WaitDone => assert InGroup(JobStep(s, e)) == InGroup(s);
  }

  // ---- runs ----

  /** A run from registered, idle jobs. */
  ghost predicate JobRun(states: seq<Sched>, events: seq<JobEvent>)
  {
    && |states| == |events| + 1
    && (exists jobs: map<string, Job> ::
      (forall n | n in jobs :: !jobs[n].running) && states[0] == Sched(jobs, false, 0, map[], 0, false))
    && forall i | 0 <= i < |events| :: MayStep(states[i], events[i]) && states[i + 1] == JobStep(states[i], events[i])
  }

  lemma {:induction false} JobRunInv(states: seq<Sched>, events: seq<JobEvent>, n: nat)
    requires JobRun(states, events) && n < |states|
    ensures JobInv(states[n])
  {
    if n == 0 {
      assert InGroup(states[0]) == {};
    } else {
      JobRunInv(states, events, n - 1);
      JobStepKeepsInv(states[n - 1], events[n - 1]);
    }
  }

  /** A claimed execution can run to its end, whatever else is in flight. */
  lemma ExecutionCompletes(s: Sched, id: ExecId, ok: bool, at: int, next: int)
    requires id in s.execs && s.execs[id].phase == Claimed && s.execs[id].name in s.jobs
    ensures var started, returned, recorded, left := Started(id), Return(id, ok), Record(id, at, next), Leave(id);
            && MayStep(s, started) && MayStep(JobStep(s, started), returned)
            && var a := JobStep(JobStep(s, started), returned);
               && MayStep(a, recorded) && MayStep(JobStep(a, recorded), left)
               && var b := JobStep(JobStep(a, recorded), left);
                  && b.wg == s.wg - 1
                  && (s.execs[id].manual ==> MayStep(b, Release(id)))
                  && var c := if s.execs[id].manual then JobStep(b, Release(id)) else b;
                     && c.execs == s.execs - {id} && !c.jobs[s.execs[id].name].running
                     && c.jobs == s.jobs[s.execs[id].name := c.jobs[s.execs[id].name]]
  {
  }

  /** Between claim and return. */
  predicate InFlight(x: Exec) { x.phase == Claimed || x.phase == Running || x.phase.Returned? }

  /**
   Safety of every run: at most one execution of a job is in flight, the WaitGroup counts every
   one that is, and a running job's flag is set.
   */
  lemma OneExecutionPerJob(states: seq<Sched>, events: seq<JobEvent>, n: nat)
    requires JobRun(states, events) && n < |states|
    ensures var s := states[n];
            && (forall a, b | a in s.execs && b in s.execs && InFlight(s.execs[a]) && InFlight(s.execs[b]) &&
              s.execs[a].name == s.execs[b].name :: a == b)
            && (forall a | a in s.execs && InFlight(s.execs[a]) ::
              a in InGroup(s) && s.execs[a].name in s.jobs && s.jobs[s.execs[a].name].running)
            && |InGroup(s)| == s.wg
  {
    JobRunInv(states, events, n);
  }

  /** Stopped, with nothing started since and no execution added. */
  predicate StoppedSince(s: Sched, started: nat, ids: set<ExecId>)
  {
    s.stopped && s.started == started && s.execs.Keys <= ids
  }

  lemma StepAfterStop(s: Sched, e: JobEvent, started: nat, ids: set<ExecId>)
    requires MayStep(s, e) && StoppedSince(s, started, ids)
    ensures StoppedSince(JobStep(s, e), started, ids)
  {
  }

  lemma RunAfterStop(states: seq<Sched>, events: seq<JobEvent>, i: nat, started: nat, ids: set<ExecId>)
    requires JobRun(states, events) && i < |events| && StoppedSince(states[i], started, ids)
    ensures StoppedSince(states[i + 1], started, ids)
  {
    var s, e := states[i], events[i];
    assert MayStep(s, e) && states[i + 1] == JobStep(s, e);
    StepAfterStop(s, e, started, ids);
  }

  /** After stop no claim succeeds: no step adds an execution, in that state or any later one. */
  lemma {:induction false} NoClaimAfterStop(states: seq<Sched>, events: seq<JobEvent>, n: nat, m: nat)
    requires JobRun(states, events) && n <= m < |states| && states[n].stopped
    ensures StoppedSince(states[m], states[n].started, states[n].execs.Keys)
  {
    if n < m {
      NoClaimAfterStop(states, events, n, m - 1);
      RunAfterStop(states, events, m - 1, states[n].started, states[n].execs.Keys);
    }
  }

  /** Once the wait completed, no job function is running or can start, ever after. */
  lemma {:induction false} QuietAfterWait(states: seq<Sched>, events: seq<JobEvent>, n: nat, m: nat)
    requires JobRun(states, events) && n <= m < |states| && states[n].waited
    ensures states[m].waited && forall id | id in states[m].execs :: !InFlight(states[m].execs[id])
  {
    if n < m {
      QuietAfterWait(states, events, n, m - 1);
      WaitedStays(states, events, m - 1);
    }
    JobRunInv(states, events, m);
    WaitedIsQuiet(states[m]);
  }

  lemma WaitedStays(states: seq<Sched>, events: seq<JobEvent>, i: nat)
    requires JobRun(states, events) && i < |events| && states[i].waited
    ensures states[i + 1].waited
  {
    assert MayStep(states[i], events[i]) && states[i + 1] == JobStep(states[i], events[i]);
    JobRunInv(states, events, i);
    StepAfterWait(states[i], events[i]);
  }

  lemma StepAfterWait(s: Sched, e: JobEvent)
    requires MayStep(s, e) && s.waited && s.stopped
    ensures JobStep(s, e).waited
  {
  }

  lemma WaitedIsQuiet(s: Sched)
    requires JobInv(s) && s.waited
    ensures forall id | id in s.execs :: !InFlight(s.execs[id])
  {
    forall id | id in s.execs ensures !InFlight(s.execs[id]) {
      assert id !in InGroup(s);
    }
  }
}
