/**
 Session revocation: a token carries the session epoch read at the start of its login and is
 accepted while that epoch is current. Logins, logouts and password changes interleave at every read and write.
 */
module Session {
  import opened Domain

  /** The stored epoch setting; a value that is not a plain number is refused by reads and by the bump. */
  datatype Setting = Absent | Number(n: nat) | Malformed

  function ReadEpoch(s: Setting): Option<nat>
  {
    match s
    case Absent => Some(0)
    case Number(n) => Some(n)
    case Malformed => None
  }

  /** bumpEpochSQL; None when no row comes back. */
  function Bump(s: Setting): Option<Setting>
  {
    match s
    case Absent => Some(Number(1))
    case Number(n) => Some(Number(n + 1))
    case Malformed => None
  }

  datatype Settings = Settings(epoch: Setting, hash: string)

  datatype ChangeError = ChangedConcurrently | EpochFailed

  /** ChangeAdminPassword: compare-and-set and bump in one transaction. */
  function ChangePassword(s: Settings, expected: string, new': string): Result<Settings, ChangeError>
  {
    if s.hash != expected then Err(ChangedConcurrently)
    else
      var e := Bump(s.epoch);
      if e == None then Err(EpochFailed) else Ok(Settings(e.value, new'))
  }

  class SettingsStore {
    var epoch: Setting
    var hash: string

    constructor (hash: string)
      ensures this.epoch == Absent && this.hash == hash
    {
      this.epoch, this.hash := Absent, hash;
    }

    method SessionEpoch() returns (e: Option<nat>)
      ensures e == ReadEpoch(epoch)
    {
      e := if epoch.Absent? then Some(0) else if epoch.Number? then Some(epoch.n) else None;
    }

    /** The version check of requireAuth: an epoch that cannot be read lets nobody in. */
    method RequireAuth(ver: nat) returns (ok: bool)
      ensures ok <==> epoch == Number(ver) || (epoch == Absent && ver == 0)
      ensures ok <==> ReadEpoch(epoch) == Some(ver)
    {
      var e := SessionEpoch();
      ok := e.Some? && e.value == ver;
    }

    method BumpSessionEpoch() returns (e: Option<nat>)
      modifies this`epoch
      ensures old(epoch) == Malformed ==> epoch == Malformed && e == None
      ensures old(epoch) == Absent ==> epoch == Number(1) && e == Some(1)
      ensures old(epoch).Number? ==> epoch == Number(old(epoch).n + 1) && e == Some(old(epoch).n + 1)
      ensures var b := Bump(old(epoch));
              epoch == (if b.Some? then b.value else old(epoch)) && e == if b.Some? then ReadEpoch(b.value) else None
    {
      if epoch.Malformed? { return None; }
      epoch := if epoch.Absent? then Number(1) else Number(epoch.n + 1);
      e := Some(epoch.n);
    }

    method ChangeAdminPassword(expected: string, new': string) returns (r: Option<ChangeError>)
      modifies this
      ensures r == Some(ChangedConcurrently) <==> old(hash) != expected
      ensures r == Some(EpochFailed) <==> old(hash) == expected && old(epoch) == Malformed
      ensures r.Some? ==> epoch == old(epoch) && hash == old(hash)
      ensures r == None ==>
                hash == new' && epoch == Number(1 + if old(epoch).Number? then old(epoch).n else 0)
      ensures var c := ChangePassword(Settings(old(epoch), old(hash)), expected, new');
              Settings(epoch, hash) == (if c.Ok? then c.value else Settings(old(epoch), old(hash))) &&
              r == if c.Ok? then None else Some(c.error)
    {
      if hash != expected { return Some(ChangedConcurrently); }
      var e := BumpSessionEpoch();
      if e == None { return Some(EpochFailed); }
      hash := new';
      r := None;
    }
  }

  // ---- the protocol ----

  /** A signed token: its version claim and, for the record, the hash its login verified against. */
  datatype Token = Token(ver: nat, verified: string)

  /** handleLogin between its steps: epoch read, then hash read, then password checked. */
  datatype Login = GotEpoch(epoch: nat) | GotHash(epoch: nat, hash: string) | Verified(epoch: nat, hash: string)

  /** handlePasswordChange after its check of the current password. */
  datatype Change = Change(old': string, new': string)

  datatype World = World(settings: Settings, logins: map<nat, Login>, changes: map<nat, Change>, tokens: set<Token>)

  datatype SessionEvent =
    | LoginReadsEpoch(id: nat)
    | LoginReadsHash(id: nat)
    | LoginChecks(id: nat, passed: bool)
    | LoginSigns(id: nat)
    | ChangeReads(id: nat, new': string)
    | ChangeCommits(id: nat)
    | Logout

  function SessionStep(w: World, e: SessionEvent): World
  {
    match e
    case LoginReadsEpoch(id) =>
      var epoch := ReadEpoch(w.settings.epoch);
      if epoch.Some? then w.(logins := w.logins[id := GotEpoch(epoch.value)]) else w.(logins := w.logins - {id})
    case LoginReadsHash(id) =>
      if id in w.logins && w.logins[id].GotEpoch? then
        w.(logins := w.logins[id := GotHash(w.logins[id].epoch, w.settings.hash)]) else w
    case LoginChecks(id, passed) =>
      if id !in w.logins || !w.logins[id].GotHash? then w
      else if passed then w.(logins := w.logins[id := Verified(w.logins[id].epoch, w.logins[id].hash)])
      else w.(logins := w.logins - {id})
    case LoginSigns(id) =>
      if id in w.logins && w.logins[id].Verified?
      then w.(tokens := w.tokens + {Token(w.logins[id].epoch, w.logins[id].hash)}, logins := w.logins - {id})
      else w
    case ChangeReads(id, new') => w.(changes := w.changes[id := Change(w.settings.hash, new')])
    case ChangeCommits(id) =>
      if id !in w.changes then w
      else
        var r := ChangePassword(w.settings, w.changes[id].old', w.changes[id].new');
        w.(changes := w.changes - {id}, settings := if r.Ok? then r.value else w.settings)
    case Logout =>
      var b := Bump(w.settings.epoch);
      w.(settings := w.settings.(epoch := if b.Some? then b.value else w.settings.epoch))
  }

  function SessionRun(w: World, es: seq<SessionEvent>): World
  {
    if es == [] then w else SessionStep(SessionRun(w, es[..|es| - 1]), es[|es| - 1])
  }

  /** requireAuth, for a token whose signature verifies. */
  predicate Accepted(w: World, t: Token) { ReadEpoch(w.settings.epoch) == Some(t.ver) }

  /** What was read under the current epoch is still current; nothing is ahead of it. */
  ghost predicate Covered(w: World, epoch: nat, hash: string)
  {
    var now := ReadEpoch(w.settings.epoch);
    now.Some? ==> epoch <= now.value && (epoch == now.value ==> hash == w.settings.hash)
  }

  ghost predicate SessionInv(w: World)
  {
    && (forall t | t in w.tokens :: Covered(w, t.ver, t.verified))
    && (forall id | id in w.logins ::
          match w.logins[id]
          case GotEpoch(e) => ReadEpoch(w.settings.epoch).Some? ==> e <= ReadEpoch(w.settings.epoch).value
          case GotHash(e, h) => Covered(w, e, h)
          case Verified(e, h) => Covered(w, e, h))
  }

  lemma SessionStepKeepsInv(w: World, e: SessionEvent)
    requires SessionInv(w)
    ensures SessionInv(SessionStep(w, e))
  {
  }

  lemma EpochGrows(w: World, e: SessionEvent)
    ensures var a, b := ReadEpoch(w.settings.epoch), ReadEpoch(SessionStep(w, e).settings.epoch);
            (a.Some? <==> b.Some?) && (a.Some? ==> a.value <= b.value) &&
            (SessionStep(w, e).settings.hash != w.settings.hash ==> a.Some? && a.value < b.value)
  {
  }

  lemma {:induction false} SessionRunInv(w: World, es: seq<SessionEvent>)
    requires SessionInv(w)
    ensures SessionInv(SessionRun(w, es))
    ensures var a, b := ReadEpoch(w.settings.epoch), ReadEpoch(SessionRun(w, es).settings.epoch);
            (a.Some? <==> b.Some?) && (a.Some? ==> a.value <= b.value)
  {
    if es != [] {
      SessionRunInv(w, es[..|es| - 1]);
      SessionStepKeepsInv(SessionRun(w, es[..|es| - 1]), es[|es| - 1]);
      EpochGrows(SessionRun(w, es[..|es| - 1]), es[|es| - 1]);
    }
  }

  /**
   Over every interleaving, a token that is accepted came from a login that verified its password
   against the hash stored now.
   */
  lemma AcceptedTokenIsCurrent(settings: Settings, es: seq<SessionEvent>, t: Token)
    requires var w := SessionRun(World(settings, map[], map[], {}), es); t in w.tokens && Accepted(w, t)
    ensures t.verified == SessionRun(World(settings, map[], map[], {}), es).settings.hash
  {
    SessionRunInv(World(settings, map[], map[], {}), es);
  }

  /**
   The event revokes what was issued before it: a logout, or the commit of a password change whose current password
   still stands, in a store whose epoch can be read.
   */
  predicate Revokes(w: World, e: SessionEvent)
  {
    && w.settings.epoch != Malformed
    && match e
       case Logout => true
       case ChangeCommits(id) => id in w.changes && w.changes[id].old' == w.settings.hash
       case _ => false
  }

  /** The epoch moves by exactly these events, by one, and the hash by exactly the password changes among them. */
  lemma EpochMovesIff(w: World, e: SessionEvent)
    ensures var t := SessionStep(w, e).settings;
            && (Revokes(w, e) ==> t.epoch == Number(1 + if w.settings.epoch.Number? then w.settings.epoch.n else 0))
            && (!Revokes(w, e) ==> t == w.settings)
            && (Revokes(w, e) ==> t.hash == if e.Logout? then w.settings.hash else w.changes[e.id].new')
  {
  }

  /**
   Revocation is final: after a logout or a committed password change, every token issued so far,
   and every token a login already under way will still obtain, is refused in all later states.
   */
  lemma RevocationIsFinal(w: World, e: SessionEvent, es: seq<SessionEvent>, t: Token)
    requires SessionInv(w) && Revokes(w, e)
    requires t in w.tokens || exists id | id in w.logins :: w.logins[id].epoch == t.ver
    ensures !Accepted(SessionRun(SessionStep(w, e), es), t)
  {
    SessionStepKeepsInv(w, e);
    EpochMovesIff(w, e);
    SessionRunInv(SessionStep(w, e), es);
  }

  /** The four steps of a login with the right password, undisturbed. */
  function LoginSteps(id: nat): seq<SessionEvent>
  {
    [LoginReadsEpoch(id), LoginReadsHash(id), LoginChecks(id, true), LoginSigns(id)]
  }

  lemma {:induction false} TokensStay(w: World, es: seq<SessionEvent>)
    ensures w.tokens <= SessionRun(w, es).tokens
  {
    if es != [] { TokensStay(w, es[..|es| - 1]); }
  }

  /** An undisturbed login with the right password yields a token, and it is accepted until something revokes it. */
  lemma LoginIsAccepted(w: World, id: nat, es: seq<SessionEvent>) returns (t: Token)
    requires w.settings.epoch != Malformed
    requires var x := SessionRun(w, LoginSteps(id)); SessionRun(x, es).settings.epoch == x.settings.epoch
    ensures var y := SessionRun(SessionRun(w, LoginSteps(id)), es); t in y.tokens && Accepted(y, t)
  {
    var epoch := ReadEpoch(w.settings.epoch).value;
    t := Token(epoch, w.settings.hash);
    var steps := LoginSteps(id);
    assert steps[..3] == [steps[0], steps[1], steps[2]] && steps[..3][..2] == [steps[0], steps[1]];
    assert steps[..3][..2][..1] == [steps[0]] && steps[..3][..2][..1][..0] == [];
    var a := SessionStep(w, steps[0]);
    var b := SessionStep(a, steps[1]);
    var c := SessionStep(b, steps[2]);
    assert SessionRun(w, [steps[0]]) == a by { assert [steps[0]][..0] == []; }
    assert SessionRun(w, steps[..3][..2]) == b && SessionRun(w, steps[..3]) == c;
    assert t in SessionRun(w, steps).tokens;
    TokensStay(SessionRun(w, steps), es);
  }

  /** The password check of this login was passed. */
  predicate Passed(es: seq<SessionEvent>, id: nat) { exists e | e in es :: e == LoginChecks(id, true) }

  ghost predicate OnlyPassed(w: World, es: seq<SessionEvent>)
  {
    && (forall id | id in w.logins && w.logins[id].Verified? :: Passed(es, id))
    && (w.tokens != {} ==> exists id :: Passed(es, id))
  }

  /** Without a passed password check no token is ever issued. */
  lemma {:induction false} TokensNeedAPassedCheck(settings: Settings, es: seq<SessionEvent>)
    ensures OnlyPassed(SessionRun(World(settings, map[], map[], {}), es), es)
  {
    if es != [] {
      var n := |es| - 1;
      var w := SessionRun(World(settings, map[], map[], {}), es[..n]);
      TokensNeedAPassedCheck(settings, es[..n]);
      forall id | Passed(es[..n], id) ensures Passed(es, id) {
        assert LoginChecks(id, true) in es[..n];
        assert LoginChecks(id, true) in es;
      }
      assert es[n] in es;
    }
  }
}
