/**
 What the answers of the authentication service promise over whole runs: which requests are let
 through, what is in the table for a token handed out, and what a logout or a denied replay leaves behind.
 */
module AuthAnswers {
  import opened AuthService
  import opened Options
  import opened TokenStore

  /** Step `j` of the run is the first step of the request `r`. */
  ghost predicate Enters(run: seq<System>, acts: seq<Action>, ttl: nat, j: nat, r: nat) {
    && IsRun(run, acts, ttl) && run[0] == START
    && j < |acts| && acts[j].Advance? && acts[j].r == r && IsEntry(run[j].requests[r])
  }

  /** One step of the run, as the request `r` sees it. */
  lemma StepOf(run: seq<System>, acts: seq<Action>, ttl: nat, i: nat, r: nat)
    requires IsRun(run, acts, ttl) && i < |acts| && r in run[i].requests
    ensures r in run[i + 1].requests
    ensures if acts[i].Advance? && acts[i].r == r
        then !run[i].requests[r].Done? && (run[i + 1].store, run[i + 1].requests[r])
             == RequestStep(run[i].store, run[i].requests[r], acts[i].env, ttl)
        else run[i + 1].requests[r] == run[i].requests[r]
  {
  }

  lemma HashesAreUnique(run: seq<System>, acts: seq<Action>, ttl: nat, i: nat)
    requires IsRun(run, acts, ttl) && run[0] == START && i <= |acts|
    ensures UniqueHashes(run[i].store)
  {
    RunKeepsInv(run, acts, ttl, i);
  }

  // ------------------------------------------------------------ logging out

  /** In `s'` every row that held the token in `s` is revoked. */
  ghost predicate RevokedSince(s: Store, s': Store, token: string) {
    forall x {:trigger HoldsToken(s, x, token)} | HoldsToken(s, x, token) :: x in s' && s'[x].revokedAt.Some?
  }

  /** The lookup changes nothing and tells an unknown token from a known one. */
  lemma LogoutLooksUp(s: Store, token: string, e: Env, ttl: nat)
    requires UniqueHashes(s)
    ensures var (s', pc) := RequestStep(s, LogoutStart(token), e, ttl);
      && s' == s
      && (pc == Done(LoggedOut) <==> token == "" || (e.fault.NoFault? && !Known(s, token)))
      && (pc == Done(Internal) <==> token != "" && !e.fault.NoFault?)
      && (pc.Done? || (pc.LoggingOut? && HoldsToken(s, pc.id, token)))
  {
  }

  /** The step that revokes touches the one row, or nothing when it is lost, and answers LoggedOut
      exactly when it is acknowledged. */
  lemma LogoutRevokesOnly(s: Store, id: Id, e: Env, ttl: nat)
    requires id in s
    ensures var (s', pc) := RequestStep(s, LoggingOut(id), e, ttl);
      && (if e.fault.LostBefore? then s' == s else RevokesOnly(s, s', id, e.now))
      && pc == if e.fault.NoFault? then Done(LoggedOut) else Done(Internal)
  {
  }

  ghost predicate LogoutSound(s: Store, s': Store, token: string, pc: Pc) {
    || (pc.LoggingOut? && token != "" && HoldsToken(s, pc.id, token) && pc.id in s')
    || pc == Done(Internal)
    || (pc == Done(LoggedOut) && (token == "" || RevokedSince(s, s', token)))
  }

  /** Other requests cannot undo a logout. */
  lemma LogoutStaysSound(s: Store, now: Store, now': Store, token: string, pc: Pc)
    requires LogoutSound(s, now, token, pc) && Grows(now, now')
    ensures LogoutSound(s, now', token, pc)
  {
    if pc.LoggingOut? {
      assert RowGrows(now, now', pc.id);
    } else if token != "" && RevokedSince(s, now, token) {
      forall x | HoldsToken(s, x, token) ensures x in now' && now'[x].revokedAt.Some? {
        assert RowGrows(now, now', x);
      }
    }
  }

  lemma LogoutAdvances(s: Store, now: Store, token: string, pc: Pc, e: Env, ttl: nat)
    requires UniqueHashes(s) && LogoutSound(s, now, token, pc) && !pc.Done?
    ensures var (now', pc') := RequestStep(now, pc, e, ttl); LogoutSound(s, now', token, pc')
  {
    LogoutRevokesOnly(now, pc.id, e, ttl);
    assert forall x | HoldsToken(s, x, token) :: x == pc.id;
  }

  lemma LogoutStep(run: seq<System>, acts: seq<Action>, ttl: nat, i: nat, r: nat, s: Store, token: string)
    requires IsRun(run, acts, ttl) && run[0] == START && i < |acts| && r in run[i].requests
    requires UniqueHashes(s) && LogoutSound(s, run[i].store, token, run[i].requests[r])
    ensures r in run[i + 1].requests && LogoutSound(s, run[i + 1].store, token, run[i + 1].requests[r])
  {
    StepOf(run, acts, ttl, i, r);
    if acts[i].Advance? && acts[i].r == r {
      LogoutAdvances(s, run[i].store, token, run[i].requests[r], acts[i].env, ttl);
    } else {
      WriteOnce(run, acts, ttl, i, i + 1);
      LogoutStaysSound(s, run[i].store, run[i + 1].store, token, run[i].requests[r]);
    }
  }

  lemma {:induction false} LogoutInProgress(run: seq<System>, acts: seq<Action>, ttl: nat, j: nat, i: nat, r: nat)
    requires Enters(run, acts, ttl, j, r) && run[j].requests[r].LogoutStart? && j < i <= |acts|
    ensures r in run[i].requests
    ensures LogoutSound(run[j].store, run[i].store, run[j].requests[r].token, run[i].requests[r])
    decreases i
  {
    HashesAreUnique(run, acts, ttl, j);
    if i == j + 1 {
      StepOf(run, acts, ttl, j, r);
      LogoutLooksUp(run[j].store, run[j].requests[r].token, acts[j].env, ttl);
    } else {
      LogoutInProgress(run, acts, ttl, j, i - 1, r);
      LogoutStep(run, acts, ttl, i - 1, r, run[j].store, run[j].requests[r].token);
    }
  }

  /** Over any run, whatever else happens in between: once a logout has answered LoggedOut, every row that
      held its token when it looked the token up is revoked, and stays so. */
  lemma LoggedOutMeansRevoked(run: seq<System>, acts: seq<Action>, ttl: nat, j: nat, i: nat, k: nat, r: nat)
    requires Enters(run, acts, ttl, j, r) && run[j].requests[r].LogoutStart? && j < i <= k <= |acts|
    requires r in run[i].requests && run[i].requests[r] == Done(LoggedOut) && run[j].requests[r].token != ""
    ensures RevokedSince(run[j].store, run[k].store, run[j].requests[r].token)
  {
    DoneIsFinal(run, acts, ttl, i, k, r);
    LogoutInProgress(run, acts, ttl, j, k, r);
  }

  // ------------------------------------------------------------ one step that issues a token

  predicate IsIssued(pc: Pc) {
    pc.Done? && pc.result.Issued?
  }

  lemma InsertIssues(s: Store, u: string, ua: string, ip: string, e: Env, ttl: nat)
    ensures var (s', pc) := RequestStep(s, Issuing(u, ua, ip, None), e, ttl);
      && (forall raw, exp :: pc == Done(Issued(raw, exp)) <==> Stores(s, e, raw) && exp == e.now + ttl)
      && (IsIssued(pc)
          ==> AddsToken(s, s', e.minted.id, u, pc.result.refreshToken, e.now, pc.result.expiresAt, ua, ip))
      && (!IsIssued(pc) ==> pc == Done(Internal) && (!e.fault.LostAfter? ==> s' == s))
  {
  }

  lemma RotateIssues(s: Store, u: string, ua: string, ip: string, prev: Presented, e: Env, ttl: nat)
    ensures var (s', pc) := RequestStep(s, Issuing(u, ua, ip, Some(prev)), e, ttl);
      && (forall raw, exp ::
            pc == Done(Issued(raw, exp)) <==> Replaceable(s, prev.id) && Stores(s, e, raw) && exp == e.now + ttl)
      && (IsIssued(pc)
          ==> ReplacesToken(s, s', prev.id, e.minted.id, u, pc.result.refreshToken, e.now, pc.result.expiresAt, ua, ip))
      && (!IsIssued(pc) && !e.fault.LostAfter? ==> s' == s)
  {
  }

  /** Past its first step, and not logging out. */
  predicate UnderWay(pc: Pc) {
    pc.Burning? || pc.Done? || pc.Issuing?
  }

  /** At step `m` the request `r`, let through before, has its token `raw` stored. */
  ghost predicate StoresAt(run: seq<System>, acts: seq<Action>, m: nat, r: nat, raw: string)
    requires m < |acts| < |run|
  {
    && acts[m].Advance? && acts[m].r == r && r in run[m].requests
    && var pc, s := run[m].requests[r], run[m].store;
       pc.Issuing? && (pc.rotateFrom.Some? ==> Replaceable(s, pc.rotateFrom.value.id)) && Stores(s, acts[m].env, raw)
  }

  ghost predicate StoredBetween(run: seq<System>, acts: seq<Action>, ttl: nat, j: nat, i: nat, r: nat, raw: string,
          exp: Time)
    requires i <= |acts| < |run|
  {
    exists m: nat :: j < m < i && StoresAt(run, acts, m, r, raw) && exp == acts[m].env.now + ttl
  }

  /** What one more step of the run adds. */
  lemma StoredLater(run: seq<System>, acts: seq<Action>, ttl: nat, j: nat, i: nat, r: nat, raw: string, exp: Time)
    requires IsRun(run, acts, ttl) && j < i < |acts|
    ensures StoredBetween(run, acts, ttl, j, i + 1, r, raw, exp)
       <==> StoredBetween(run, acts, ttl, j, i, r, raw, exp)
            || (StoresAt(run, acts, i, r, raw) && exp == acts[i].env.now + ttl)
  {
  }

  /** Past its first step a request comes to a token by no other step than the one that stores it. */
  lemma IssuedByStep(run: seq<System>, acts: seq<Action>, ttl: nat, i: nat, r: nat, raw: string, exp: Time)
    requires IsRun(run, acts, ttl) && i < |acts| && r in run[i].requests
    requires UnderWay(run[i].requests[r])
    ensures r in run[i + 1].requests
    ensures run[i + 1].requests[r] == Done(Issued(raw, exp))
       <==> run[i].requests[r] == Done(Issued(raw, exp))
            || (StoresAt(run, acts, i, r, raw) && exp == acts[i].env.now + ttl)
  {
    StepOf(run, acts, ttl, i, r);
    var pc := run[i].requests[r];
    if acts[i].Advance? && acts[i].r == r && pc.Issuing? {
      if pc.rotateFrom.None? {
        InsertIssues(run[i].store, pc.userId, pc.userAgent, pc.ip, acts[i].env, ttl);
      } else {
        RotateIssues(run[i].store, pc.userId, pc.userAgent, pc.ip, pc.rotateFrom.value, acts[i].env, ttl);
      }
    }
  }

  // ------------------------------------------------------------ logging in

  /** What a login has come to after its credentials step. */
  ghost predicate LoginAnswered(run: seq<System>, acts: seq<Action>, ttl: nat, j: nat, i: nat, r: nat)
    requires Enters(run, acts, ttl, j, r) && run[j].requests[r].LoginStart? && j < i <= |acts| && r in run[i].requests
  {
    var LoginStart(ua, ip) := run[j].requests[r];
    var pc, c := run[i].requests[r], acts[j].env.credentials;
    && (pc == Done(Denied(InvalidCredentials)) <==> c.Rejected?)
    && (c.CheckFailed? ==> pc == Done(Internal))
    && (c.Accepted? ==> pc == Issuing(c.userId, ua, ip, None) || IsIssued(pc) || pc == Done(Internal))
    && (IsIssued(pc) ==> c.Accepted?)
  }

  /** Over any run a login is denied if and only if its credentials were rejected, and goes on to a token,
      for the user they belong to, only if they were accepted. */
  lemma {:induction false} LoginAnswers(run: seq<System>, acts: seq<Action>, ttl: nat, j: nat, i: nat, r: nat)
    requires Enters(run, acts, ttl, j, r) && run[j].requests[r].LoginStart? && j < i <= |acts|
    ensures r in run[i].requests && LoginAnswered(run, acts, ttl, j, i, r)
    ensures run[j + 1].store == run[j].store
    decreases i
  {
    if i == j + 1 {
      StepOf(run, acts, ttl, j, r);
    } else {
      LoginAnswers(run, acts, ttl, j, i - 1, r);
      StepOf(run, acts, ttl, i - 1, r);
      var pc := run[i - 1].requests[r];
      if pc.Issuing? && acts[i - 1].Advance? {
        InsertIssues(run[i - 1].store, pc.userId, pc.userAgent, pc.ip, acts[i - 1].env, ttl);
      }
    }
  }

  /** And it hands out the token `raw` if and only if its credentials were accepted and, at its next step,
      the storage took that token. */
  lemma {:induction false} LoginIssuesIff(run: seq<System>, acts: seq<Action>, ttl: nat, j: nat, i: nat, r: nat,
          raw: string, exp: Time)
    requires Enters(run, acts, ttl, j, r) && run[j].requests[r].LoginStart? && j < i <= |acts|
    ensures r in run[i].requests
    ensures run[i].requests[r] == Done(Issued(raw, exp))
       <==> acts[j].env.credentials.Accepted? && StoredBetween(run, acts, ttl, j, i, r, raw, exp)
    decreases i
  {
    if i == j + 1 {
      StepOf(run, acts, ttl, j, r);
    } else {
      LoginIssuesIff(run, acts, ttl, j, i - 1, r, raw, exp);
      LoginAnswers(run, acts, ttl, j, i - 1, r);
      StoredLater(run, acts, ttl, j, i - 1, r, raw, exp);
      IssuedByStep(run, acts, ttl, i - 1, r, raw, exp);
    }
  }

  /** That step adds the one row of the accepted user and the new token, and changes no other. */
  lemma LoginAddsItsRow(run: seq<System>, acts: seq<Action>, ttl: nat, j: nat, m: nat, r: nat, raw: string)
    requires Enters(run, acts, ttl, j, r) && run[j].requests[r].LoginStart? && j < m < |acts|
    requires StoresAt(run, acts, m, r, raw)
    ensures acts[j].env.credentials.Accepted?
    ensures var LoginStart(ua, ip) := run[j].requests[r];
      var e := acts[m].env;
      && run[m + 1].requests[r] == Done(Issued(raw, e.now + ttl))
      && AddsToken(run[m].store, run[m + 1].store, e.minted.id, acts[j].env.credentials.userId, raw, e.now,
                   e.now + ttl, ua, ip)
  {
    LoginAnswers(run, acts, ttl, j, m, r);
    var pc := run[m].requests[r];
    InsertIssues(run[m].store, pc.userId, pc.userAgent, pc.ip, acts[m].env, ttl);
  }

  // ------------------------------------------------------------ refreshing

  /** The presented token may be exchanged, as far as the lookup can tell. */
  predicate LetThrough(s: Store, token: string, e: Env, id: Id) {
    token != "" && e.fault.NoFault? && HoldsToken(s, id, token) && s[id].revokedAt.None? && e.now < s[id].expiresAt
  }

  /** The presented token's row is revoked. */
  predicate SeenRevoked(s: Store, token: string, e: Env, id: Id) {
    token != "" && e.fault.NoFault? && HoldsToken(s, id, token) && s[id].revokedAt.Some?
  }

  /** What a refresh has come to after its lookup in `s`. */
  ghost predicate RefreshAnswered(s: Store, start: Pc, e: Env, pc: Pc)
    requires start.RefreshStart?
  {
    var RefreshStart(token, ua, ip) := start;
    && (pc.Issuing? ==>
          && pc.rotateFrom.Some? && LetThrough(s, token, e, pc.rotateFrom.value.id)
          && pc == Issuing(s[pc.rotateFrom.value.id].userId, ua, ip, Some(Presented(pc.rotateFrom.value.id, e.now))))
    && (pc.Burning? ==> HoldsToken(s, pc.id, token) && pc.startedAt == e.now)
    && (IsIssued(pc) ==> exists id :: LetThrough(s, token, e, id))
    && UnderWay(pc)
  }

  lemma RefreshLooksUp(s: Store, start: Pc, e: Env, ttl: nat)
    requires start.RefreshStart? && UniqueHashes(s)
    ensures var (s', pc) := RequestStep(s, start, e, ttl);
      && s' == s && RefreshAnswered(s, start, e, pc) && !IsIssued(pc) && pc != Done(Denied(Replayed))
      && (pc.Issuing? <==> exists id :: LetThrough(s, start.token, e, id))
      && (pc.Burning? <==> exists id :: SeenRevoked(s, start.token, e, id))
  {
    var pc := RequestStep(s, start, e, ttl).1;
    assert pc.Issuing? ==> LetThrough(s, start.token, e, pc.rotateFrom.value.id);
    assert pc.Burning? ==> SeenRevoked(s, start.token, e, pc.id);
    forall id | LetThrough(s, start.token, e, id) || SeenRevoked(s, start.token, e, id)
      ensures FindByHashOp(s, Sha256(start.token)) == Some(id)
    {
    }
  }

  lemma RefreshEnters(run: seq<System>, acts: seq<Action>, ttl: nat, j: nat, r: nat)
    requires Enters(run, acts, ttl, j, r) && run[j].requests[r].RefreshStart?
    ensures r in run[j + 1].requests && run[j + 1].store == run[j].store
    ensures var pc := run[j + 1].requests[r];
      && RefreshAnswered(run[j].store, run[j].requests[r], acts[j].env, pc)
      && !IsIssued(pc) && pc != Done(Denied(Replayed))
  {
    HashesAreUnique(run, acts, ttl, j);
    StepOf(run, acts, ttl, j, r);
    RefreshLooksUp(run[j].store, run[j].requests[r], acts[j].env, ttl);
  }

  /** What a refresh remembers stays true of its lookup. */
  lemma RefreshGoesOn(run: seq<System>, acts: seq<Action>, ttl: nat, i: nat, r: nat, s: Store, start: Pc, e: Env)
    requires IsRun(run, acts, ttl) && i < |acts| && r in run[i].requests && start.RefreshStart?
    requires RefreshAnswered(s, start, e, run[i].requests[r])
    ensures r in run[i + 1].requests && RefreshAnswered(s, start, e, run[i + 1].requests[r])
  {
    StepOf(run, acts, ttl, i, r);
  }

  lemma {:induction false} RefreshAnswers(run: seq<System>, acts: seq<Action>, ttl: nat, j: nat, i: nat, r: nat)
    requires Enters(run, acts, ttl, j, r) && run[j].requests[r].RefreshStart? && j < i <= |acts|
    ensures r in run[i].requests && RefreshAnswered(run[j].store, run[j].requests[r], acts[j].env, run[i].requests[r])
    ensures run[j + 1].store == run[j].store
    decreases i
  {
    RefreshEnters(run, acts, ttl, j, r);
    if i > j + 1 {
      RefreshAnswers(run, acts, ttl, j, i - 1, r);
      RefreshGoesOn(run, acts, ttl, i - 1, r, run[j].store, run[j].requests[r], acts[j].env);
    }
  }

  /** Over any run a refresh hands out the token `raw` if and only if the presented token's row was active
      and in time at its lookup and, at its next step, still was not exchanged and the storage took `raw`. */
  lemma {:induction false} RefreshIssuesIff(run: seq<System>, acts: seq<Action>, ttl: nat, j: nat, i: nat, r: nat,
          raw: string, exp: Time)
    requires Enters(run, acts, ttl, j, r) && run[j].requests[r].RefreshStart? && j < i <= |acts|
    ensures r in run[i].requests
    ensures run[i].requests[r] == Done(Issued(raw, exp)) <==> StoredBetween(run, acts, ttl, j, i, r, raw, exp)
    decreases i
  {
    if i == j + 1 {
      RefreshEnters(run, acts, ttl, j, r);
    } else {
      RefreshIssuesIff(run, acts, ttl, j, i - 1, r, raw, exp);
      RefreshAnswers(run, acts, ttl, j, i - 1, r);
      StoredLater(run, acts, ttl, j, i - 1, r, raw, exp);
      IssuedByStep(run, acts, ttl, i - 1, r, raw, exp);
    }
  }

  /** That step adds the one row of the new token, for the user of the presented one, whose row it revokes
      and links to the new one; no other row changes. */
  lemma RefreshAddsItsRow(run: seq<System>, acts: seq<Action>, ttl: nat, j: nat, m: nat, r: nat, raw: string)
    returns (prev: Id)
    requires Enters(run, acts, ttl, j, r) && run[j].requests[r].RefreshStart? && j < m < |acts|
    requires StoresAt(run, acts, m, r, raw)
    ensures LetThrough(run[j].store, run[j].requests[r].token, acts[j].env, prev)
    ensures var RefreshStart(token, ua, ip) := run[j].requests[r];
      var e := acts[m].env;
      && run[m + 1].requests[r] == Done(Issued(raw, e.now + ttl))
      && ReplacesToken(run[m].store, run[m + 1].store, prev, e.minted.id, run[j].store[prev].userId, raw, e.now,
                       e.now + ttl, ua, ip)
  {
    RefreshAnswers(run, acts, ttl, j, m, r);
    var pc := run[m].requests[r];
    prev := pc.rotateFrom.value.id;
    RotateIssues(run[m].store, pc.userId, pc.userAgent, pc.ip, pc.rotateFrom.value, acts[m].env, ttl);
  }

  // ------------------------------------------------------------ a refresh that runs alone

  /** From `s` to `s'` every row linked to `id`, in either direction over any number of links, is revoked,
      at `now` unless it was before; no other row changes in any way. */
  ghost predicate BurnsOnly(s: Store, s': Store, id: Id, now: Time) {
    && s'.Keys == s.Keys
    && forall x | x in s ::
         s'[x] == if s[x].revokedAt.None? && (Reaches(s, id, x) || Reaches(s, x, id)) then s[x].(revokedAt := Some(now))
                  else s[x]
  }

  lemma BurningBurnsOnly(s: Store, id: Id, startedAt: Time, e: Env, ttl: nat)
    requires id in s
    ensures var (s', pc) := RequestStep(s, Burning(id, startedAt), e, ttl);
      && (if e.fault.LostBefore? then s' == s else BurnsOnly(s, s', id, startedAt))
      && pc == if e.fault.NoFault? then Done(Denied(Replayed)) else Done(Internal)
  {
  }

  /** What one undisturbed refresh answers and what it does to the table, case by case: which token it
      hands out and for whom, and what it revokes. */
  ghost predicate RefreshDone(s: Store, s': Store, result: Result, start: Pc, e0: Env, e1: Env, e2: Env, ttl: nat)
    requires start.RefreshStart?
  {
    var RefreshStart(token, ua, ip) := start;
    && (result == Denied(InvalidCredentials) ==> s' == s && InvalidAtLookup(s, token, e0))
    && (result == Denied(Expired) ==> s' == s && ExpiredAtLookup(s, token, e0))
    && (result == Denied(Replayed) ==> exists id :: HoldsToken(s, id, token) && BurnsOnly(s, s', id, e0.now))
    && (result.Issued? ==>
          && Stores(s, e1, result.refreshToken) && result.expiresAt == e1.now + ttl
          && exists id :: LetThrough(s, token, e0, id)
               && ReplacesToken(s, s', id, e1.minted.id, s[id].userId, result.refreshToken, e1.now, e1.now
                   + ttl, ua, ip))
    && result != LoggedOut && result != TokenVanished
  }

  lemma BurningAlone(s: Store, pc: Pc, start: Pc, e0: Env, e1: Env, e2: Env, burn: Env, ttl: nat)
    requires start.RefreshStart? && pc.Burning? && HoldsToken(s, pc.id, start.token) && pc.startedAt == e0.now
    ensures var (s', pc') := RequestStep(s, pc, burn, ttl);
      pc'.Done? && RefreshDone(s, s', pc'.result, start, e0, e1, e2, ttl)
  {
    BurningBurnsOnly(s, pc.id, pc.startedAt, burn, ttl);
  }

  lemma IssuingAlone(s: Store, pc: Pc, start: Pc, e0: Env, e1: Env, e2: Env, ttl: nat)
    requires start.RefreshStart? && pc.Issuing? && RefreshAnswered(s, start, e0, pc)
    ensures var (s', pc') := RequestStep(s, pc, e1, ttl);
      && (pc'.Burning? ==> s' == s && pc' == Burning(pc.rotateFrom.value.id, e0.now))
      && (pc'.Burning? || (pc'.Done? && RefreshDone(s, s', pc'.result, start, e0, e1, e2, ttl)))
  {
    RotateIssues(s, pc.userId, pc.userAgent, pc.ip, pc.rotateFrom.value, e1, ttl);
  }

  /** The method is these steps (see AuthService.Refresh). */
  lemma RefreshAlone(s: Store, s': Store, result: Result, start: Pc, e0: Env, e1: Env, e2: Env, ttl: nat)
    requires UniqueHashes(s) && start.RefreshStart?
    requires (s', Done(result)) == Then(Then(Then((s, start), e0, ttl), e1, ttl), e2, ttl)
    ensures RefreshDone(s, s', result, start, e0, e1, e2, ttl)
  {
    var pc1 := RequestStep(s, start, e0, ttl).1;
    RefreshLooksUp(s, start, e0, ttl);
    if pc1.Issuing? {
      var pc2 := RequestStep(s, pc1, e1, ttl).1;
      IssuingAlone(s, pc1, start, e0, e1, e2, ttl);
      if pc2.Burning? {
        BurningAlone(s, pc2, start, e0, e1, e2, e2, ttl);
      }
    } else if pc1.Burning? {
      BurningAlone(s, pc1, start, e0, e1, e2, e1, ttl);
    } else {
      LookupAnswers(s, start.token, start.userAgent, start.ip, e0, ttl);
    }
  }

  // ------------------------------------------------------------ denied replays

  /** The family of every row that held the token is revoked. */
  ghost predicate FamilyRevoked(s: Store, st: System, token: string) {
    forall x {:trigger HoldsToken(s, x, token)} | HoldsToken(s, x, token) ::
      x in st.origin && AllRevoked(st.store, Family(st, x))
  }

  lemma BurntBy(run: seq<System>, acts: seq<Action>, ttl: nat, i: nat, k: nat, r: nat, s: Store, token: string)
    requires IsRun(run, acts, ttl) && run[0] == START && i < k <= |acts| && UniqueHashes(s)
    requires acts[i].Advance? && acts[i].r == r && r in run[i].requests && run[i].requests[r].Burning?
    requires HoldsToken(s, run[i].requests[r].id, token) && run[i + 1].requests[r] == Done(Denied(Replayed))
    ensures FamilyRevoked(s, run[k], token)
  {
    StepOf(run, acts, ttl, i, r);
    BurnIsForever(run, acts, ttl, i, k);
    assert forall x | HoldsToken(s, x, token) :: x == run[i].requests[r].id;
  }

  /** Past its lookup a refresh is denied as a replay by no other step than an acknowledged burning. */
  lemma ReplayedByStep(run: seq<System>, acts: seq<Action>, ttl: nat, i: nat, r: nat)
    requires IsRun(run, acts, ttl) && i < |acts| && r in run[i].requests
    requires UnderWay(run[i].requests[r])
    ensures r in run[i + 1].requests && UnderWay(run[i + 1].requests[r])
    ensures run[i + 1].requests[r] == Done(Denied(Replayed))
       <==> run[i].requests[r] == Done(Denied(Replayed))
            || (acts[i].Advance? && acts[i].r == r && run[i].requests[r].Burning? && acts[i].env.fault.NoFault?)
  {
    StepOf(run, acts, ttl, i, r);
  }

  /** The step at which it was. */
  lemma {:induction false} BurningStep(run: seq<System>, acts: seq<Action>, ttl: nat, k: nat, i: nat, r: nat)
    returns (m: nat)
    requires IsRun(run, acts, ttl) && k <= i <= |acts| && r in run[k].requests && UnderWay(run[k].requests[r])
    requires run[k].requests[r] != Done(Denied(Replayed))
    requires r in run[i].requests && run[i].requests[r] == Done(Denied(Replayed))
    ensures k <= m < i && acts[m].Advance? && acts[m].r == r && r in run[m].requests && run[m].requests[r].Burning?
    ensures r in run[m + 1].requests && run[m + 1].requests[r] == Done(Denied(Replayed))
    decreases i - k
  {
    ReplayedByStep(run, acts, ttl, k, r);
    if run[k + 1].requests[r] == Done(Denied(Replayed)) {
      m := k;
    } else {
      m := BurningStep(run, acts, ttl, k + 1, i, r);
    }
  }

  /** Over any run, once a refresh has been denied as a replay, the whole family of the token it presented
      is revoked, and stays so. */
  lemma ReplayedMeansBurned(run: seq<System>, acts: seq<Action>, ttl: nat, j: nat, i: nat, k: nat, r: nat)
    requires Enters(run, acts, ttl, j, r) && run[j].requests[r].RefreshStart? && j < i <= k <= |acts|
    requires r in run[i].requests && run[i].requests[r] == Done(Denied(Replayed))
    ensures FamilyRevoked(run[j].store, run[k], run[j].requests[r].token)
  {
    HashesAreUnique(run, acts, ttl, j);
    RefreshEnters(run, acts, ttl, j, r);
    var m := BurningStep(run, acts, ttl, j + 1, i, r);
    RefreshAnswers(run, acts, ttl, j, m, r);
    BurntBy(run, acts, ttl, m, k, r, run[j].store, run[j].requests[r].token);
  }
}
