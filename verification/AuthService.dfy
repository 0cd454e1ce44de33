/**
 The authentication service as a concurrent protocol over the token table.

 A request is a program counter (`Pc`) that advances one repository call at a time, so any
 number of requests can interleave between calls. `RequestStep` is the program of one request.
 `AuthService`, at the end, is the same program written as methods over a repository object
 and proved to be those steps run back to back.
 */
module AuthService {
  import opened Faults
  import opened Options
  import opened TokenStore

  datatype Denial = InvalidCredentials | Expired | Replayed

  datatype Result =
    | Issued(refreshToken: string, expiresAt: Time)
    | Denied(why: Denial)
    | TokenVanished
    | LoggedOut
    | Internal

  /** The row a refresh presented, with the clock reading it started from. */
  datatype Presented = Presented(id: Id, startedAt: Time)

  datatype Pc =
    | LoginStart(userAgent: string, ip: string)
    | RefreshStart(token: string, userAgent: string, ip: string)
    | LogoutStart(token: string)
    | Issuing(userId: string, userAgent: string, ip: string, rotateFrom: Option<Presented>)
    | Burning(id: Id, startedAt: Time)
    | LoggingOut(id: Id)
    | Done(result: Result)

  /** The outcome of the credential checks, which never touch the token table. */
  datatype Credentials = Accepted(userId: string) | Rejected | CheckFailed

  /** The random values issueTokens draws: they need not be fresh, the table's constraints decide. */
  datatype Minted = Minted(id: Id, raw: string) | MintFailed

  /** What the outside world answers during one step. */
  datatype Env = Env(now: Time, fault: Fault, minted: Minted, credentials: Credentials)

  function Optional(s: string): Option<string> {
    if s == "" then None else Some(s)
  }

  function NewRow(userId: string, userAgent: string, ip: string, raw: string, now: Time, ttl: nat): Row {
    Row(userId, Sha256(raw), now, now + ttl, None, None, Optional(userAgent), Optional(ip))
  }

  ghost function RequestStep(s: Store, pc: Pc, e: Env, ttl: nat): (Store, Pc)
    requires !pc.Done?
  {
    match pc
    case LoginStart(ua, ip) =>
      (match e.credentials
       case Accepted(u) => (s, Issuing(u, ua, ip, None))
       case Rejected => (s, Done(Denied(InvalidCredentials)))
       case CheckFailed => (s, Done(Internal)))
    case RefreshStart(token, ua, ip) =>
      if token == "" then (s, Done(Denied(InvalidCredentials)))
      else if !e.fault.NoFault? then (s, Done(Internal))
      else
        (match FindByHashOp(s, Sha256(token))
         case None => (s, Done(Denied(InvalidCredentials)))
         case Some(id) =>
           if s[id].revokedAt.Some? then (s, Burning(id, e.now))
           else if s[id].expiresAt <= e.now then (s, Done(Denied(Expired)))
           else (s, Issuing(s[id].userId, ua, ip, Some(Presented(id, e.now)))))
    case Issuing(userId, ua, ip, rotateFrom) =>
      if e.minted.MintFailed? then (s, Done(Internal))
      else
        var row := NewRow(userId, ua, ip, e.minted.raw, e.now, ttl);
        (match rotateFrom
         case None =>
           var (s', reply) := InsertOp(s, e.minted.id, row, e.fault);
           (s', Done(if reply.Ok? then Issued(e.minted.raw, row.expiresAt) else Internal))
         case Some(prev) =>
           var (s', reply) := RotateOp(s, prev.id, e.minted.id, row, e.now, e.fault);
           (s', match reply
                case Ok => Done(Issued(e.minted.raw, row.expiresAt))
                case AlreadyRevoked => Burning(prev.id, prev.startedAt)
                case NotFound => Done(TokenVanished)
                case StorageError => Done(Internal)))
    case Burning(id, startedAt) =>
      var (s', reply) := RevokeFamilyOp(s, id, startedAt, e.fault);
      (s', Done(if reply.Ok? then Denied(Replayed) else Internal))
    case LogoutStart(token) =>
      if token == "" then (s, Done(LoggedOut))
      else if !e.fault.NoFault? then (s, Done(Internal))
      else
        (match FindByHashOp(s, Sha256(token))
         case None => (s, Done(LoggedOut))
         case Some(id) => (s, LoggingOut(id)))
    case LoggingOut(id) =>
      var (s', reply) := RevokeOp(s, id, e.now, e.fault);
      (s', Done(if reply.Ok? then LoggedOut else Internal))
  }

  // ------------------------------------------------------------ the system

  /** Where a token stands: the Login its chain started from, and how many refreshes ago. The
      code records no such thing; it is what "the same login family" means. */
  datatype Origin = Origin(login: Id, age: nat)

  datatype System = System(store: Store, requests: map<nat, Pc>, origin: map<Id, Origin>)

  datatype Action = Arrive(r: nat, pc: Pc) | Advance(r: nat, env: Env)

  predicate IsEntry(pc: Pc) {
    pc.LoginStart? || pc.RefreshStart? || pc.LogoutStart?
  }

  predicate Enabled(st: System, a: Action) {
    match a
    case Arrive(r, pc) => r !in st.requests && IsEntry(pc)
    case Advance(r, _) => r in st.requests && !st.requests[r].Done?
  }

  /** Did running `pc` put a new row into the table? */
  predicate Adds(s: Store, s': Store, pc: Pc, e: Env) {
    pc.Issuing? && e.minted.Minted? && e.minted.id !in s && e.minted.id in s'
  }

  ghost function Next(st: System, a: Action, ttl: nat): System
    requires Enabled(st, a)
  {
    match a
    case Arrive(r, pc) => st.(requests := st.requests[r := pc])
    case Advance(r, e) =>
      var pc := st.requests[r];
      var (store, pc') := RequestStep(st.store, pc, e, ttl);
      var st' := st.(store := store, requests := st.requests[r := pc']);
      if !Adds(st.store, store, pc, e) then st'
      else if pc.rotateFrom.None? then
        st'.(origin := st.origin[e.minted.id := Origin(e.minted.id, 0)])
      else if pc.rotateFrom.value.id in st.origin then
        st'.(origin := st.origin[e.minted.id := Successor(st.origin[pc.rotateFrom.value.id])])
      else st'
  }

  function Successor(o: Origin): Origin {
    Origin(o.login, o.age + 1)
  }

  const START := System(map[], map[], map[])

  /** `run` visits one state per step; a request may stop for good at any point (a crash). */
  ghost predicate IsRun(run: seq<System>, acts: seq<Action>, ttl: nat) {
    && |run| == |acts| + 1
    && forall i | 0 <= i < |acts| :: Enabled(run[i], acts[i]) && run[i + 1] == Next(run[i], acts[i], ttl)
  }

  ghost predicate Reachable(st: System, ttl: nat) {
    exists run, acts :: IsRun(run, acts, ttl) && run[0] == START && run[|acts|] == st
  }

  /** The tokens descended from the same Login as `id`. */
  function Family(st: System, id: Id): set<Id>
    requires id in st.origin
  {
    set x | x in st.origin && st.origin[x].login == st.origin[id].login
  }

  ghost predicate AllRevoked(s: Store, ids: set<Id>) {
    forall x | x in ids && x in s :: s[x].revokedAt.Some?
  }

  // ------------------------------------------------------------ the invariant

  ghost predicate Rooted(s: Store, origin: map<Id, Origin>, x: Id)
    requires x in s && x in origin
  {
    var root := origin[x].login;
    root in s && root in origin && origin[root] == Origin(root, 0) && s[root].userId == s[x].userId
  }

  predicate LinkSound(s: Store, origin: map<Id, Origin>, x: Id)
    requires x in s && x in origin
  {
    s[x].replacedBy.Some? ==>
      var y := s[x].replacedBy.value;
      y in s && y in origin && origin[y] == Successor(origin[x]) && s[x].revokedAt.Some?
  }

  ghost predicate HasParent(s: Store, y: Id) {
    exists x :: x in s && s[x].replacedBy == Some(y)
  }

  ghost predicate Placed(origin: map<Id, Origin>, x: Id, y: Id)
    requires x in origin && y in origin
  {
    origin[x] == origin[y] ==> x == y
  }

  ghost predicate AllRooted(s: Store, origin: map<Id, Origin>)
    requires origin.Keys == s.Keys
  {
    forall x {:trigger Rooted(s, origin, x)} | x in s :: Rooted(s, origin, x)
  }

  ghost predicate AllPlaced(origin: map<Id, Origin>) {
    forall x, y {:trigger Placed(origin, x, y)} | x in origin && y in origin :: Placed(origin, x, y)
  }

  ghost predicate AllLinked(s: Store, origin: map<Id, Origin>)
    requires origin.Keys == s.Keys
  {
    forall x {:trigger LinkSound(s, origin, x)} | x in s :: LinkSound(s, origin, x)
  }

  ghost predicate AllParented(s: Store, origin: map<Id, Origin>)
    requires origin.Keys == s.Keys
  {
    forall y {:trigger HasParent(s, y)} | y in s && origin[y].age > 0 :: HasParent(s, y)
  }

  /** Every token has an origin of its own, links go one step down the same line, and every
      token but a Login's own was linked to by the one before it. */
  ghost predicate Lineage(s: Store, origin: map<Id, Origin>) {
    && origin.Keys == s.Keys
    && UniqueHashes(s)
    && AllRooted(s, origin)
    && AllPlaced(origin)
    && AllLinked(s, origin)
    && AllParented(s, origin)
  }

  /** What a request remembers about rows is still true of the table. */
  predicate PcAgrees(s: Store, pc: Pc) {
    match pc
    case Issuing(u, _, _, Some(prev)) => prev.id in s && s[prev.id].userId == u
    case Burning(id, _) => id in s
    case LoggingOut(id) => id in s
    case _ => true
  }

  ghost predicate Inv(st: System) {
    && Lineage(st.store, st.origin)
    && forall r | r in st.requests :: PcAgrees(st.store, st.requests[r])
  }

  /** What one step may do to the table: nothing is lost, and fields are write-once. */
  ghost predicate Grows(s: Store, s': Store) {
    forall x {:trigger RowGrows(s, s', x)} | x in s :: RowGrows(s, s', x)
  }

  predicate RowGrows(s: Store, s': Store, x: Id)
    requires x in s
  {
    && x in s'
    && s'[x] == s[x].(revokedAt := s'[x].revokedAt, replacedBy := s'[x].replacedBy)
    && (s[x].revokedAt.Some? ==> s'[x].revokedAt == s[x].revokedAt)
    && (s[x].replacedBy.Some? ==> s'[x].replacedBy == s[x].replacedBy)
  }

  ghost predicate HistoryKept(o: map<Id, Origin>, o': map<Id, Origin>) {
    forall x | x in o :: x in o' && o'[x] == o[x]
  }

  /** A token one step after `x` is the one `x` links to. */
  lemma SuccessorIsLinked(s: Store, origin: map<Id, Origin>, x: Id, y: Id)
    requires Lineage(s, origin) && x in s && y in s && origin[y] == Successor(origin[x])
    ensures s[x].replacedBy == Some(y)
  {
    assert HasParent(s, y);
    var z :| z in s && s[z].replacedBy == Some(y);
    assert LinkSound(s, origin, z) && Placed(origin, z, x);
  }

  /** In a line, the token before `y` at any smaller age exists and leads to `y`. */
  lemma {:induction false} Ancestor(s: Store, origin: map<Id, Origin>, y: Id, age: nat) returns (x: Id)
    requires Lineage(s, origin) && y in s && age <= origin[y].age
    ensures x in s && origin[x] == Origin(origin[y].login, age) && Hop(s, x, origin[y].age - age) == Some(y)
    decreases origin[y].age - age
  {
    if age == origin[y].age {
      x := y;
    } else {
      var z := Ancestor(s, origin, y, age + 1);
      assert HasParent(s, z);
      x :| x in s && s[x].replacedBy == Some(z);
      assert LinkSound(s, origin, x);
    }
  }

  /** Following links stays in the family and counts ages. */
  lemma {:induction false} HopInFamily(s: Store, origin: map<Id, Origin>, x: Id, n: nat)
    requires Lineage(s, origin) && Hop(s, x, n).Some?
    ensures origin[Hop(s, x, n).value] == Origin(origin[x].login, origin[x].age + n)
    decreases n
  {
    if n > 0 {
      assert LinkSound(s, origin, x);
      HopInFamily(s, origin, s[x].replacedBy.value, n - 1);
    }
  }

  /** A parent survives any change that keeps links. */
  lemma ParentsSurvive(s: Store, s': Store, y: Id)
    requires HasParent(s, y) && Grows(s, s')
    ensures HasParent(s', y)
  {
    var x :| x in s && s[x].replacedBy == Some(y);
    assert RowGrows(s, s', x);
  }

  lemma InsertKeepsLineage(s: Store, origin: map<Id, Origin>, id: Id, row: Row)
    requires Lineage(s, origin) && !Conflicts(s, id, row) && row.replacedBy.None?
    ensures Lineage(s[id := row], origin[id := Origin(id, 0)])
    ensures Grows(s, s[id := row])
  {
    var s', origin' := s[id := row], origin[id := Origin(id, 0)];
    forall x | x in s' ensures Rooted(s', origin', x) && LinkSound(s', origin', x) {
      assert x != id ==> Rooted(s, origin, x) && LinkSound(s, origin, x);
    }
    forall x, y | x in origin' && y in origin' ensures Placed(origin', x, y) {
      assert x != id ==> Rooted(s, origin, x);
      assert y != id ==> Rooted(s, origin, y);
      assert x != id && y != id ==> Placed(origin, x, y);
    }
    forall y | y in s' && origin'[y].age > 0 ensures HasParent(s', y) {
      ParentsSurvive(s, s', y);
    }
  }

  lemma RotateKeepsHashes(s: Store, oldId: Id, newId: Id, row: Row, now: Time)
    requires UniqueHashes(s) && oldId in s && !Conflicts(s, newId, row)
    ensures UniqueHashes(Rotated(s, oldId, newId, row, now))
  {
    var s' := Rotated(s, oldId, newId, row, now);
    forall x, y | x in s' && y in s' && s'[x].tokenHash == s'[y].tokenHash ensures x == y {
      assert x != newId ==> s'[x].tokenHash == s[x].tokenHash;
      assert y != newId ==> s'[y].tokenHash == s[y].tokenHash;
    }
  }

  lemma RotateKeepsLinks(s: Store, origin: map<Id, Origin>, oldId: Id, newId: Id, row: Row, now: Time)
    requires Lineage(s, origin) && oldId in s && s[oldId].revokedAt.None? && s[oldId].replacedBy.None?
    requires newId !in s && row.replacedBy.None?
    ensures var s', origin' := Rotated(s, oldId, newId, row, now), origin[newId := Successor(origin[oldId])];
      origin'.Keys == s'.Keys && AllLinked(s', origin') && AllParented(s', origin') && Grows(s, s')
  {
    var s', origin' := Rotated(s, oldId, newId, row, now), origin[newId := Successor(origin[oldId])];
    forall x | x in s' ensures LinkSound(s', origin', x) {
      assert x != newId ==> LinkSound(s, origin, x);
    }
    forall y | y in s' && origin'[y].age > 0 ensures HasParent(s', y) {
      if y == newId {
        assert s'[oldId].replacedBy == Some(y);
      } else {
        ParentsSurvive(s, s', y);
      }
    }
  }

  lemma RotateKeepsPlaces(s: Store, origin: map<Id, Origin>, oldId: Id, newId: Id)
    requires Lineage(s, origin) && oldId in s && s[oldId].replacedBy.None? && newId !in s
    ensures AllPlaced(origin[newId := Successor(origin[oldId])])
  {
    var origin' := origin[newId := Successor(origin[oldId])];
    forall x, y | x in origin' && y in origin' ensures Placed(origin', x, y) {
      if x != newId && y != newId {
        assert Placed(origin, x, y);
      } else if x != y && origin'[x] == origin'[y] {
        SuccessorIsLinked(s, origin, oldId, if x == newId then y else x);
      }
    }
  }

  lemma RotateKeepsLineage(s: Store, origin: map<Id, Origin>, oldId: Id, newId: Id, row: Row, now: Time)
    requires Lineage(s, origin) && oldId in s && s[oldId].revokedAt.None? && s[oldId].replacedBy.None?
    requires !Conflicts(s, newId, row) && row.replacedBy.None? && row.userId == s[oldId].userId
    ensures Lineage(Rotated(s, oldId, newId, row, now), origin[newId := Successor(origin[oldId])])
    ensures Grows(s, Rotated(s, oldId, newId, row, now))
  {
    var s', origin' := Rotated(s, oldId, newId, row, now), origin[newId := Successor(origin[oldId])];
    RotateKeepsHashes(s, oldId, newId, row, now);
    RotateKeepsLinks(s, origin, oldId, newId, row, now);
    RotateKeepsPlaces(s, origin, oldId, newId);
    forall x | x in s' ensures Rooted(s', origin', x) {
      assert Rooted(s, origin, if x == newId then oldId else x);
    }
  }

  lemma RevokeKeepsLineage(s: Store, origin: map<Id, Origin>, ids: set<Id>, now: Time)
    requires Lineage(s, origin)
    ensures Lineage(Revoked(s, ids, now), origin)
    ensures Grows(s, Revoked(s, ids, now))
  {
    var s' := Revoked(s, ids, now);
    RevokeGrows(s, ids, now);
    forall y | y in s' && origin[y].age > 0 ensures HasParent(s', y) {
      ParentsSurvive(s, s', y);
    }
    forall x | x in s' ensures Rooted(s', origin, x) {
      assert Rooted(s, origin, x);
    }
    forall x | x in s' ensures LinkSound(s', origin, x) {
      assert LinkSound(s, origin, x);
    }
  }

  lemma RevokeGrows(s: Store, ids: set<Id>, now: Time)
    ensures Grows(s, Revoked(s, ids, now))
    ensures Revoked(s, ids, now).Keys == s.Keys
  {
  }

  lemma AgreesAfterGrowth(s: Store, s': Store, pc: Pc)
    requires Grows(s, s') && PcAgrees(s, pc)
    ensures PcAgrees(s', pc)
  {
    match pc
    case Issuing(_, _, _, Some(prev)) => assert RowGrows(s, s', prev.id);
    case Burning(id, _) => assert RowGrows(s, s', id);
    case LoggingOut(id) => assert RowGrows(s, s', id);
    case _ =>
  }

  lemma IssueKeepsLineage(st: System, r: nat, e: Env, ttl: nat)
    requires Inv(st) && Enabled(st, Advance(r, e)) && st.requests[r].Issuing?
    ensures Lineage(Next(st, Advance(r, e), ttl).store, Next(st, Advance(r, e), ttl).origin)
    ensures Grows(st.store, Next(st, Advance(r, e), ttl).store)
    ensures HistoryKept(st.origin, Next(st, Advance(r, e), ttl).origin)
  {
    var s := st.store;
    var Issuing(u, ua, ip, rotateFrom) := st.requests[r];
    if e.minted.Minted? {
      var row := NewRow(u, ua, ip, e.minted.raw, e.now, ttl);
      if !Conflicts(s, e.minted.id, row) {
        if rotateFrom.None? {
          InsertKeepsLineage(s, st.origin, e.minted.id, row);
        } else if s[rotateFrom.value.id].revokedAt.None? && s[rotateFrom.value.id].replacedBy.None? {
          RotateKeepsLineage(s, st.origin, rotateFrom.value.id, e.minted.id, row, e.now);
        }
      }
    }
  }

  lemma StepKeepsLineage(st: System, r: nat, e: Env, ttl: nat)
    requires Inv(st) && Enabled(st, Advance(r, e))
    ensures Lineage(Next(st, Advance(r, e), ttl).store, Next(st, Advance(r, e), ttl).origin)
    ensures Grows(st.store, Next(st, Advance(r, e), ttl).store)
    ensures HistoryKept(st.origin, Next(st, Advance(r, e), ttl).origin)
  {
    var s, pc := st.store, st.requests[r];
    match pc
    case LoginStart(_, _) =>
    case RefreshStart(_, _, _) =>
    case LogoutStart(_) =>
    case Issuing(_, _, _, _) =>
      IssueKeepsLineage(st, r, e, ttl);
    case Burning(id, startedAt) =>
      RevokeKeepsLineage(s, st.origin, Forward(s, id) + Backward(s, id), startedAt);
    case LoggingOut(id) =>
      RevokeKeepsLineage(s, st.origin, {id}, e.now);
  }

  lemma MoverAgrees(st: System, r: nat, e: Env, ttl: nat)
    requires Inv(st) && Enabled(st, Advance(r, e))
    ensures PcAgrees(Next(st, Advance(r, e), ttl).store, Next(st, Advance(r, e), ttl).requests[r])
  {
  }

  lemma StepKeepsInv(st: System, a: Action, ttl: nat)
    requires Inv(st) && Enabled(st, a)
    ensures Inv(Next(st, a, ttl))
    ensures Grows(st.store, Next(st, a, ttl).store)
    ensures HistoryKept(st.origin, Next(st, a, ttl).origin)
  {
    if a.Advance? {
      StepKeepsLineage(st, a.r, a.env, ttl);
      MoverAgrees(st, a.r, a.env, ttl);
      var st' := Next(st, a, ttl);
      forall r | r in st.requests ensures PcAgrees(st'.store, st.requests[r]) {
        AgreesAfterGrowth(st.store, st'.store, st.requests[r]);
      }
    }
  }

  // ------------------------------------------------------------ whole runs

  lemma {:induction false} RunKeepsInv(run: seq<System>, acts: seq<Action>, ttl: nat, i: nat)
    requires IsRun(run, acts, ttl) && Inv(run[0]) && i <= |acts|
    ensures Inv(run[i])
  {
    if i > 0 {
      RunKeepsInv(run, acts, ttl, i - 1);
      StepKeepsInv(run[i - 1], acts[i - 1], ttl);
    }
  }

  lemma ReachableInv(st: System, ttl: nat)
    requires Reachable(st, ttl)
    ensures Inv(st)
  {
    var run, acts :| IsRun(run, acts, ttl) && run[0] == START && run[|acts|] == st;
    RunKeepsInv(run, acts, ttl, |acts|);
  }

  /** Rows are never lost, revoked_at and replaced_by are write-once, every other column and the
      lineage of every token never change. */
  lemma {:induction false} WriteOnce(run: seq<System>, acts: seq<Action>, ttl: nat, i: nat, j: nat)
    requires IsRun(run, acts, ttl) && Inv(run[0]) && i <= j <= |acts|
    ensures Grows(run[i].store, run[j].store)
    ensures HistoryKept(run[i].origin, run[j].origin)
    decreases j
  {
    if i < j {
      WriteOnce(run, acts, ttl, i, j - 1);
      RunKeepsInv(run, acts, ttl, j - 1);
      StepKeepsInv(run[j - 1], acts[j - 1], ttl);
      forall x | x in run[i].store ensures RowGrows(run[i].store, run[j].store, x) {
        assert RowGrows(run[i].store, run[j - 1].store, x) && RowGrows(run[j - 1].store, run[j].store, x);
      }
    }
  }

  // ------------------------------------------------------------ the shape of a family

  /** What RevokeFamily walks, in both directions from any member, is the login family. */
  lemma ClosureIsFamily(st: System, ttl: nat, id: Id)
    requires Reachable(st, ttl) && id in st.store
    ensures id in st.origin
    ensures Forward(st.store, id) + Backward(st.store, id) == Family(st, id)
  {
    ReachableInv(st, ttl);
    ClosureIsFamilyInv(st, id);
  }

  lemma ClosureIsFamilyInv(st: System, id: Id)
    requires Inv(st) && id in st.store
    ensures Forward(st.store, id) + Backward(st.store, id) == Family(st, id)
  {
    var s, origin := st.store, st.origin;
    forall x | x in Family(st, id) ensures x in Forward(s, id) + Backward(s, id) {
      if origin[x].age <= origin[id].age {
        var y := Ancestor(s, origin, id, origin[x].age);
        assert Placed(origin, x, y);
      } else {
        var y := Ancestor(s, origin, x, origin[id].age);
        assert Placed(origin, id, y);
      }
    }
    forall x | x in Forward(s, id) ensures x in Family(st, id) {
      var n: nat :| Hop(s, id, n) == Some(x);
      HopInFamily(s, origin, id, n);
    }
    forall x | x in Backward(s, id) ensures x in Family(st, id) {
      var n: nat :| Hop(s, x, n) == Some(id);
      HopInFamily(s, origin, x, n);
    }
  }

  /** The replaced_by links of a reachable table are disjoint simple paths: at most one link into
      each row, no way back to a row, and both ends of a link in one family of one user. */
  lemma LinksFormSimplePaths(st: System, ttl: nat)
    requires Reachable(st, ttl)
    ensures st.origin.Keys == st.store.Keys
    ensures forall x, y | x in st.store && y in st.store && st.store[x].replacedBy.Some?
        && st.store[x].replacedBy == st.store[y].replacedBy :: x == y
    ensures forall x, n: nat | x in st.store && n > 0 :: Hop(st.store, x, n) != Some(x)
    ensures forall x, n: nat | Hop(st.store, x, n).Some? ::
      var y := Hop(st.store, x, n).value;
      st.origin[y].login == st.origin[x].login && st.store[y].userId == st.store[x].userId
          && (n > 0 ==> st.store[x].revokedAt.Some?)
  {
    ReachableInv(st, ttl);
    var s, origin := st.store, st.origin;
    forall x, y | x in s && y in s && s[x].replacedBy.Some? && s[x].replacedBy == s[y].replacedBy ensures x == y {
      assert LinkSound(s, origin, x) && LinkSound(s, origin, y) && Placed(origin, x, y);
    }
    forall x, n: nat | Hop(s, x, n).Some?
      ensures n > 0 ==> Hop(s, x, n) != Some(x)
      ensures var y := Hop(s, x, n).value;
        origin[y].login == origin[x].login && s[y].userId == s[x].userId && (n > 0 ==> s[x].revokedAt.Some?)
    {
      HopInFamily(s, origin, x, n);
      assert LinkSound(s, origin, x) && Rooted(s, origin, x) && Rooted(s, origin, Hop(s, x, n).value);
    }
  }

  /** Every token carries the user of the Login its chain started from, and that Login's own row
      leads to it. */
  lemma UserIsTheLoginsUser(st: System, ttl: nat, id: Id)
    requires Reachable(st, ttl) && id in st.store
    ensures id in st.origin
    ensures var root := st.origin[id].login;
      root in st.store && st.store[id].userId == st.store[root].userId
          && Hop(st.store, root, st.origin[id].age) == Some(id)
  {
    ReachableInv(st, ttl);
    var x := Ancestor(st.store, st.origin, id, 0);
    assert Rooted(st.store, st.origin, id) && Placed(st.origin, x, st.origin[id].login);
  }

  /** A family never holds two tokens that are not revoked, and one that is not is its last. */
  lemma OneActivePerFamily(st: System, x: Id, y: Id)
    requires Inv(st) && x in st.store && y in Family(st, x)
    requires st.store[x].revokedAt.None?
    ensures st.origin[y].age <= st.origin[x].age
    ensures y != x ==> st.store[y].revokedAt.Some? && st.store[y].replacedBy.Some?
  {
    var s, origin := st.store, st.origin;
    assert LinkSound(s, origin, x);
    if origin[y].age > origin[x].age {
      var z := Ancestor(s, origin, y, origin[x].age + 1);
      SuccessorIsLinked(s, origin, x, z);
    }
    if y != x {
      var z := Ancestor(s, origin, x, origin[y].age);
      assert Placed(origin, y, z) && LinkSound(s, origin, y);
    }
  }

  // ------------------------------------------------------------ a burned family stays burned

  lemma BurnedStays(st: System, a: Action, ttl: nat, id: Id)
    requires Inv(st) && Enabled(st, a) && id in st.store && AllRevoked(st.store, Family(st, id))
    ensures var st' := Next(st, a, ttl);
      id in st'.origin && Family(st', id) == Family(st, id) && AllRevoked(st'.store, Family(st', id))
  {
    StepKeepsInv(st, a, ttl);
    var st' := Next(st, a, ttl);
    forall x | x in Family(st', id) ensures x in Family(st, id) {
      assert Rooted(st.store, st.origin, id);
    }
    forall x | x in Family(st, id) ensures st'.store[x].revokedAt.Some? {
      assert RowGrows(st.store, st'.store, x);
    }
  }

  /** Once RevokeFamily has been applied to a token's row, in every later state of every run its
      family has the same members and none of them is active, whatever refreshes were in flight. */
  lemma {:induction false} BurnIsForever(run: seq<System>, acts: seq<Action>, ttl: nat, i: nat, j: nat)
    requires IsRun(run, acts, ttl) && run[0] == START && i < j <= |acts|
    requires acts[i].Advance? && run[i].requests[acts[i].r].Burning? && !acts[i].env.fault.LostBefore?
    ensures var id := run[i].requests[acts[i].r].id;
      && id in run[i].origin && id in run[j].origin
      && Family(run[j], id) == Family(run[i], id)
      && AllRevoked(run[j].store, Family(run[j], id))
    decreases j
  {
    RunKeepsInv(run, acts, ttl, j - 1);
    RunKeepsInv(run, acts, ttl, i);
    var id := run[i].requests[acts[i].r].id;
    assert PcAgrees(run[i].store, run[i].requests[acts[i].r]);
    if i + 1 == j {
      ClosureIsFamilyInv(run[i], id);
    } else {
      BurnIsForever(run, acts, ttl, i, j - 1);
      BurnedStays(run[j - 1], acts[j - 1], ttl, id);
    }
  }

  /** RevokeFamily touches no row outside the family and overwrites no revocation time. */
  lemma BurnTouchesOnlyFamily(st: System, ttl: nat, id: Id, now: Time, fault: Fault)
    requires Reachable(st, ttl) && id in st.store && !fault.LostBefore?
    ensures id in st.origin
    ensures var s' := RevokeFamilyOp(st.store, id, now, fault).0;
      && s'.Keys == st.store.Keys
      && forall x | x in st.store ::
           if x in Family(st, id) && st.store[x].revokedAt.None? then s'[x] == st.store[x].(revokedAt := Some(now))
           else s'[x] == st.store[x]
  {
    ClosureIsFamily(st, ttl, id);
  }

  /** Step `i` of the run is a refresh that hands out tokens for the row `id`. */
  ghost predicate HandsOut(run: seq<System>, acts: seq<Action>, ttl: nat, i: nat, id: Id)
    requires IsRun(run, acts, ttl) && i < |acts|
  {
    && acts[i].Advance?
    && run[i].requests[acts[i].r].Issuing?
    && run[i].requests[acts[i].r].rotateFrom.Some?
    && run[i].requests[acts[i].r].rotateFrom.value.id == id
    && IsWinner(run[i + 1], acts[i].r)
  }

  lemma HandingOutRevokes(run: seq<System>, acts: seq<Action>, ttl: nat, i: nat, id: Id)
    requires IsRun(run, acts, ttl) && i < |acts| && Inv(run[i]) && HandsOut(run, acts, ttl, i, id)
    ensures id in run[i].store && run[i].store[id].revokedAt.None?
    ensures id in run[i + 1].store && run[i + 1].store[id].revokedAt.Some?
  {
  }

  lemma StaysRevoked(run: seq<System>, acts: seq<Action>, ttl: nat, i: nat, j: nat, id: Id)
    requires IsRun(run, acts, ttl) && Inv(run[0]) && i <= j <= |acts|
    requires id in run[i].store && run[i].store[id].revokedAt.Some?
    ensures id in run[j].store && run[j].store[id].revokedAt == run[i].store[id].revokedAt
  {
    WriteOnce(run, acts, ttl, i, j);
    assert RowGrows(run[i].store, run[j].store, id);
  }

  /** Over a whole run, with any other requests, crashes and faults, one token is exchanged at most once. */
  lemma SingleUse(run: seq<System>, acts: seq<Action>, ttl: nat, i: nat, j: nat, id: Id)
    requires IsRun(run, acts, ttl) && run[0] == START && i <= j < |acts|
    requires HandsOut(run, acts, ttl, i, id) && HandsOut(run, acts, ttl, j, id)
    ensures i == j
  {
    if i < j {
      RunKeepsInv(run, acts, ttl, i);
      RunKeepsInv(run, acts, ttl, j);
      HandingOutRevokes(run, acts, ttl, i, id);
      StaysRevoked(run, acts, ttl, i + 1, j, id);
      HandingOutRevokes(run, acts, ttl, j, id);
    }
  }

  // ------------------------------------------------------------ racing refreshes

  /** The requests `racers` all present `token`, whose row `id` is active; the clock of each is
      before its expiry, nobody else runs, and every racer finishes without a storage error. */
  ghost predicate IsRace(run: seq<System>, acts: seq<Action>, ttl: nat, racers: set<nat>, token: string, id: Id) {
    && IsRun(run, acts, ttl) && Inv(run[0])
    && token != "" && id in run[0].store && run[0].store[id].tokenHash == Sha256(token)
        && run[0].store[id].revokedAt.None?
    && (forall r | r in racers ::
        r in run[0].requests && run[0].requests[r].RefreshStart? && run[0].requests[r].token == token)
    && (forall i | 0 <= i < |acts| :: RacerMoves(run[i], acts[i], racers, run[0].store[id].expiresAt))
    && (forall r | r in racers :: Finished(run[|acts|], r))
  }

  predicate RacerMoves(st: System, a: Action, racers: set<nat>, expiresAt: Time) {
    && a.Advance? && a.r in racers
    && (a.r in st.requests && st.requests[a.r].RefreshStart? ==> a.env.now < expiresAt)
  }

  predicate Finished(st: System, r: nat) {
    r in st.requests && st.requests[r].Done? && st.requests[r].result != Internal
  }

  function IsWinner(st: System, r: nat): bool {
    r in st.requests && st.requests[r].Done? && st.requests[r].result.Issued?
  }

  predicate IsLoser(st: System, r: nat) {
    r in st.requests && st.requests[r] == Done(Denied(Replayed))
  }

  /** Nobody has rotated yet: the table is as it was, and no racer is past its freshness check. */
  ghost predicate BeforeRotation(st0: System, st: System, racers: set<nat>, token: string, id: Id) {
    && st.store == st0.store && st.origin == st0.origin
    && forall r | r in racers :: r in st.requests && Waiting(st.requests[r], token, id)
  }

  predicate Waiting(pc: Pc, token: string, id: Id) {
    || (pc.RefreshStart? && pc.token == token)
    || (pc.Issuing? && pc.rotateFrom.Some? && pc.rotateFrom.value.id == id)
  }

  /** `w` has rotated `id` into `heir`; the others can only lose, and the heir is revoked exactly
      when one of them has lost. */
  ghost predicate AfterRotation(st0: System, st: System, racers: set<nat>, token: string, id: Id, w: nat, heir: Id) {
    && id in st0.origin && id in st.store && id in st.origin && heir in st.store && heir in st.origin
        && heir !in st0.origin
    && st.store[id].tokenHash == Sha256(token) && st.store[id].revokedAt.Some?
    && Family(st, id) == Family(st0, id) + {heir}
    && AllRevoked(st.store, Family(st0, id))
    && w in racers && IsWinner(st, w) && st.store[heir].tokenHash == Sha256(st.requests[w].result.refreshToken)
    && (forall r | r in racers && r != w :: r in st.requests && Losing(st.requests[r], token, id))
    && (st.store[heir].revokedAt.Some? <==> exists r :: r in racers && IsLoser(st, r))
  }

  predicate Losing(pc: Pc, token: string, id: Id) {
    Waiting(pc, token, id) || (pc.Burning? && pc.id == id) || pc == Done(Denied(Replayed))
  }

  lemma {:induction false} DoneIsFinal(run: seq<System>, acts: seq<Action>, ttl: nat, i: nat, j: nat, r: nat)
    requires IsRun(run, acts, ttl) && i <= j <= |acts| && r in run[i].requests && run[i].requests[r].Done?
    ensures r in run[j].requests && run[j].requests[r] == run[i].requests[r]
    decreases j
  {
    if i < j {
      DoneIsFinal(run, acts, ttl, i, j - 1, r);
    }
  }

  /** Before the rotation a racer that looks the token up finds it active. */
  lemma RaceStepFinds(st0: System, st: System, a: Action, ttl: nat, racers: set<nat>, token: string, id: Id)
    requires Inv(st0) && BeforeRotation(st0, st, racers, token, id) && Enabled(st, a)
    requires token != "" && id in st0.store && st0.store[id].tokenHash == Sha256(token) && st0.store[id].revokedAt.None?
    requires RacerMoves(st, a, racers, st0.store[id].expiresAt) && Next(st, a, ttl).requests[a.r] != Done(Internal)
    requires st.requests[a.r].RefreshStart?
    ensures BeforeRotation(st0, Next(st, a, ttl), racers, token, id)
  {
  }

  /** What the first racer to rotate leaves in the table. */
  lemma RotationInStore(st: System, a: Action, ttl: nat, id: Id) returns (heir: Id)
    requires Inv(st) && Enabled(st, a) && a.Advance? && id in st.store && st.store[id].revokedAt.None?
    requires st.requests[a.r].Issuing? && st.requests[a.r].rotateFrom.Some?
        && st.requests[a.r].rotateFrom.value.id == id
    requires Next(st, a, ttl).requests[a.r] != Done(Internal)
    ensures var st' := Next(st, a, ttl);
      && heir !in st.origin && heir !in st.store && heir in st'.store && heir in st'.origin && id in st'.store
          && id in st'.origin
      && st'.store[heir].revokedAt.None? && st'.store[id].revokedAt.Some?
          && st'.store[id].tokenHash == st.store[id].tokenHash
      && (forall x | x in st.store && x != id :: x in st'.store && st'.store[x] == st.store[x])
      && Family(st', id) == Family(st, id) + {heir}
      && IsWinner(st', a.r) && st'.store[heir].tokenHash == Sha256(st'.requests[a.r].result.refreshToken)
  {
    heir := a.env.minted.id;
    assert LinkSound(st.store, st.origin, id);
    assert Family(Next(st, a, ttl), id) == Family(st, id) + {heir};
  }

  lemma RaceStepRotates(st0: System, st: System, a: Action, ttl: nat, racers: set<nat>, token: string, id: Id)
    returns (heir: Id)
    requires Inv(st0) && Inv(st) && BeforeRotation(st0, st, racers, token, id) && Enabled(st, a)
    requires id in st0.store && st0.store[id].tokenHash == Sha256(token) && st0.store[id].revokedAt.None?
    requires a.Advance? && a.r in racers && Next(st, a, ttl).requests[a.r] != Done(Internal)
    requires !st.requests[a.r].RefreshStart?
    ensures AfterRotation(st0, Next(st, a, ttl), racers, token, id, a.r, heir)
  {
    var st' := Next(st, a, ttl);
    heir := RotationInStore(st, a, ttl, id);
    forall x | x in Family(st0, id) ensures x in st'.store && st'.store[x].revokedAt.Some? {
      OneActivePerFamily(st0, id, x);
    }
    forall r | r in racers ensures !IsLoser(st', r) {
      assert Waiting(st.requests[r], token, id);
    }
  }

  lemma LateRacerBurns(st: System, a: Action, ttl: nat, token: string, id: Id)
    requires Inv(st) && Enabled(st, a) && a.Advance? && Waiting(st.requests[a.r], token, id) && token != ""
    requires id in st.store && st.store[id].tokenHash == Sha256(token) && st.store[id].revokedAt.Some?
    requires Next(st, a, ttl).requests[a.r] != Done(Internal)
    ensures var st' := Next(st, a, ttl);
      && st'.store == st.store && st'.origin == st.origin
      && st'.requests == st.requests[a.r := st'.requests[a.r]]
      && st'.requests[a.r].Burning? && st'.requests[a.r].id == id
  {
  }

  /** After the rotation a racer still on its way only moves to the burning step. */
  lemma RaceStepCatchesUp(st0: System, st: System, a: Action, ttl: nat, racers: set<nat>, token: string, id: Id,
          w: nat, heir: Id)
    requires Inv(st) && AfterRotation(st0, st, racers, token, id, w, heir) && Enabled(st, a) && token != ""
    requires a.Advance? && a.r in racers && !st.requests[a.r].Burning?
        && Next(st, a, ttl).requests[a.r] != Done(Internal)
    ensures AfterRotation(st0, Next(st, a, ttl), racers, token, id, w, heir)
  {
    var st' := Next(st, a, ttl);
    assert a.r != w;
    LateRacerBurns(st, a, ttl, token, id);
    assert forall r | r in racers :: IsLoser(st', r) == IsLoser(st, r);
  }

  lemma RaceStepBurns(st0: System, st: System, a: Action, ttl: nat, racers: set<nat>, token: string, id: Id, w: nat,
          heir: Id)
    requires Inv(st) && AfterRotation(st0, st, racers, token, id, w, heir) && Enabled(st, a)
    requires a.Advance? && a.r in racers && st.requests[a.r].Burning?
        && Next(st, a, ttl).requests[a.r] != Done(Internal)
    ensures AfterRotation(st0, Next(st, a, ttl), racers, token, id, w, heir)
  {
    var st' := Next(st, a, ttl);
    assert a.r != w;
    ClosureIsFamilyInv(st, id);
    assert st'.store == Revoked(st.store, Family(st, id), st.requests[a.r].startedAt);
    assert IsLoser(st', a.r);
    assert heir in Family(st, id);
  }

  lemma {:induction false} RaceInvariant(run: seq<System>, acts: seq<Action>, ttl: nat, racers: set<nat>,
          token: string, id: Id, i: nat)
    returns (w: nat, heir: Id)
    requires IsRace(run, acts, ttl, racers, token, id) && i <= |acts|
    ensures BeforeRotation(run[0], run[i], racers, token, id)
        || AfterRotation(run[0], run[i], racers, token, id, w, heir)
  {
    w, heir := 0, id;
    if i > 0 {
      w, heir := RaceInvariant(run, acts, ttl, racers, token, id, i - 1);
      RunKeepsInv(run, acts, ttl, i - 1);
      var st, a := run[i - 1], acts[i - 1];
      assert RacerMoves(st, a, racers, run[0].store[id].expiresAt);
      if run[i].requests[a.r].Done? {
        DoneIsFinal(run, acts, ttl, i, |acts|, a.r);
        assert Finished(run[|acts|], a.r);
      }
      if BeforeRotation(run[0], st, racers, token, id) {
        if st.requests[a.r].RefreshStart? {
          RaceStepFinds(run[0], st, a, ttl, racers, token, id);
        } else {
          heir := RaceStepRotates(run[0], st, a, ttl, racers, token, id);
          w := a.r;
        }
      } else if st.requests[a.r].Burning? {
        RaceStepBurns(run[0], st, a, ttl, racers, token, id, w, heir);
      } else {
        RaceStepCatchesUp(run[0], st, a, ttl, racers, token, id, w, heir);
      }
    }
  }

  /** Any number of refreshes racing for one active token: exactly one gets tokens, every other is
      turned away as a replay, and the family, with the token just handed out in it, ends revoked
      if and only if there was more than one racer. */
  lemma RacingRefreshes(run: seq<System>, acts: seq<Action>, ttl: nat, racers: set<nat>, token: string, id: Id)
    returns (w: nat, heir: Id)
    requires IsRace(run, acts, ttl, racers, token, id) && racers != {}
    ensures var last := run[|acts|];
      && (set r | r in racers && IsWinner(last, r)) == {w}
      && (forall r | r in racers && r != w :: IsLoser(last, r))
      && id in last.origin && heir in Family(last, id) && heir in last.store
      && last.store[heir].tokenHash == Sha256(last.requests[w].result.refreshToken)
      && (AllRevoked(last.store, Family(last, id)) <==> |racers| >= 2)
  {
    w, heir := RaceInvariant(run, acts, ttl, racers, token, id, |acts|);
    var last := run[|acts|];
    var r :| r in racers;
    assert forall r | r in racers :: Finished(last, r);
    forall r | r in racers && r != w ensures IsLoser(last, r) {
      assert Finished(last, r);
    }
    assert |racers - {w}| == |racers| - 1;
    if |racers| >= 2 {
      var r :| r in racers - {w};
      assert IsLoser(last, r);
    } else {
      assert racers - {w} == {};
      assert forall r | r in racers :: r == w;
    }
  }

  // ------------------------------------------------------------ which denial a refresh gets

  predicate Known(s: Store, token: string) {
    exists x :: x in s && s[x].tokenHash == Sha256(token)
  }

  /** What the lookup, the first step of a refresh, decides for good. */
  predicate InvalidAtLookup(s: Store, token: string, e: Env) {
    token == "" || (e.fault.NoFault? && !Known(s, token))
  }

  predicate ExpiredAtLookup(s: Store, token: string, e: Env) {
    && token != "" && e.fault.NoFault?
    && exists x :: x in s && s[x].tokenHash == Sha256(token) && s[x].revokedAt.None? && s[x].expiresAt <= e.now
  }

  predicate Answered(pc: Pc, invalid: bool, expired: bool) {
    && (pc.Issuing? || pc.Burning? || pc.Done?)
    && (pc == Done(Denied(InvalidCredentials)) <==> invalid)
    && (pc == Done(Denied(Expired)) <==> expired)
  }

  lemma LookupAnswers(s: Store, token: string, ua: string, ip: string, e: Env, ttl: nat)
    requires UniqueHashes(s)
    ensures var pc := RequestStep(s, RefreshStart(token, ua, ip), e, ttl).1;
      Answered(pc, InvalidAtLookup(s, token, e), ExpiredAtLookup(s, token, e))
  {
  }

  /** Over any run a refresh is denied for invalid credentials if and only if its token was empty or, the
      storage answering, unknown when it was looked up, and as expired if and only if it was known, not
      revoked and past its time then; every other failure is answered differently. */
  lemma {:induction false} WhichDenial(run: seq<System>, acts: seq<Action>, ttl: nat, j: nat, i: nat, r: nat)
    requires IsRun(run, acts, ttl) && run[0] == START && j < i <= |acts|
    requires acts[j].Advance? && acts[j].r == r && run[j].requests[r].RefreshStart?
    ensures r in run[i].requests
    ensures var s, token, e := run[j].store, run[j].requests[r].token, acts[j].env;
      Answered(run[i].requests[r], InvalidAtLookup(s, token, e), ExpiredAtLookup(s, token, e))
    decreases i
  {
    if i == j + 1 {
      var RefreshStart(token, ua, ip) := run[j].requests[r];
      RunKeepsInv(run, acts, ttl, j);
      LookupAnswers(run[j].store, token, ua, ip, acts[j].env, ttl);
    } else {
      WhichDenial(run, acts, ttl, j, i - 1, r);
    }
  }

  // ------------------------------------------------------------ what the requests leave in the table

  predicate HoldsToken(s: Store, x: Id, token: string) {
    x in s && s[x].tokenHash == Sha256(token)
  }

  /** From `s` to `s'` the row `id` is revoked at `now`, unless it was revoked before, and no other row
      changes in any way. */
  predicate RevokesOnly(s: Store, s': Store, id: Id, now: Time) {
    && s'.Keys == s.Keys && id in s
    && s'[id] == s[id].(revokedAt := if s[id].revokedAt.Some? then s[id].revokedAt else Some(now))
    && forall x | x in s && x != id :: s'[x] == s[x]
  }

  /** The row of a token just issued, column by column. */
  predicate FreshRow(row: Row, userId: string, raw: string, now: Time, expiresAt: Time, ua: string, ip: string) {
    && row.userId == userId && row.tokenHash == Sha256(raw)
    && row.issuedAt == now && row.expiresAt == expiresAt
    && row.revokedAt == None && row.replacedBy == None
    && row.userAgent == (if ua == "" then None else Some(ua)) && row.ip == if ip == "" then None else Some(ip)
  }

  /** From `s` to `s'` there is one row more, for `userId` and `raw`; no other row changes. */
  predicate AddsToken(s: Store, s': Store, id: Id, userId: string, raw: string, now: Time, expiresAt: Time, ua: string,
          ip: string) {
    && s'.Keys == s.Keys + {id} && id !in s
    && (forall x | x in s :: s'[x] == s[x])
    && FreshRow(s'[id], userId, raw, now, expiresAt, ua, ip)
  }

  /** Likewise, and the row `prev` is revoked and linked to the new one. */
  predicate ReplacesToken(s: Store, s': Store, prev: Id, id: Id, userId: string, raw: string, now: Time,
          expiresAt: Time, ua: string, ip: string) {
    && s'.Keys == s.Keys + {id} && id !in s && prev in s
    && (forall x | x in s && x != prev :: s'[x] == s[x])
    && s'[prev] == s[prev].(revokedAt := Some(now), replacedBy := Some(id))
    && FreshRow(s'[id], userId, raw, now, expiresAt, ua, ip)
  }

  /** The mint succeeds, its id and its token are new to the table, and the storage acknowledges. */
  predicate Stores(s: Store, e: Env, raw: string) {
    && e.fault.NoFault? && e.minted.Minted? && e.minted.raw == raw && e.minted.id !in s
    && !Known(s, raw)
  }

  /** The row may still be exchanged. */
  predicate Replaceable(s: Store, id: Id) {
    id in s && s[id].revokedAt.None? && s[id].replacedBy.None?
  }

  // ------------------------------------------------------------ the service

  /** One more step of a request that runs alone, unless it is done. */
  ghost function Then(c: (Store, Pc), e: Env, ttl: nat): (Store, Pc) {
    if c.1.Done? then c else RequestStep(c.0, c.1, e, ttl)
  }

  datatype Tokens = Tokens(refreshToken: string, expiresAt: Time) | RotationLost | OldVanished | Failed

  class AuthService {
    const repo: RefreshTokenRepository
    const refreshTTL: nat

    constructor (repo: RefreshTokenRepository, refreshTTL: nat)
      requires refreshTTL > 0
      ensures this.repo == repo && this.refreshTTL == refreshTTL
    {
      this.repo := repo;
      this.refreshTTL := refreshTTL;
    }

    method Login(userAgent: string, ip: string, e0: Env, e1: Env) returns (result: Result)
      modifies repo
      ensures (repo.rows, Done(result))
          == Then(Then((old(repo.rows), LoginStart(userAgent, ip)), e0, refreshTTL), e1, refreshTTL)
      ensures result == Denied(InvalidCredentials) <==> e0.credentials.Rejected?
      ensures result.Issued? <==>
        e0.credentials.Accepted? && e1.minted.Minted? && Stores(old(repo.rows), e1, e1.minted.raw)
      ensures result.Issued? ==>
        && result == Issued(e1.minted.raw, e1.now + refreshTTL)
        && AddsToken(old(repo.rows), repo.rows, e1.minted.id, e0.credentials.userId, e1.minted.raw, e1.now,
                     e1.now + refreshTTL, userAgent, ip)
      ensures result.Issued? || result == Denied(InvalidCredentials) || result == Internal
      ensures !result.Issued? && !(e0.credentials.Accepted? && e1.fault.LostAfter?) ==> repo.rows == old(repo.rows)
    {
      match e0.credentials
      case Rejected => return Denied(InvalidCredentials);
      case CheckFailed => return Internal;
      case Accepted(userId) =>
        var tokens := IssueTokens(userId, userAgent, ip, None, e1);
        return if tokens.Tokens? then Issued(tokens.refreshToken, tokens.expiresAt) else Internal;
    }

    method Refresh(token: string, userAgent: string, ip: string, e0: Env, e1: Env, e2: Env) returns (result: Result)
      requires UniqueHashes(repo.rows)
      modifies repo
      ensures (repo.rows, Done(result))
          == Then(Then(Then((old(repo.rows), RefreshStart(token, userAgent, ip)), e0, refreshTTL), e1, refreshTTL), e2,
              refreshTTL)
    {
      if token == "" {
        return Denied(InvalidCredentials);
      }
      var now := e0.now;
      var ok, found := repo.FindByHash(Sha256(token), e0.fault);
      if !ok {
        return Internal;
      }
      if found.None? {
        return Denied(InvalidCredentials);
      }
      var row := repo.rows[found.value];
      if row.revokedAt.Some? {
        var reply := repo.RevokeFamily(found.value, now, e1.fault);
        return if reply.Ok? then Denied(Replayed) else Internal;
      }
      if row.expiresAt <= now {
        return Denied(Expired);
      }
      var tokens := IssueTokens(row.userId, userAgent, ip, Some(Presented(found.value, now)), e1);
      match tokens
      case RotationLost =>
        var reply := repo.RevokeFamily(found.value, now, e2.fault);
        return if reply.Ok? then Denied(Replayed) else Internal;
      case OldVanished => return TokenVanished;
      case Failed => return Internal;
      case Tokens(refreshToken, expiresAt) => return Issued(refreshToken, expiresAt);
    }

    method Logout(token: string, e0: Env, e1: Env) returns (result: Result)
      requires UniqueHashes(repo.rows)
      modifies repo
      ensures (repo.rows, Done(result))
          == Then(Then((old(repo.rows), LogoutStart(token)), e0, refreshTTL), e1, refreshTTL)
      ensures result == LoggedOut || result == Internal
      ensures result == LoggedOut
         <==> token == "" || (e0.fault.NoFault? && (Known(old(repo.rows), token) ==> e1.fault.NoFault?))
      ensures forall id | HoldsToken(old(repo.rows), id, token) && token != "" && e0.fault.NoFault?
          && !e1.fault.LostBefore? ::
        RevokesOnly(old(repo.rows), repo.rows, id, e1.now)
      ensures token == "" || !Known(old(repo.rows), token) || !e0.fault.NoFault? || e1.fault.LostBefore?
        ==> repo.rows == old(repo.rows)
    {
      if token == "" {
        return LoggedOut;
      }
      var ok, found := repo.FindByHash(Sha256(token), e0.fault);
      if !ok {
        return Internal;
      }
      if found.None? {
        return LoggedOut;
      }
      var reply := repo.Revoke(found.value, e1.now, e1.fault);
      return if reply.Ok? then LoggedOut else Internal;
    }

    method IssueTokens(userId: string, userAgent: string, ip: string, rotateFrom: Option<Presented>, e: Env)
      returns (tokens: Tokens)
      modifies repo
      ensures var (s', pc') := RequestStep(old(repo.rows), Issuing(userId, userAgent, ip, rotateFrom), e, refreshTTL);
        && repo.rows == s'
        && match tokens {
             case Tokens(raw, expiresAt) => pc' == Done(Issued(raw, expiresAt))
             case RotationLost => rotateFrom.Some? && pc' == Burning(rotateFrom.value.id, rotateFrom.value.startedAt)
             case OldVanished => rotateFrom.Some? && pc' == Done(TokenVanished)
             case Failed => pc' == Done(Internal)
           }
    {
      if e.minted.MintFailed? {
        return Failed;
      }
      var row := NewRow(userId, userAgent, ip, e.minted.raw, e.now, refreshTTL);
      if rotateFrom.None? {
        var reply := repo.Insert(e.minted.id, row, e.fault);
        if !reply.Ok? {
          return Failed;
        }
      } else {
        var reply := repo.Rotate(rotateFrom.value.id, e.minted.id, row, e.now, e.fault);
        match reply {
          case AlreadyRevoked => return RotationLost;
          case NotFound => return OldVanished;
          case StorageError => return Failed;
          case Ok =>
        }
      }
      return Tokens(e.minted.raw, row.expiresAt);
    }
  }
}
