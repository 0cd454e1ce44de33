/**
 The refresh_tokens table and the statements the repository runs on it.

 The table is a map from primary key to row; a statement is a function from the old table
 to the new one and a reply. `RefreshTokenRepository`, at the end, is the repository itself:
 each of its methods changes the table in place and is proved against the statement.
 */
module TokenStore {
  import opened Faults
  import opened Options

  type Id = string
  type Time = int

  /** The value stored for a token: hex(SHA-256(token)), taken to be collision-free. */
  datatype Digest = Sha256(raw: string)

  datatype Row = Row(
    userId: string,
    tokenHash: Digest,
    issuedAt: Time,
    expiresAt: Time,
    revokedAt: Option<Time>,
    replacedBy: Option<Id>,
    userAgent: Option<string>,
    ip: Option<string>)

  type Store = map<Id, Row>

  datatype Reply = Ok | NotFound | AlreadyRevoked | StorageError

  // ------------------------------------------------------------ constraints

  /** The unique index on token_hash. */
  predicate UniqueHashes(s: Store) {
    forall x, y {:trigger s[x].tokenHash, s[y].tokenHash} | x in s && y in s && s[x].tokenHash == s[y].tokenHash ::
        x == y
  }

  /** Would inserting `row` under `id` break the primary key, the hash index or the foreign key? */
  predicate Conflicts(s: Store, id: Id, row: Row) {
    || id in s
    || (exists x | x in s :: s[x].tokenHash == row.tokenHash)
    || (row.replacedBy.Some? && row.replacedBy.value !in s && row.replacedBy.value != id)
  }

  // ------------------------------------------------------------ statements

  function InsertOp(s: Store, id: Id, row: Row, fault: Fault): (Store, Reply) {
    if fault.LostBefore? || Conflicts(s, id, row) then (s, StorageError)
    else (s[id := row], if fault.LostAfter? then StorageError else Ok)
  }

  ghost function FindByHashOp(s: Store, h: Digest): (found: Option<Id>) {
    if id :| id in s && s[id].tokenHash == h then Some(id) else None
  }

  /** The two rows a committed rotation leaves behind. */
  function Rotated(s: Store, oldId: Id, newId: Id, row: Row, now: Time): Store
    requires oldId in s
  {
    s[newId := row][oldId := s[oldId].(revokedAt := Some(now), replacedBy := Some(newId))]
  }

  function RotateOp(s: Store, oldId: Id, newId: Id, row: Row, now: Time, fault: Fault): (Store, Reply) {
    if fault.LostBefore? then (s, StorageError)
    else if oldId !in s then (s, NotFound)
    else if s[oldId].revokedAt.Some? || s[oldId].replacedBy.Some? then (s, AlreadyRevoked)
    else if Conflicts(s, newId, row) then (s, StorageError)
    else (Rotated(s, oldId, newId, row, now), if fault.LostAfter? then StorageError else Ok)
  }

  /** UPDATE ... SET revoked_at = COALESCE(revoked_at, now) on the rows in `ids`. */
  function Revoked(s: Store, ids: set<Id>, now: Time): Store {
    map x | x in s :: if x in ids && s[x].revokedAt.None? then s[x].(revokedAt := Some(now)) else s[x]
  }

  function RevokeOp(s: Store, id: Id, now: Time, fault: Fault): (Store, Reply) {
    (if fault.LostBefore? then s else Revoked(s, {id}, now), if fault.NoFault? then Ok else StorageError)
  }

  /** The row reached from `a` by following replaced_by `n` times. */
  function Hop(s: Store, a: Id, n: nat): (b: Option<Id>)
    ensures b.Some? ==> a in s && b.value in s
    decreases n
  {
    if a !in s then None
    else if n == 0 then Some(a)
    else if s[a].replacedBy.None? then None
    else Hop(s, s[a].replacedBy.value, n - 1)
  }

  ghost predicate Reaches(s: Store, a: Id, b: Id) {
    exists n: nat :: Hop(s, a, n) == Some(b)
  }

  ghost function Forward(s: Store, a: Id): set<Id> {
    set x | x in s && Reaches(s, a, x)
  }

  ghost function Backward(s: Store, a: Id): set<Id> {
    set x | x in s && Reaches(s, x, a)
  }

  ghost function RevokeFamilyOp(s: Store, start: Id, now: Time, fault: Fault): (Store, Reply) {
    (if fault.LostBefore? then s else Revoked(s, Forward(s, start) + Backward(s, start), now),
     if fault.NoFault? then Ok else StorageError)
  }

  // ------------------------------------------------------------ following links

  lemma {:induction false} HopSteps(s: Store, a: Id, n: nat, b: Id)
    requires Hop(s, a, n) == Some(b) && s[b].replacedBy.Some? && s[b].replacedBy.value in s
    ensures Hop(s, a, n + 1) == s[b].replacedBy
    decreases n
  {
    if n > 0 {
      HopSteps(s, s[a].replacedBy.value, n - 1, b);
    }
  }

  /** A set holding `a` and closed under replaced_by holds everything `a` reaches. */
  lemma {:induction false} ClosedHoldsForward(s: Store, closed: set<Id>, a: Id, n: nat)
    requires forall x | x in closed && x in s && s[x].replacedBy.Some? ::
      s[x].replacedBy.value in s ==> s[x].replacedBy.value in closed
    requires a in closed && Hop(s, a, n).Some?
    ensures Hop(s, a, n).value in closed
    decreases n
  {
    if n > 0 {
      ClosedHoldsForward(s, closed, s[a].replacedBy.value, n - 1);
    }
  }

  /** A set holding `b` and everything that links into it holds everything that reaches `b`. */
  lemma {:induction false} ClosedHoldsBackward(s: Store, closed: set<Id>, a: Id, n: nat, b: Id)
    requires forall x | x in s && s[x].replacedBy.Some? && s[x].replacedBy.value in closed :: x in closed
    requires b in closed && Hop(s, a, n) == Some(b)
    ensures a in closed
    decreases n
  {
    if n > 0 {
      ClosedHoldsBackward(s, closed, s[a].replacedBy.value, n - 1, b);
    }
  }

  // ------------------------------------------------------------ the repository

  class RefreshTokenRepository {
    var rows: Store

    constructor ()
      ensures rows == map[]
    {
      rows := map[];
    }

    method Insert(id: Id, row: Row, fault: Fault) returns (reply: Reply)
      modifies this
      ensures (rows, reply) == InsertOp(old(rows), id, row, fault)
      ensures reply == Ok <==>
        && fault.NoFault? && id !in old(rows) && (forall x | x in old(rows) :: old(rows)[x].tokenHash != row.tokenHash)
        && (row.replacedBy.None? || row.replacedBy.value in old(rows) || row.replacedBy.value == id)
      ensures reply == Ok || reply == StorageError
      ensures reply == Ok ==> rows == old(rows)[id := row]
      ensures rows == old(rows) || (id !in old(rows) && rows == old(rows)[id := row] && !fault.LostBefore?)
    {
      if fault.LostBefore? || Conflicts(rows, id, row) {
        return StorageError;
      }
      rows := rows[id := row];
      reply := if fault.LostAfter? then StorageError else Ok;
    }

    method FindByHash(h: Digest, fault: Fault) returns (ok: bool, found: Option<Id>)
      requires UniqueHashes(rows)
      ensures ok <==> fault.NoFault?
      ensures ok ==> found == FindByHashOp(rows, h)
      ensures found.Some? ==> found.value in rows && rows[found.value].tokenHash == h
    {
      if !fault.NoFault? {
        return false, None;
      }
      if id :| id in rows && rows[id].tokenHash == h {
        return true, Some(id);
      }
      return true, None;
    }

    /** One transaction: lock and read the old row, insert, update, commit. */
    method Rotate(oldId: Id, newId: Id, row: Row, now: Time, fault: Fault) returns (reply: Reply)
      modifies this
      ensures (rows, reply) == RotateOp(old(rows), oldId, newId, row, now, fault)
      ensures reply == NotFound <==> !fault.LostBefore? && oldId !in old(rows)
      ensures reply == AlreadyRevoked <==>
        && !fault.LostBefore? && oldId in old(rows)
        && (old(rows)[oldId].revokedAt.Some? || old(rows)[oldId].replacedBy.Some?)
      ensures reply == Ok ==>
        && oldId in old(rows) && newId !in old(rows) && rows.Keys == old(rows).Keys + {newId} && rows[newId] == row
        && rows[oldId] == old(rows)[oldId].(revokedAt := Some(now), replacedBy := Some(newId))
        && forall x | x in old(rows) && x != oldId :: rows[x] == old(rows)[x]
      ensures reply != Ok && !fault.LostAfter? ==> rows == old(rows)
    {
      if fault.LostBefore? {
        return StorageError;
      }
      var tx := rows;
      if oldId !in tx {
        return NotFound;
      }
      if tx[oldId].revokedAt.Some? || tx[oldId].replacedBy.Some? {
        return AlreadyRevoked;
      }
      if Conflicts(tx, newId, row) {
        return StorageError;
      }
      tx := tx[newId := row];
      tx := tx[oldId := tx[oldId].(revokedAt := Some(now), replacedBy := Some(newId))];
      rows := tx;
      reply := if fault.LostAfter? then StorageError else Ok;
    }

    method Revoke(id: Id, now: Time, fault: Fault) returns (reply: Reply)
      modifies this
      ensures (rows, reply) == RevokeOp(old(rows), id, now, fault)
      ensures rows.Keys == old(rows).Keys && (reply == Ok <==> fault.NoFault?)
      ensures forall x | x in rows ::
        rows[x] == if x == id && old(rows)[x].revokedAt.None? && !fault.LostBefore?
                   then old(rows)[x].(revokedAt := Some(now)) else old(rows)[x]
    {
      if !fault.LostBefore? {
        if id in rows && rows[id].revokedAt.None? {
          rows := rows[id := rows[id].(revokedAt := Some(now))];
        }
        assert rows == Revoked(old(rows), {id}, now);
      }
      reply := if fault.NoFault? then Ok else StorageError;
    }

    /** The `forward` recursive query: each round joins the rows found last with the table and
        keeps what is new. */
    method ForwardQuery(start: Id) returns (found: set<Id>)
      ensures found == Forward(rows, start)
    {
      found := if start in rows then {start} else {};
      assert start in rows ==> Hop(rows, start, 0) == Some(start);
      var latest := found;
      while latest != {}
        invariant latest <= found <= rows.Keys
        invariant start in rows ==> start in found
        invariant start !in rows ==> found == {}
        invariant forall x | x in found :: Reaches(rows, start, x)
        invariant forall x | x in found - latest && rows[x].replacedBy.Some? ::
          rows[x].replacedBy.value in rows ==> rows[x].replacedBy.value in found
        decreases rows.Keys - found, latest
      {
        var next := set y | y in rows && y !in found && (exists f | f in latest :: rows[f].replacedBy == Some(y));
        forall y | y in next ensures Reaches(rows, start, y) {
          var f :| f in latest && rows[f].replacedBy == Some(y);
          var n: nat :| Hop(rows, start, n) == Some(f);
          HopSteps(rows, start, n, f);
        }
        if next != {} {
          var y :| y in next;
          assert y in rows.Keys - found && y !in rows.Keys - (found + next);
        }
        found, latest := found + next, next;
      }
      forall x | x in Forward(rows, start) ensures x in found {
        var n: nat :| Hop(rows, start, n) == Some(x);
        ClosedHoldsForward(rows, found, start, n);
      }
    }

    /** The `backward` recursive query: the same loop over the links into what was found. */
    method BackwardQuery(start: Id) returns (found: set<Id>)
      ensures found == Backward(rows, start)
    {
      found := if start in rows then {start} else {};
      assert start in rows ==> Hop(rows, start, 0) == Some(start);
      var latest := found;
      while latest != {}
        invariant latest <= found <= rows.Keys
        invariant start in rows ==> start in found
        invariant start !in rows ==> found == {}
        invariant forall x | x in found :: Reaches(rows, x, start)
        invariant forall x | x in rows && rows[x].replacedBy.Some? && rows[x].replacedBy.value in found - latest ::
            x in found
        decreases rows.Keys - found, latest
      {
        var next := set x | x in rows && x !in found && rows[x].replacedBy.Some? && rows[x].replacedBy.value in latest;
        forall x | x in next ensures Reaches(rows, x, start) {
          var n: nat :| Hop(rows, rows[x].replacedBy.value, n) == Some(start);
          assert Hop(rows, x, n + 1) == Some(start);
        }
        if next != {} {
          var x :| x in next;
          assert x in rows.Keys - found && x !in rows.Keys - (found + next);
        }
        found, latest := found + next, next;
      }
      forall x | x in Backward(rows, start) ensures x in found {
        var n: nat :| Hop(rows, x, n) == Some(start);
        ClosedHoldsBackward(rows, found, x, n, start);
      }
    }

    method RevokeFamily(start: Id, now: Time, fault: Fault) returns (reply: Reply)
      modifies this
      ensures (rows, reply) == RevokeFamilyOp(old(rows), start, now, fault)
    {
      if !fault.LostBefore? {
        var forward := ForwardQuery(start);
        var backward := BackwardQuery(start);
        rows := map x | x in rows ::
          if x in forward + backward && rows[x].revokedAt.None? then rows[x].(revokedAt := Some(now)) else rows[x];
      }
      reply := if fault.NoFault? then Ok else StorageError;
    }
  }
}
