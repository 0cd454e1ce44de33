/**
 The event persister: a handler that writes each envelope to wallet_events with
 ON CONFLICT (id) DO NOTHING, composed with the at-least-once consumer.
 */
module Persister {
  import opened Broker
  import opened Faults
  import opened KafkaConsumer
  import opened Options

  /** A row of wallet_events; its primary key is the EventID and created_at is left out. */
  datatype WalletEvent = WalletEvent(
    walletId: string,
    txHash: string,
    blockNumber: nat,
    contractAddress: string,
    eventType: string,
    direction: string,
    amount: string,
    tokenSymbol: string,
    rawPayload: string)

  type Table = map<string, WalletEvent>

  predicate ValidForPersist(env: Envelope) {
    && (env.direction == "incoming" || env.direction == "outgoing")
    && env.eventType != "" && env.tokenSymbol != "" && env.amount != ""
  }

  function EnvelopeToDomain(env: Envelope): WalletEvent {
    WalletEvent(env.walletId, env.txHash, env.blockNumber, env.contractAddress,
                env.eventType, env.direction, env.amount, env.tokenSymbol, "")
  }

  /** Column by column, the row is the envelope's. */
  predicate Records(row: WalletEvent, env: Envelope) {
    && row.walletId == env.walletId
    && row.txHash == env.txHash
    && row.blockNumber == env.blockNumber
    && row.contractAddress == env.contractAddress
    && row.eventType == env.eventType
    && row.direction == env.direction
    && row.amount == env.amount
    && row.tokenSymbol == env.tokenSymbol
    && row.rawPayload == ""
  }

  /** First write wins. */
  function Created(t: Table, id: string, event: WalletEvent): Table {
    if id in t then t else t[id := event]
  }

  class EventRepository {
    var table: Table

    constructor ()
      ensures table == map[]
    {
      table := map[];
    }

    /** INSERT ... ON CONFLICT (id) DO NOTHING RETURNING created_at: no row back means a conflict. */
    method Create(id: string, event: WalletEvent, fault: Fault) returns (ok: bool)
      modifies this
      ensures table == if fault.LostBefore? then old(table) else Created(old(table), id, event)
      ensures ok <==> fault.NoFault?
    {
      if fault.LostBefore? {
        return false;
      }
      var returned := id !in table;
      if returned {
        table := table[id := event];
      }
      if fault.LostAfter? {
        return false;
      }
      ok := true;
    }
  }

  class Handler {
    const repo: EventRepository

    constructor (repo: EventRepository)
      ensures this.repo == repo
    {
      this.repo := repo;
    }

    /** Drops what can never be stored, stores the rest; only a storage error asks for a retry. */
    method Handle(env: Option<Envelope>, fault: Fault) returns (ok: bool)
      modifies repo
      ensures env.None? || !ValidForPersist(env.value) ==> ok && repo.table == old(repo.table)
      ensures env.Some? && ValidForPersist(env.value) ==>
        && (ok <==> fault.NoFault?)
        && repo.table == (if fault.LostBefore? then old(repo.table)
                          else Created(old(repo.table), env.value.eventId, EnvelopeToDomain(env.value)))
        && repo.table.Keys == old(repo.table).Keys + (if fault.LostBefore? then {} else {env.value.eventId})
        && (forall id | id in old(repo.table) :: repo.table[id] == old(repo.table)[id])
        && (!fault.LostBefore? && env.value.eventId !in old(repo.table)
            ==> Records(repo.table[env.value.eventId], env.value))
    {
      if env.None? {
        return true;
      }
      if !ValidForPersist(env.value) {
        return true;
      }
      ok := repo.Create(env.value.eventId, EnvelopeToDomain(env.value), fault);
    }
  }

  // ------------------------------------------------------------ the consumer with this handler

  type Position = (nat, nat)

  /** The envelope at a position of the log, if it is there and decodable. */
  function EnvAt(logs: seq<seq<Payload>>, m: Position): Option<Envelope> {
    if m.0 < |logs| && m.1 < |logs[m.0]| then Unmarshal(logs[m.0][m.1]) else None
  }

  /** What the handler may answer: a valid envelope is stored when it reports success, an invalid
      one is dropped with success. */
  predicate HandlerAnswers(env: Envelope, ok: bool, effect: bool) {
    if ValidForPersist(env) then ok ==> effect else ok && !effect
  }

  predicate Inserts(g: Group, a: Action) {
    a.Try? && a.effect && g.phase.Handling? && EnvAt(g.logs, (g.phase.p, g.phase.o)).Some?
  }

  function TableAfter(t: Table, g: Group, a: Action): Table {
    if Inserts(g, a) then
      var env := EnvAt(g.logs, (g.phase.p, g.phase.o)).value;
      Created(t, env.eventId, EnvelopeToDomain(env))
    else t
  }

  /** A run of the consumer group with the persister as its handler, and the table after each step. */
  ghost predicate IsPersisterRun(run: seq<Group>, acts: seq<Action>, tables: seq<Table>, partitions: nat) {
    && IsRun(run, acts, false) && run[0] == NewGroup(partitions)
    && |tables| == |run| && tables[0] == map[]
    && forall i | 0 <= i < |acts| ::
         && tables[i + 1] == TableAfter(tables[i], run[i], acts[i])
         && Answered(run[i], acts[i])
  }

  predicate Answered(g: Group, a: Action) {
    a.Try? && g.phase.Handling? && EnvAt(g.logs, (g.phase.p, g.phase.o)).Some? ==>
      HandlerAnswers(EnvAt(g.logs, (g.phase.p, g.phase.o)).value, a.ok, a.effect)
  }

  /** Envelopes with one EventID sit in one partition: the publisher's key is the wallet id, which
      the EventID determines. */
  ghost predicate KeyedByPartition(logs: seq<seq<Payload>>) {
    forall m, m' | EnvAt(logs, m).Some? && EnvAt(logs, m').Some?
        && EnvAt(logs, m).value.eventId == EnvAt(logs, m').value.eventId :: m.0 == m'.0
  }

  /** The positions whose insert took effect at least once. */
  function Took(attempts: seq<Attempt>): set<Position> {
    set j | 0 <= j < |attempts| && attempts[j].effect :: (attempts[j].p, attempts[j].o)
  }

  ghost predicate TookAs(logs: seq<seq<Payload>>, took: set<Position>, m: Position, id: string) {
    m in took && EnvAt(logs, m).Some? && EnvAt(logs, m).value.eventId == id
  }

  /** Row `id` of the table comes from `m`, and no lower offset of that partition took effect. */
  ghost predicate FirstFor(t: Table, logs: seq<seq<Payload>>, took: set<Position>, id: string, m: Position)
    requires id in t
  {
    && TookAs(logs, took, m, id)
    && Records(t[id], EnvAt(logs, m).value)
    && forall m' | TookAs(logs, took, m', id) && m'.0 == m.0 :: m.1 <= m'.1
  }

  ghost predicate FirstWins(t: Table, logs: seq<seq<Payload>>, took: set<Position>) {
    && (forall m, id | TookAs(logs, took, m, id) :: id in t)
    && (forall id | id in t :: exists m :: FirstFor(t, logs, took, id, m))
  }

  /** First-wins leaves no freedom: the table is determined by the log and what took effect. */
  lemma FirstWinsIsUnique(t: Table, u: Table, logs: seq<seq<Payload>>, took: set<Position>)
    requires KeyedByPartition(logs) && FirstWins(t, logs, took) && FirstWins(u, logs, took)
    ensures t == u
  {
    SameIds(t, u, logs, took);
    SameIds(u, t, logs, took);
    forall id | id in t ensures t[id] == u[id] {
      SameRow(t, u, logs, took, id);
    }
  }

  lemma SameIds(t: Table, u: Table, logs: seq<seq<Payload>>, took: set<Position>)
    requires FirstWins(t, logs, took) && FirstWins(u, logs, took)
    ensures t.Keys <= u.Keys
  {
    forall id | id in t ensures id in u {
      var m :| FirstFor(t, logs, took, id, m);
      assert TookAs(logs, took, m, id);
    }
  }

  lemma SameRow(t: Table, u: Table, logs: seq<seq<Payload>>, took: set<Position>, id: string)
    requires KeyedByPartition(logs) && FirstWins(t, logs, took) && FirstWins(u, logs, took) && id in t && id in u
    ensures t[id] == u[id]
  {
    var m :| FirstFor(t, logs, took, id, m);
    var m' :| FirstFor(u, logs, took, id, m');
    assert m.0 == m'.0 && m.1 <= m'.1 <= m.1;
  }

  ghost predicate LogsGrow(logs: seq<seq<Payload>>, logs': seq<seq<Payload>>) {
    |logs| == |logs'| && forall p | 0 <= p < |logs| :: logs[p] <= logs'[p]
  }

  lemma EnvAtGrows(logs: seq<seq<Payload>>, logs': seq<seq<Payload>>, m: Position)
    requires LogsGrow(logs, logs') && EnvAt(logs, m).Some?
    ensures EnvAt(logs', m) == EnvAt(logs, m)
  {
  }

  /** Appending to the log changes nothing: new positions have not taken effect. */
  lemma FirstWinsGrows(t: Table, logs: seq<seq<Payload>>, logs': seq<seq<Payload>>, took: set<Position>)
    requires LogsGrow(logs, logs') && FirstWins(t, logs, took)
    requires forall m | m in took :: EnvAt(logs, m).Some?
    ensures FirstWins(t, logs', took)
  {
    forall m | m in took ensures EnvAt(logs', m) == EnvAt(logs, m) {
      EnvAtGrows(logs, logs', m);
    }
    forall id | id in t ensures exists m :: FirstFor(t, logs', took, id, m) {
      var m :| FirstFor(t, logs, took, id, m);
      assert FirstFor(t, logs', took, id, m);
    }
    forall m, id | TookAs(logs', took, m, id) ensures id in t {
      assert TookAs(logs, took, m, id);
    }
  }

  /** One more insert, at a position no lower than any earlier one of its partition. */
  lemma InsertKeepsFirstWins(t: Table, logs: seq<seq<Payload>>, took: set<Position>, m: Position)
    requires KeyedByPartition(logs) && FirstWins(t, logs, took) && EnvAt(logs, m).Some?
    requires forall m' | m' in took && m'.0 == m.0 :: m'.1 <= m.1
    ensures var env := EnvAt(logs, m).value;
      FirstWins(Created(t, env.eventId, EnvelopeToDomain(env)), logs, took + {m})
  {
    var id0 := EnvAt(logs, m).value.eventId;
    var t' := Created(t, id0, EnvelopeToDomain(EnvAt(logs, m).value));
    forall id | id in t' ensures exists n :: FirstFor(t', logs, took + {m}, id, n) {
      if id in t {
        var n :| FirstFor(t, logs, took, id, n);
        assert FirstFor(t', logs, took + {m}, id, n) by {
          forall m' | TookAs(logs, took + {m}, m', id) && m'.0 == n.0 ensures n.1 <= m'.1 {
            assert m' == m || TookAs(logs, took, m', id);
          }
        }
      } else {
        assert FirstFor(t', logs, took + {m}, id, m) by {
          forall m' | TookAs(logs, took + {m}, m', id) ensures m' == m {
            assert m' == m || TookAs(logs, took, m', id);
          }
        }
      }
    }
    forall m', id | TookAs(logs, took + {m}, m', id) ensures id in t' {
      assert m' == m || TookAs(logs, took, m', id);
    }
  }

  // ------------------------------------------------------------ whole runs

  ghost predicate AttemptsAnswered(g: Group) {
    forall j | 0 <= j < |g.attempts| :: AttemptAnswered(g.logs, g.attempts[j])
  }

  predicate AttemptAnswered(logs: seq<seq<Payload>>, a: Attempt) {
    EnvAt(logs, (a.p, a.o)).Some? && HandlerAnswers(EnvAt(logs, (a.p, a.o)).value, a.ok, a.effect)
  }

  lemma TookAfterTry(attempts: seq<Attempt>, a: Attempt)
    ensures Took(attempts + [a]) == if a.effect then Took(attempts) + {(a.p, a.o)} else Took(attempts)
  {
    var longer := attempts + [a];
    assert a.effect ==> longer[|attempts|].effect;
    forall m | m in Took(attempts) ensures m in Took(longer) {
      var j :| 0 <= j < |attempts| && attempts[j].effect && (attempts[j].p, attempts[j].o) == m;
      assert longer[j] == attempts[j];
    }
  }

  lemma TookIsDecodable(g: Group)
    requires AttemptsAnswered(g)
    ensures forall m | m in Took(g.attempts) :: EnvAt(g.logs, m).Some?
  {
    forall m | m in Took(g.attempts) ensures EnvAt(g.logs, m).Some? {
      var j :| 0 <= j < |g.attempts| && g.attempts[j].effect && (g.attempts[j].p, g.attempts[j].o) == m;
      assert AttemptAnswered(g.logs, g.attempts[j]);
    }
  }

  lemma StepKeepsAnswered(g: Group, a: Action)
    requires Inv(g) && Enabled(g, a) && Answered(g, a) && AttemptsAnswered(g)
    ensures AttemptsAnswered(Next(g, a, false)) && LogsGrow(g.logs, Next(g, a, false).logs)
  {
    var g' := Next(g, a, false);
    forall j | 0 <= j < |g.attempts| ensures AttemptAnswered(g'.logs, g.attempts[j]) {
      assert AttemptAnswered(g.logs, g.attempts[j]);
      EnvAtGrows(g.logs, g'.logs, (g.attempts[j].p, g.attempts[j].o));
    }
  }

  lemma TryKeepsTable(g: Group, a: Action, t: Table)
    requires Inv(g) && Enabled(g, a) && a.Try? && KeyedByPartition(g.logs) && FirstWins(t, g.logs, Took(g.attempts))
    ensures var g' := Next(g, a, false); FirstWins(TableAfter(t, g, a), g'.logs, Took(g'.attempts))
  {
    var g' := Next(g, a, false);
    var m := (g.phase.p, g.phase.o);
    StepKeepsInv(g, a);
    TookAfterTry(g.attempts, g'.attempts[|g.attempts|]);
    forall m' | m' in Took(g.attempts) && m'.0 == m.0 ensures m'.1 <= m.1 {
      var j :| 0 <= j < |g.attempts| && g.attempts[j].effect && (g.attempts[j].p, g.attempts[j].o) == m';
    }
    if a.effect {
      InsertKeepsFirstWins(t, g.logs, Took(g.attempts), m);
    }
  }

  lemma StepKeepsTable(g: Group, a: Action, t: Table)
    requires Inv(g) && Enabled(g, a) && Answered(g, a) && AttemptsAnswered(g)
    requires KeyedByPartition(Next(g, a, false).logs)
    requires FirstWins(t, g.logs, Took(g.attempts))
    ensures var g' := Next(g, a, false);
      AttemptsAnswered(g') && FirstWins(TableAfter(t, g, a), g'.logs, Took(g'.attempts))
  {
    StepKeepsAnswered(g, a);
    if a.Try? {
      TryKeepsTable(g, a, t);
    } else {
      TookIsDecodable(g);
      FirstWinsGrows(t, g.logs, Next(g, a, false).logs, Took(g.attempts));
    }
  }

  lemma KeyedBefore(logs: seq<seq<Payload>>, logs': seq<seq<Payload>>)
    requires LogsGrow(logs, logs') && KeyedByPartition(logs')
    ensures KeyedByPartition(logs)
  {
    forall m, m' | EnvAt(logs, m).Some? && EnvAt(logs, m').Some?
        && EnvAt(logs, m).value.eventId == EnvAt(logs, m').value.eventId ensures m.0 == m'.0 {
      EnvAtGrows(logs, logs', m);
      EnvAtGrows(logs, logs', m');
    }
  }

  lemma {:induction false} RunKeepsTable(run: seq<Group>, acts: seq<Action>, tables: seq<Table>, partitions: nat,
          i: nat)
    requires IsPersisterRun(run, acts, tables, partitions) && i <= |acts| && KeyedByPartition(run[i].logs)
    ensures AttemptsAnswered(run[i]) && FirstWins(tables[i], run[i].logs, Took(run[i].attempts))
  {
    if i > 0 {
      CommitsNeverDecrease(run, acts, partitions, i - 1, i);
      KeyedBefore(run[i - 1].logs, run[i].logs);
      RunKeepsTable(run, acts, tables, partitions, i - 1);
      RunKeepsInv(run, acts, i - 1);
      assert Answered(run[i - 1], acts[i - 1]);
      StepKeepsTable(run[i - 1], acts[i - 1], tables[i - 1]);
    }
  }

  // ------------------------------------------------------------ the crash-free reference

  /** One pass over the log, partition after partition, every message exactly once: the first
      `o` messages of partition `p` and everything before them. */
  function SequentialPass(logs: seq<seq<Payload>>, took: set<Position>, p: nat, o: nat): Table
    requires p <= |logs| && o <= (if p < |logs| then |logs[p]| else 0)
    decreases p, o
  {
    if o > 0 then
      var t := SequentialPass(logs, took, p, o - 1);
      var env := EnvAt(logs, (p, o - 1));
      if (p, o - 1) in took && env.Some? then Created(t, env.value.eventId, EnvelopeToDomain(env.value)) else t
    else if p > 0 then SequentialPass(logs, took, p - 1, |logs[p - 1]|)
    else map[]
  }

  function Before(took: set<Position>, p: nat, o: nat): set<Position> {
    set m | m in took && (m.0 < p || (m.0 == p && m.1 < o))
  }

  lemma {:induction false} SequentialPassFirstWins(logs: seq<seq<Payload>>, took: set<Position>, p: nat, o: nat)
    requires p <= |logs| && o <= (if p < |logs| then |logs[p]| else 0) && KeyedByPartition(logs)
    requires forall m | m in took :: EnvAt(logs, m).Some?
    ensures FirstWins(SequentialPass(logs, took, p, o), logs, Before(took, p, o))
    decreases p, o
  {
    if o > 0 {
      SequentialPassFirstWins(logs, took, p, o - 1);
      var m := (p, o - 1);
      if m in took {
        assert Before(took, p, o) == Before(took, p, o - 1) + {m};
        InsertKeepsFirstWins(SequentialPass(logs, took, p, o - 1), logs, Before(took, p, o - 1), m);
      } else {
        assert Before(took, p, o) == Before(took, p, o - 1);
      }
    } else if p > 0 {
      SequentialPassFirstWins(logs, took, p - 1, |logs[p - 1]|);
      assert Before(took, p, 0) == Before(took, p - 1, |logs[p - 1]|) by {
        forall m | m in took && m.0 == p - 1 ensures m.1 < |logs[p - 1]| {
          assert EnvAt(logs, m).Some?;
        }
      }
    }
  }

  /** However often the process crashed and messages were redelivered, the table is the one that a
      single crash-free pass over the log would leave, given which messages ever took effect; and
      each row comes from the lowest such offset of its partition. */
  lemma TableIsFunctionOfLog(run: seq<Group>, acts: seq<Action>, tables: seq<Table>, partitions: nat)
    requires IsPersisterRun(run, acts, tables, partitions) && KeyedByPartition(run[|acts|].logs)
    ensures var g, t := run[|acts|], tables[|acts|];
      && t == SequentialPass(g.logs, Took(g.attempts), |g.logs|, 0)
      && FirstWins(t, g.logs, Took(g.attempts))
  {
    var g, t := run[|acts|], tables[|acts|];
    var took := Took(g.attempts);
    RunKeepsTable(run, acts, tables, partitions, |acts|);
    TookIsDecodable(g);
    SequentialPassFirstWins(g.logs, took, |g.logs|, 0);
    assert Before(took, |g.logs|, 0) == took by {
      forall m | m in took ensures m.0 < |g.logs| {
        assert EnvAt(g.logs, m).Some?;
      }
    }
    FirstWinsIsUnique(t, SequentialPass(g.logs, took, |g.logs|, 0), g.logs, took);
  }

  /** At-least-once, end to end: below the committed offset, every message the table can hold is
      in the table, unless three tries in a row to store it failed. */
  lemma CommittedIsPersisted(run: seq<Group>, acts: seq<Action>, tables: seq<Table>, partitions: nat, p: nat, o: nat)
    requires IsPersisterRun(run, acts, tables, partitions) && KeyedByPartition(run[|acts|].logs)
    requires var g := run[|acts|];
      p < |g.committed| && o < g.committed[p] && EnvAt(g.logs, (p, o)).Some?
          && ValidForPersist(EnvAt(g.logs, (p, o)).value)
    ensures var g := run[|acts|];
      || EnvAt(g.logs, (p, o)).value.eventId in tables[|acts|]
      || exists i: nat :: FailedTries(g.attempts, p, o, i, MAX_RETRIES)
  {
    var g := run[|acts|];
    RunKeepsTable(run, acts, tables, partitions, |acts|);
    RunKeepsInv(run, acts, |acts|);
    assert Disposed(g, p, o);
    if Succeeded(g.attempts, p, o) {
      var i :| 0 <= i < |g.attempts| && g.attempts[i].p == p && g.attempts[i].o == o && g.attempts[i].ok;
      assert AttemptAnswered(g.logs, g.attempts[i]);
      assert (p, o) in Took(g.attempts);
      assert TookAs(g.logs, Took(g.attempts), (p, o), EnvAt(g.logs, (p, o)).value.eventId);
    }
  }

  /** Every row of the table is one the schema allows, and a decodable message's. */
  lemma RowsAreValid(run: seq<Group>, acts: seq<Action>, tables: seq<Table>, partitions: nat, id: string)
    requires IsPersisterRun(run, acts, tables, partitions) && KeyedByPartition(run[|acts|].logs) && id in tables[|acts|]
    ensures var row := tables[|acts|][id];
      && (row.direction == "incoming" || row.direction == "outgoing")
      && "" !in {id, row.eventType, row.tokenSymbol, row.amount, row.walletId, row.txHash, row.contractAddress}
  {
    var g, t := run[|acts|], tables[|acts|];
    RunKeepsTable(run, acts, tables, partitions, |acts|);
    var m :| FirstFor(t, g.logs, Took(g.attempts), id, m);
    var j :| 0 <= j < |g.attempts| && g.attempts[j].effect && (g.attempts[j].p, g.attempts[j].o) == m;
    assert AttemptAnswered(g.logs, g.attempts[j]);
  }
}
