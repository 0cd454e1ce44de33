/**
 EventIDs: a digest of the natural key of a wallet event, its fields joined with '|'.

 `hash` stands for the first eight bytes of SHA-256 written in hex; the theorems need it to be
 collision-free, as the code does.
 */
module EventIdentity {
  import opened Broker
  import K = KafkaConsumer
  import opened Normalizer
  import opened Options
  import opened Persister

  const NETWORK := "ethereum"

  ghost predicate CollisionFree(hash: string -> string) {
    forall a, b | hash(a) == hash(b) :: a == b
  }

  predicate NoBar(s: string) {
    '|' !in s
  }

  function NaturalKey(network: string, txHash: string, logIndex: string, walletId: string, direction: string): string {
    network + "|" + txHash + "|" + logIndex + "|" + walletId + "|" + direction
  }

  function MakeEventId(hash: string -> string, network: string, txHash: string, logIndex: string, walletId: string,
                       direction: string): string {
    "evt_" + hash(NaturalKey(network, txHash, logIndex, walletId, direction))
  }

  function EventToEnvelope(hash: string -> string, e: Event, emittedAt: nat): Envelope {
    Envelope(MakeEventId(hash, NETWORK, e.txHash, e.logIndex, e.walletId, e.direction), SCHEMA_CURRENT, NETWORK,
        "transfer",
             e.direction, e.walletId, e.tokenSymbol, e.contractAddress, e.amount, e.txHash, e.blockNumber, emittedAt)
  }

  /** Field by field, the envelope is the event's. */
  predicate Wraps(env: Envelope, e: Event, emittedAt: nat) {
    && env.schemaVersion == 1 && env.network == "ethereum" && env.eventType == "transfer"
    && env.walletId == e.walletId
    && env.direction == e.direction
    && env.txHash == e.txHash
    && env.blockNumber == e.blockNumber
    && env.contractAddress == e.contractAddress
    && env.amount == e.amount
    && env.tokenSymbol == e.tokenSymbol
    && env.emittedAt == emittedAt
  }

  /** The envelope of an event: its fields, and the EventID as it goes over the wire. */
  lemma EnvelopeWraps(hash: string -> string, e: Event, emittedAt: nat)
    ensures Wraps(EventToEnvelope(hash, e, emittedAt), e, emittedAt)
    ensures EventToEnvelope(hash, e, emittedAt).eventId
         == "evt_" + hash("ethereum|" + e.txHash + "|" + e.logIndex + "|" + e.walletId + "|" + e.direction)
  {
    assert NETWORK + "|" == "ethereum|";
  }

  /** What the publisher's validation asks of an event. */
  lemma PublishableIff(hash: string -> string, e: Event, emittedAt: nat)
    ensures Valid(EventToEnvelope(hash, e, emittedAt))
       <==> e.walletId != "" && e.txHash != "" && e.contractAddress != ""
  {
    var id := EventToEnvelope(hash, e, emittedAt).eventId;
    assert id[0] == 'e';
  }

  // ------------------------------------------------------------ reading a key back

  /** The first field of a joined text can be read back when it has no bar. */
  lemma {:induction false} FirstField(a: string, b: string, s: string, t: string)
    requires NoBar(a) && NoBar(b) && a + "|" + s == b + "|" + t
    ensures a == b && s == t
    decreases |a|
  {
    var u, v := a + "|" + s, b + "|" + t;
    assert a == "" ==> u[0] == '|' && u[1..] == s;
    assert b == "" ==> v[0] == '|' && v[1..] == t;
    assert a != "" ==> u[0] == a[0] && a[0] in a;
    assert b != "" ==> v[0] == b[0] && b[0] in b;
    if a != "" && b != "" {
      assert u[1..] == a[1..] + "|" + s && v[1..] == b[1..] + "|" + t;
      FirstField(a[1..], b[1..], s, t);
      assert a == [a[0]] + a[1..] && b == [b[0]] + b[1..];
    }
  }

  /** So can the last one. */
  lemma LastField(s: string, a: string, t: string, b: string)
    requires NoBar(a) && NoBar(b) && s + "|" + a == t + "|" + b
    ensures s == t && a == b
  {
    var u := s + "|" + a;
    assert u[|s|] == '|' && u[|t|] == '|';
    assert u[|s| + 1..] == a && u[|t| + 1..] == b;
    assert forall i | |s| < i < |u| :: u[i] == a[i - |s| - 1];
    assert forall i | |t| < i < |u| :: u[i] == b[i - |t| - 1];
    assert u[..|s|] == s && u[..|t|] == t;
  }

  predicate IsDirection(d: string) {
    d == "incoming" || d == "outgoing"
  }

  lemma DirectionHasNoBar(d: string)
    requires IsDirection(d)
    ensures NoBar(d)
  {
  }

  lemma KeyShape(tx: string, li: string, w: string, d: string)
    ensures NaturalKey(NETWORK, tx, li, w, d) == NETWORK + "|" + (tx + "|" + (li + "|" + (w + "|" + d)))
  {
  }

  lemma NetworkHasNoBar()
    ensures NoBar(NETWORK)
  {
  }

  /** A key determines its fields, whatever is in the wallet id. */
  lemma KeyFields(tx: string, li: string, w: string, d: string, tx': string, li': string, w': string, d': string)
    requires NoBar(tx) && NoBar(li) && NoBar(d) && NoBar(tx') && NoBar(li') && NoBar(d')
    requires NaturalKey(NETWORK, tx, li, w, d) == NaturalKey(NETWORK, tx', li', w', d')
    ensures tx == tx' && li == li' && w == w' && d == d'
  {
    KeyShape(tx, li, w, d);
    KeyShape(tx', li', w', d');
    NetworkHasNoBar();
    FirstField(NETWORK, NETWORK, tx + "|" + (li + "|" + (w + "|" + d)), tx' + "|" + (li' + "|" + (w' + "|" + d')));
    FirstField(tx, tx', li + "|" + (w + "|" + d), li' + "|" + (w' + "|" + d'));
    FirstField(li, li', w + "|" + d, w' + "|" + d');
    LastField(w, d, w', d');
  }

  function IdOf(hash: string -> string, e: Event): string {
    MakeEventId(hash, NETWORK, e.txHash, e.logIndex, e.walletId, e.direction)
  }

  lemma SameIdSameKey(hash: string -> string, e: Event, f: Event)
    requires CollisionFree(hash) && IdOf(hash, e) == IdOf(hash, f)
    ensures NaturalKey(NETWORK, e.txHash, e.logIndex, e.walletId, e.direction)
         == NaturalKey(NETWORK, f.txHash, f.logIndex, f.walletId, f.direction)
  {
    var k := NaturalKey(NETWORK, e.txHash, e.logIndex, e.walletId, e.direction);
    var l := NaturalKey(NETWORK, f.txHash, f.logIndex, f.walletId, f.direction);
    assert IdOf(hash, e)[4..] == hash(k) && IdOf(hash, f)[4..] == hash(l);
  }

  /** Two events share an EventID exactly when they agree on transaction, log index, wallet and
      direction. Only the first two must be free of bars: a wallet id may hold any. */
  lemma EventIdIdentifiesKey(hash: string -> string, e: Event, f: Event)
    requires CollisionFree(hash) && IsDirection(e.direction) && IsDirection(f.direction)
    requires NoBar(e.txHash) && NoBar(e.logIndex) && NoBar(f.txHash) && NoBar(f.logIndex)
    ensures IdOf(hash, e) == IdOf(hash, f)
       <==> e.txHash == f.txHash && e.logIndex == f.logIndex && e.walletId == f.walletId && e.direction == f.direction
  {
    if IdOf(hash, e) == IdOf(hash, f) {
      SameIdSameKey(hash, e, f);
      DirectionHasNoBar(e.direction);
      DirectionHasNoBar(f.direction);
      KeyFields(e.txHash, e.logIndex, e.walletId, e.direction, f.txHash, f.logIndex, f.walletId, f.direction);
    }
  }

  // ------------------------------------------------------------ exactly when a log owns its key

  /** Nothing else gives the same key: no other transaction, log index, wallet or direction. */
  ghost predicate OwnsKey(tx: string, li: string, w: string, d: string) {
    forall tx', li', w', d' | IsDirection(d')
        && NaturalKey(NETWORK, tx', li', w', d') == NaturalKey(NETWORK, tx, li, w, d)
      :: tx' == tx && li' == li && w' == w && d' == d
  }

  /** No other transaction and log index give the same key for this wallet and direction. */
  ghost predicate OwnsKeyInWallet(tx: string, li: string, w: string, d: string) {
    forall tx', li' | NaturalKey(NETWORK, tx', li', w, d) == NaturalKey(NETWORK, tx, li, w, d) :: tx' == tx && li' == li
  }

  /** A bar in the transaction hash can be read as the separator, and so can one in the log index. */
  lemma BarCollides(a: string, b: string, other: string, w: string, d: string)
    ensures NaturalKey(NETWORK, a + "|" + b, other, w, d) == NaturalKey(NETWORK, a, b + "|" + other, w, d)
  {
    KeyShape(a + "|" + b, other, w, d);
    KeyShape(a, b + "|" + other, w, d);
    var rest := other + "|" + (w + "|" + d);
    assert (a + "|" + b) + "|" + rest == a + "|" + ((b + "|" + other) + "|" + (w + "|" + d));
  }

  lemma SplitAtBar(s: string) returns (a: string, b: string)
    requires !NoBar(s)
    ensures s == a + "|" + b
  {
    var i :| 0 <= i < |s| && s[i] == '|';
    a, b := s[..i], s[i + 1..];
  }

  /** With one bar in all, the text before it and the text after it are the only reading. */
  lemma OneBar(tx: string, li: string, tx': string, li': string)
    requires NoBar(tx) && NoBar(li) && tx + "|" + li == tx' + "|" + li'
    ensures tx == tx' && li == li'
  {
    var u := tx' + "|" + li';
    assert u[|tx'|] == '|';
    assert forall i | 0 <= i < |u| && i != |tx| :: u[i] == if i < |tx| then tx[i] else li[i - |tx| - 1];
    assert u[..|tx|] == tx && u[|tx| + 1..] == li;
    assert u[..|tx'|] == tx' && u[|tx'| + 1..] == li';
  }

  lemma BarFreeOwnsKey(tx: string, li: string, w: string, d: string, tx': string, li': string)
    requires NoBar(tx) && NoBar(li) && NaturalKey(NETWORK, tx', li', w, d) == NaturalKey(NETWORK, tx, li, w, d)
    ensures tx' == tx && li' == li
  {
    var tail := "|" + w + "|" + d;
    var mine, other := tx + "|" + li, tx' + "|" + li';
    assert NaturalKey(NETWORK, tx, li, w, d) == NETWORK + "|" + mine + tail;
    assert NaturalKey(NETWORK, tx', li', w, d) == NETWORK + "|" + other + tail;
    SameMiddle(NETWORK + "|", mine, other, tail);
    OneBar(tx, li, tx', li');
  }

  lemma SameMiddle(front: string, a: string, b: string, tail: string)
    requires front + a + tail == front + b + tail
    ensures a == b
  {
    var u := front + a + tail;
    assert |a| == |b|;
    assert u[|front|..|front| + |a|] == a && u[|front|..|front| + |b|] == b;
  }

  /** Against the logs of its own wallet and direction a log owns its key if and only if neither its
      transaction hash nor its log index has a bar. */
  lemma OwnsKeyInWalletIff(tx: string, li: string, w: string, d: string)
    ensures OwnsKeyInWallet(tx, li, w, d) <==> NoBar(tx) && NoBar(li)
  {
    if NoBar(tx) && NoBar(li) {
      forall tx', li' | NaturalKey(NETWORK, tx', li', w, d) == NaturalKey(NETWORK, tx, li, w, d)
        ensures tx' == tx && li' == li
      {
        BarFreeOwnsKey(tx, li, w, d, tx', li');
      }
    } else {
      BarSharesKey(tx, li, w, d);
    }
  }

  lemma BarSharesKey(tx: string, li: string, w: string, d: string)
    requires !NoBar(tx) || !NoBar(li)
    ensures !OwnsKeyInWallet(tx, li, w, d)
  {
    if !NoBar(tx) {
      var a, b := SplitAtBar(tx);
      BarCollides(a, b, li, w, d);
      assert |a| < |tx|;
    } else {
      var a, b := SplitAtBar(li);
      BarCollides(tx, a, b, w, d);
      assert |tx + "|" + a| > |tx|;
    }
  }

  /** A bar in the wallet id can be read as the separator too. */
  lemma WalletBarCollides(tx: string, li: string, a: string, b: string, d: string)
    ensures NaturalKey(NETWORK, tx, li, a + "|" + b, d) == NaturalKey(NETWORK, tx, li + "|" + a, b, d)
  {
    KeyShape(tx, li, a + "|" + b, d);
    KeyShape(tx, li + "|" + a, b, d);
    assert li + "|" + ((a + "|" + b) + "|" + d) == (li + "|" + a) + "|" + (b + "|" + d);
  }

  /** With two bars in all, the three texts between them are the only reading. */
  lemma TwoBars(a: string, b: string, c: string, a': string, b': string, c': string)
    requires NoBar(a) && NoBar(b) && NoBar(c) && a + "|" + b + "|" + c == a' + "|" + b' + "|" + c'
    ensures a == a' && b == b' && c == c'
  {
    var p, q, u := |a|, |a| + 1 + |b|, a' + "|" + b' + "|" + c';
    assert u[|a'|] == '|' && u[|a'| + 1 + |b'|] == '|';
    forall i | 0 <= i < |u| && i != p && i != q ensures u[i] != '|' {
      assert u[i] == if i < p then a[i] else if i < q then b[i - p - 1] else c[i - q - 1];
    }
    assert |a'| == p && |b'| == |b|;
    assert u[..p] == a && u[p + 1..q] == b && u[q + 1..] == c;
    assert u[..p] == a' && u[p + 1..q] == b' && u[q + 1..] == c';
  }

  lemma FieldsFromKey(tx: string, li: string, w: string, d: string, tx': string, li': string, w': string, d': string)
    requires NoBar(tx) && NoBar(li) && NoBar(w) && NoBar(d) && NoBar(d')
    requires NaturalKey(NETWORK, tx, li, w, d) == NaturalKey(NETWORK, tx', li', w', d')
    ensures tx == tx' && li == li' && w == w' && d == d'
  {
    var mine, other := tx + "|" + li + "|" + w, tx' + "|" + li' + "|" + w';
    assert NaturalKey(NETWORK, tx, li, w, d) == (NETWORK + "|" + mine) + "|" + d;
    assert NaturalKey(NETWORK, tx', li', w', d') == (NETWORK + "|" + other) + "|" + d';
    LastField(NETWORK + "|" + mine, d, NETWORK + "|" + other, d');
    assert (NETWORK + "|" + mine)[|NETWORK| + 1..] == mine && (NETWORK + "|" + other)[|NETWORK| + 1..] == other;
    TwoBars(tx, li, w, tx', li', w');
  }

  /** A log's key is its own, against every other transaction, log index, wallet and direction, if and
      only if its transaction hash, its log index and its wallet id hold no bar. */
  lemma OwnsKeyIffBarFree(tx: string, li: string, w: string, d: string)
    requires IsDirection(d)
    ensures OwnsKey(tx, li, w, d) <==> NoBar(tx) && NoBar(li) && NoBar(w)
  {
    if NoBar(tx) && NoBar(li) && NoBar(w) {
      forall tx', li', w', d' | IsDirection(d')
          && NaturalKey(NETWORK, tx', li', w', d') == NaturalKey(NETWORK, tx, li, w, d)
        ensures tx' == tx && li' == li && w' == w && d' == d
      {
        FieldsFromKey(tx, li, w, d, tx', li', w', d');
      }
    } else if NoBar(tx) && NoBar(li) {
      var a, b := SplitAtBar(w);
      WalletBarCollides(tx, li, a, b, d);
      assert |b| < |w|;
    } else {
      BarSharesKey(tx, li, w, d);
    }
  }

  /** Every event with this one's EventID is about its transaction, log, wallet and direction. */
  ghost predicate OwnsEventId(hash: string -> string, e: Event) {
    forall f: Event | IsDirection(f.direction) && IdOf(hash, f) == IdOf(hash, e) ::
      f.txHash == e.txHash && f.logIndex == e.logIndex && f.walletId == e.walletId && f.direction == e.direction
  }

  lemma OwnsEventIdIffBarFree(hash: string -> string, e: Event)
    requires CollisionFree(hash) && IsDirection(e.direction)
    ensures OwnsEventId(hash, e) <==> NoBar(e.txHash) && NoBar(e.logIndex) && NoBar(e.walletId)
  {
    var tx, li, w, d := e.txHash, e.logIndex, e.walletId, e.direction;
    OwnsKeyIffBarFree(tx, li, w, d);
    if OwnsKey(tx, li, w, d) {
      forall f: Event | IsDirection(f.direction) && IdOf(hash, f) == IdOf(hash, e)
        ensures f.txHash == tx && f.logIndex == li && f.walletId == w && f.direction == d
      {
        SameIdSameKey(hash, f, e);
      }
    } else {
      var tx', li', w', d' :| IsDirection(d')
          && NaturalKey(NETWORK, tx', li', w', d') == NaturalKey(NETWORK, tx, li, w, d)
        && !(tx' == tx && li' == li && w' == w && d' == d);
      var f := e.(txHash := tx', logIndex := li', walletId := w', direction := d');
      assert IdOf(hash, f) == IdOf(hash, e);
    }
  }

  // ------------------------------------------------------------ the logs behind a topic

  /** The transfers a chain holds, the wallets tracked and the topic's partitioner. */
  datatype Feed = Feed(
    hash: string -> string,
    transfers: set<RawLog>,
    tracked: map<string, string>,
    amount: RawLog -> string,
    partitionOf: string -> nat)

  /** A transaction hash and a log index, both free of bars, determine the log. */
  ghost predicate Indexed(feed: Feed) {
    && CollisionFree(feed.hash)
    && (forall r | r in feed.transfers :: NoBar(r.txHash) && NoBar(r.logIndex))
    && forall r, s | r in feed.transfers && s in feed.transfers && r.txHash == s.txHash && r.logIndex == s.logIndex ::
        r == s
  }

  function EventOf(feed: Feed, r: RawLog): Option<Event> {
    NormalizeTransferLog(r, feed.tracked, feed.amount(r))
  }

  function LogId(feed: Feed, r: RawLog): string
    requires EventOf(feed, r).Some?
  {
    IdOf(feed.hash, EventOf(feed, r).value)
  }

  lemma EventKeepsIdentity(feed: Feed, r: RawLog)
    requires EventOf(feed, r).Some?
    ensures var e := EventOf(feed, r).value;
      e.txHash == r.txHash && e.logIndex == r.logIndex && IsDirection(e.direction)
  {
  }

  /** Different logs of the chain get different EventIDs; one log gets the same one however often it
      is fetched or published, since neither the clock nor the attempt enters into it. */
  lemma LogsHaveOwnEventIds(feed: Feed, r: RawLog, s: RawLog, t: nat, u: nat)
    requires Indexed(feed) && r in feed.transfers && s in feed.transfers
    requires EventOf(feed, r).Some? && EventOf(feed, s).Some?
    ensures LogId(feed, r) == LogId(feed, s) <==> r == s
    ensures EventToEnvelope(feed.hash, EventOf(feed, r).value, t).eventId == LogId(feed, r)
         == EventToEnvelope(feed.hash, EventOf(feed, r).value, u).eventId
  {
    EventKeepsIdentity(feed, r);
    EventKeepsIdentity(feed, s);
    EventIdIdentifiesKey(feed.hash, EventOf(feed, r).value, EventOf(feed, s).value);
  }

  /** The message at `m` carries the log `r`. */
  ghost predicate Carries(feed: Feed, logs: seq<seq<Payload>>, m: Position, r: RawLog) {
    && r in feed.transfers && EventOf(feed, r).Some? && EnvAt(logs, m).Some?
    && m.0 == feed.partitionOf(EventOf(feed, r).value.walletId)
    && exists t :: EnvAt(logs, m).value == EventToEnvelope(feed.hash, EventOf(feed, r).value, t)
  }

  /** Every decodable message of the topic was published from some log of the chain, in the partition
      its wallet is keyed to. */
  ghost predicate PublishedFrom(feed: Feed, logs: seq<seq<Payload>>) {
    forall m {:trigger EnvAt(logs, m)} | EnvAt(logs, m).Some? :: exists r :: Carries(feed, logs, m, r)
  }

  lemma CarriedId(feed: Feed, logs: seq<seq<Payload>>, m: Position, r: RawLog)
    requires Carries(feed, logs, m, r)
    ensures EnvAt(logs, m).value.eventId == LogId(feed, r)
    ensures Wraps(EnvAt(logs, m).value, EventOf(feed, r).value, EnvAt(logs, m).value.emittedAt)
  {
  }

  /** Column by column, the row is the log's, whenever it was published. */
  predicate RowIsOf(feed: Feed, row: WalletEvent, r: RawLog) {
    var contract := ToLower(r.address);
    && |r.topics| >= 3
    && (var from, to := TopicToAddress(r.topics[1]), TopicToAddress(r.topics[2]);
        if from in feed.tracked then row.walletId == feed.tracked[from] && row.direction == "outgoing"
        else to in feed.tracked && row.walletId == feed.tracked[to] && row.direction == "incoming")
    && row.txHash == r.txHash
    && ParseHexUint64(r.blockNumber) == Some(row.blockNumber)
    && row.contractAddress == contract
    && row.eventType == "transfer"
    && row.amount == feed.amount(r)
    && row.tokenSymbol == (if contract == "0xa0b86991c6218b36c1d19d4a2e9eb0ce3606eb48" then "USDC"
                           else if contract == "0xdac17f958d2ee523a2206206994597c13d831ec7" then "USDT"
                           else "UNKNOWN")
    && row.rawPayload == ""
  }

  /** What the persister stores of a message is the row of the log it carries. */
  lemma RecordIsRow(feed: Feed, logs: seq<seq<Payload>>, m: Position, r: RawLog, row: WalletEvent)
    requires Carries(feed, logs, m, r) && Records(row, EnvAt(logs, m).value)
    ensures RowIsOf(feed, row, r)
  {
    CarriedId(feed, logs, m, r);
    KeptIff(r, feed.tracked, feed.amount(r));
  }

  /** So the topic meets what the persister relies on: one EventID, one partition. */
  lemma PublisherKeysByPartition(feed: Feed, logs: seq<seq<Payload>>)
    requires Indexed(feed) && PublishedFrom(feed, logs)
    ensures KeyedByPartition(logs)
  {
    forall m, m' | EnvAt(logs, m).Some? && EnvAt(logs, m').Some?
        && EnvAt(logs, m).value.eventId == EnvAt(logs, m').value.eventId
      ensures m.0 == m'.0
    {
      var r :| Carries(feed, logs, m, r);
      var s :| Carries(feed, logs, m', s);
      CarriedId(feed, logs, m, r);
      CarriedId(feed, logs, m', s);
      LogsHaveOwnEventIds(feed, r, s, 0, 0);
    }
  }

  // ------------------------------------------------------------ rows and logs, one to one

  /** The logs some message of which took effect. */
  ghost function Persisted(feed: Feed, logs: seq<seq<Payload>>, took: set<Position>): set<RawLog> {
    set r | r in feed.transfers && exists m :: m in took && Carries(feed, logs, m, r)
  }

  /** The rows are the persisted logs': each has exactly one row, under its own EventID and with its
      own columns, and there are no others. */
  ghost predicate OneRowPerLog(feed: Feed, t: Table, persisted: set<RawLog>) {
    && (forall r | r in persisted :: EventOf(feed, r).Some?)
    && (forall r | r in persisted :: LogId(feed, r) in t && RowIsOf(feed, t[LogId(feed, r)], r))
    && (forall id | id in t :: exists r :: r in persisted && LogId(feed, r) == id)
    && (forall r, s | r in persisted && s in persisted && LogId(feed, r) == LogId(feed, s) :: r == s)
  }

  lemma PersistedHasRow(feed: Feed, t: Table, logs: seq<seq<Payload>>, took: set<Position>, r: RawLog)
    requires Indexed(feed) && PublishedFrom(feed, logs) && FirstWins(t, logs, took) && r in Persisted(feed, logs, took)
    ensures EventOf(feed, r).Some? && LogId(feed, r) in t && RowIsOf(feed, t[LogId(feed, r)], r)
  {
    var m :| m in took && Carries(feed, logs, m, r);
    CarriedId(feed, logs, m, r);
    var id := LogId(feed, r);
    assert TookAs(logs, took, m, id);
    var m' :| FirstFor(t, logs, took, id, m');
    var s :| Carries(feed, logs, m', s);
    CarriedId(feed, logs, m', s);
    LogsHaveOwnEventIds(feed, r, s, 0, 0);
    RecordIsRow(feed, logs, m', s, t[id]);
  }

  lemma RowHasLog(feed: Feed, t: Table, logs: seq<seq<Payload>>, took: set<Position>, id: string) returns (r: RawLog)
    requires PublishedFrom(feed, logs) && FirstWins(t, logs, took) && id in t
    ensures r in Persisted(feed, logs, took) && EventOf(feed, r).Some? && LogId(feed, r) == id
  {
    var m :| FirstFor(t, logs, took, id, m);
    r :| Carries(feed, logs, m, r);
    CarriedId(feed, logs, m, r);
  }

  lemma RowsAreLogs(feed: Feed, t: Table, logs: seq<seq<Payload>>, took: set<Position>)
    requires Indexed(feed) && PublishedFrom(feed, logs) && FirstWins(t, logs, took)
    ensures OneRowPerLog(feed, t, Persisted(feed, logs, took))
  {
    var persisted := Persisted(feed, logs, took);
    forall r | r in persisted
        ensures EventOf(feed, r).Some? && LogId(feed, r) in t && RowIsOf(feed, t[LogId(feed, r)], r) {
      PersistedHasRow(feed, t, logs, took, r);
    }
    forall id | id in t ensures exists r :: r in persisted && LogId(feed, r) == id {
      var r := RowHasLog(feed, t, logs, took, id);
    }
    forall r, s | r in persisted && s in persisted && LogId(feed, r) == LogId(feed, s) ensures r == s {
      LogsHaveOwnEventIds(feed, r, s, 0, 0);
    }
  }

  /** Distinct names for all of `names.Keys` make as many names. */
  lemma {:induction false} SameSize(names: map<RawLog, string>, ids: set<string>)
    requires forall r, s | r in names && s in names && names[r] == names[s] :: r == s
    requires (forall r | r in names :: names[r] in ids) && forall id | id in ids :: exists r ::
        r in names && names[r] == id
    ensures |ids| == |names|
    decreases |names|
  {
    if names == map[] {
      assert ids == {};
    } else {
      var r :| r in names;
      var fewer := names - {r};
      assert names.Keys == fewer.Keys + {r};
      forall id | id in ids - {names[r]} ensures exists s :: s in fewer && fewer[s] == id {
        var s :| s in names && names[s] == id;
        assert s in fewer;
      }
      SameSize(fewer, ids - {names[r]});
    }
  }

  lemma OneRowPerLogCounts(feed: Feed, t: Table, persisted: set<RawLog>)
    requires OneRowPerLog(feed, t, persisted)
    ensures |t| == |persisted|
  {
    var names := map r | r in persisted :: LogId(feed, r);
    assert names.Keys == persisted;
    forall id | id in t.Keys ensures exists r :: r in names && names[r] == id {
      var r :| r in persisted && LogId(feed, r) == id;
      assert names[r] == id;
    }
    SameSize(names, t.Keys);
  }

  /** After any run of the persister, with crashes, redelivery and republication, the table holds one
      row per log that took effect: a row's log is unique, a log's row is unique and is the same
      whichever of its messages was stored, and a valid log below the committed offsets is among them
      unless three tries in a row failed. */
  lemma TableIsOneRowPerLog(run: seq<K.Group>, acts: seq<K.Action>, tables: seq<Table>, partitions: nat, feed: Feed)
    requires IsPersisterRun(run, acts, tables, partitions) && Indexed(feed) && PublishedFrom(feed, run[|acts|].logs)
    ensures var g, t := run[|acts|], tables[|acts|];
      var persisted := Persisted(feed, g.logs, Took(g.attempts));
      && OneRowPerLog(feed, t, persisted) && |t| == |persisted|
      && forall m: Position, r | Carries(feed, g.logs, m, r) && m.0 < |g.committed| && m.1 < g.committed[m.0]
             && ValidForPersist(EnvAt(g.logs, m).value) ::
           LogId(feed, r) in t || exists i: nat :: K.FailedTries(g.attempts, m.0, m.1, i, K.MAX_RETRIES)
  {
    var g, t := run[|acts|], tables[|acts|];
    var persisted := Persisted(feed, g.logs, Took(g.attempts));
    PublisherKeysByPartition(feed, g.logs);
    TableIsFunctionOfLog(run, acts, tables, partitions);
    RowsAreLogs(feed, t, g.logs, Took(g.attempts));
    OneRowPerLogCounts(feed, t, persisted);
    forall m: Position, r | Carries(feed, g.logs, m, r) && m.0 < |g.committed| && m.1 < g.committed[m.0]
        && ValidForPersist(EnvAt(g.logs, m).value)
      ensures LogId(feed, r) in t || exists i: nat :: K.FailedTries(g.attempts, m.0, m.1, i, K.MAX_RETRIES)
    {
      CarriedId(feed, g.logs, m, r);
      CommittedIsPersisted(run, acts, tables, partitions, m.0, m.1);
    }
  }
}
