/** The wire envelope of the event bus and its validation. */
module Broker {
  import opened Options

  const SCHEMA_CURRENT := 1

  datatype Envelope = Envelope(
    eventId: string,
    schemaVersion: int,
    network: string,
    eventType: string,
    direction: string,
    walletId: string,
    tokenSymbol: string,
    contractAddress: string,
    amount: string,
    txHash: string,
    blockNumber: nat,
    emittedAt: nat)

  /** The bytes of a Kafka message: the JSON of some envelope, or something JSON rejects. */
  datatype Payload = Json(env: Envelope) | Garbage

  predicate Valid(e: Envelope) {
    && e.schemaVersion == SCHEMA_CURRENT
    && e.eventId != "" && e.network != "" && e.walletId != "" && e.txHash != "" && e.contractAddress != ""
  }

  /** A message decodes, to just what was encoded, if it is JSON of the current schema and none of the
      five identifying fields is empty; anything else is refused. */
  function Unmarshal(p: Payload): (env: Option<Envelope>)
    ensures env.Some? <==>
      && p.Json? && p.env.schemaVersion == 1
      && "" !in {p.env.eventId, p.env.network, p.env.walletId, p.env.txHash, p.env.contractAddress}
    ensures env.Some? ==> env.value == p.env && Valid(env.value)
  {
    if p.Json? && Valid(p.env) then Some(p.env) else None
  }
}
