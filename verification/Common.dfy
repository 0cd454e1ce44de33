/** The small vocabulary the other modules share. */
module Options {
  datatype Option<+T> = None | Some(value: T)
}

module Faults {
  /** What a connection does to one statement or transaction: it goes through, it is lost before
      anything is applied, or it is applied and only the acknowledgement is lost. */
  datatype Fault = NoFault | LostBefore | LostAfter
}

module Channels {
  /** A Go channel: everything ever sent on it, of which the first `taken` items have been received. */
  datatype Channel<T> = Channel(sent: seq<T>, taken: nat, closed: bool)

  predicate Exhausted<T>(c: Channel<T>) {
    c.closed && c.taken == |c.sent|
  }
}
