/** What the MSX answers during a file transfer, for uploads and downloads alike. */
module TransferReplies {
  import opened Octets
  import opened Bytes
  import opened OpenCodec

  datatype WorkState =
    | Idle | Staged | Opening | Ready | Transferring | Verifying | Postprocess | Complete
    | Suspended | Failed | Cancelled

  predicate Running(s: WorkState) {
    s == Ready || s == Transferring || s == Verifying || s == Postprocess
  }

  /** No worker holds the descriptor: a new OPEN is allowed. */
  predicate Released(s: WorkState) {
    s == Idle || s == Complete || s == Suspended || s == Failed || s == Cancelled
  }

  datatype Status = Status(
    state: WorkState,
    fault: bool,
    order: Descriptor,
    durable: Long,
    accepted: Long,
    crc: bv32,
    wireVerified: bool,
    finalVerified: bool,
    published: bool)

  /** What the parser of a STATUS reply insists on. */
  predicate WellFormed(s: Status) {
    s.durable <= s.accepted <= s.order.wireSize
  }

  /** What a status can be checked for: everything but the path, which it does not carry. */
  predicate SameWire(a: Descriptor, b: Descriptor) {
    && a.direction == b.direction && a.encoding == b.encoding && a.id == b.id
    && a.wireSize == b.wireSize && a.wireCrc == b.wireCrc
    && a.finalSize == b.finalSize && a.finalCrc == b.finalCrc
  }

  /** The helper has opened its files for the descriptor. */
  predicate Engaged(s: WorkState) {
    Running(s) || s == Suspended || s == Complete
  }

  /** A status that lets a stream begin. */
  predicate Attached(s: Status) {
    Engaged(s.state)
  }

  datatype Reply<T> = Lost | Rejected | Answer(value: T)

  datatype Ack = Ack(state: WorkState, fault: bool)

  datatype Progress = Progress(fault: bool, accepted: nat, acceptedEnd: nat, durableEnd: nat)

  datatype Control = TypeLaunchLine | FastBegin | Cancel
}
