/** The records that travel through the ingest pipeline: decoded ticks, what the
    recovery publishes, and the configuration it is built with. */
module Canonical {

  const U64_MAX: nat := 0xFFFF_FFFF_FFFF_FFFF
  /** Native sequences are positive int64 values on the wire. */
  const SEQUENCE_LIMIT: nat := 0x8000_0000_0000_0000

  type u64 = x: nat | x <= 0xFFFF_FFFF_FFFF_FFFF

  datatype Market = UnknownMarket | Shanghai | Shenzhen

  datatype StartMode = FromOpen | Partial

  /** A canonical tick. `payload` lists the fields CanonicalPayloadEqual compares
      besides market, channel and sequence; `provenance` lists those it ignores.
      The booleans are kTickChannelHistoryValid and three quality flags. */
  datatype Tick = Tick(
    market: Market,
    channel: nat,
    sequence: u64,
    payload: seq<int>,
    provenance: seq<int>,
    historyValid: bool,
    historyIncomplete: bool,
    gapBefore: bool,
    lateRecovery: bool,
    gapEpoch: nat,
    gapBeforeFirst: nat,
    gapBeforeLast: nat)

  /** A decoded tick and whether the catalog knows its instrument. */
  datatype Decoded = Decoded(tick: Tick, catalogMatch: bool)

  predicate PayloadEqual(left: Tick, right: Tick) {
    && left.market == right.market
    && left.channel == right.channel
    && left.sequence == right.sequence
    && left.payload == right.payload
  }

  datatype Gap = Gap(
    market: Market,
    channel: nat,
    firstMissing: nat,
    lastMissing: nat,
    firstPresent: nat,
    detected: nat,
    epoch: nat,
    cumulativeMissing: nat)

  datatype LateReason = BehindCommittedFrontier | PendingCanonicalConflict

  datatype LateRecord = LateRecord(
    tick: Tick,
    committedNext: nat,
    observedEpoch: nat,
    reason: LateReason,
    catalogMatch: bool)

  datatype FaultReason = CanonicalConflict | DecodeFailure

  datatype Fault = Fault(
    market: Market,
    channel: nat,
    reason: FaultReason,
    expectedSequence: nat,
    observedSequence: nat,
    detected: nat)

  /** What one channel did, in order: calls on its sinks (with the answer of the
      sink), counted drops, and the moment PARTIAL fixed its origin. */
  datatype Event =
    | OriginFixed(origin: nat)
    | Emitted(body: Decoded, out: Tick, ok: bool)
    | GapRecorded(gap: Gap)
    | Diverted(body: Decoded, record: LateRecord, ok: bool)
    | DuplicateDropped(body: Decoded)
    | ConflictDropped(body: Decoded)
    | FrozenDropped(body: Decoded)
    | Faulted(fault: Fault, ok: bool)

  /** The events of a channel, oldest first. */
  datatype Trace = Begin | Then(earlier: Trace, last: Event)

  function Length(t: Trace): nat {
    if t.Begin? then 0 else Length(t.earlier) + 1
  }

  datatype Config = Config(
    mode: StartMode,
    maximumChannels: nat,
    entries: nat,
    maximumSpan: u64,
    initialHold: u64,
    gapWait: u64)

  /** The facts ValidateConfig establishes that the recovery relies on. */
  predicate ValidConfig(cfg: Config) {
    && cfg.maximumChannels > 0
    && cfg.entries >= 2
    && cfg.maximumSpan <= cfg.entries
  }

  /** The answers of the bounded output queues: `v(slot, n)` is what the sink
      replies to the call that the channel in mailbox `slot` makes when its trace
      has length n. Every run of answers is such a function. */
  type Verdicts = (nat, nat) -> bool
}
