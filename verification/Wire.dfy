/** The envelope a satellite publishes and the hub reads, version 1. */
module Wire {
  import opened Wrappers

  type Id = string
  type NodeId = string
  type SourceId = string

  datatype Quality = Valid | Degraded | Unavailable | Unknown
  datatype ClockStatus = Synced | Unsynced | NotKnown
  datatype Value = Flag(on: bool) | Number(x: real) | Text(text: string) | Nothing

  /** A moment with the offset it was taken at. The calendar ends: a moment close enough to either end of
      it has no form in UTC. */
  datatype Moment = Utc(seconds: real) | BeyondUtc(written: string)

  /** What a sensor reported and when, apart from how the report is numbered or carried. */
  datatype Reading = Reading(kind: string, value: Value, unit: Option<string>, quality: Quality, occurredAt: Moment)

  datatype Event = Event(eventId: Id, node: NodeId, source: SourceId, boot: Id, sequence: nat,
                         reading: Reading, clock: ClockStatus)

  /** How this copy of the event travelled, which is not part of what happened. */
  datatype Delivery = Delivery(connection: Id, hubEpoch: nat, grantId: Option<Id>, queuedMs: nat,
                               replayed: bool, initialState: bool)

  datatype Envelope = Envelope(event: Event, delivery: Delivery)

  datatype Capability = Events | Video | Audio
}
