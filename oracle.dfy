/**
 * Everything an operation draws from outside the program: the wall clock,
 * `CURRENT_TIMESTAMP`, `crypto.randomUUID` and the random envelope ids.
 */
module Oracles {

  datatype Oracle = Oracle(
    /** `new Date()`: the clock `validateEventData` and the envelopes read. */
    now: int,
    /** The value SQLite's `CURRENT_TIMESTAMP` takes during the operation (second resolution). */
    stamp: int,
    /** `crypto.randomUUID()` for a newly created event. */
    uuid: string,
    /** The `evt_...` id of the envelope a repository `save` publishes. */
    saveEnvelopeId: string,
    /** The `evt_...` id of the `EventPublished` envelope the publish handler broadcasts. */
    broadcastEnvelopeId: string)
}
