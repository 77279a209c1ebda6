/**
 * The publish/subscribe bus, seen only through its publish call. The model keeps
 * a ghost log of every publish call and the outcome the bus reported; whether a
 * call succeeds is not determined by anything the emitter can see.
 */
module Transport {
  import opened Wrappers
  import opened Wire

  /** One publish call: the channel, the serialized message and the reported error. */
  datatype Publication = Publication(channel: string, payload: Payload, outcome: Option<string>)

  class Bus {
    /** Every publish call made so far, oldest first. */
    ghost var log: seq<Publication>

    constructor ()
      ensures log == []
    {
      log := [];
    }

    /** Publishes `payload` on `channel`; the error, if any, is the bus's own. */
    method Publish(channel: string, payload: Payload) returns (err: Option<string>)
      modifies this
      ensures log == old(log) + [Publication(channel, payload, err)]
    {
      err :| true;
      log := log + [Publication(channel, payload, err)];
    }
  }
}
