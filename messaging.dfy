/** The message bus as the services use it: publishing a body to a named queue,
    and the per-message decision a consumer takes on each delivery. */
module Messaging {
  import opened Common
  import JsonCodec

  /** `msg.Ack(false)`, `msg.Nack(false, false)` and `msg.Nack(false, true)`. */
  datatype Acknowledgement = Ack | NackDiscard | NackRequeue

  /** One delivered message. */
  datatype Delivery = Delivery(body: JsonCodec.Body)

  datatype Publication = Publication(queue: string, body: JsonCodec.Body)

  /** The broker connection: what has been published so far, in order. While it
      is down, publishing fails and nothing is recorded. */
  class Broker {
    var published: seq<Publication>
    var up: bool

    constructor (up: bool)
      ensures published == [] && this.up == up
    {
      published := [];
      this.up := up;
    }

    method Publish(queue: string, body: JsonCodec.Body) returns (r: Outcome)
      modifies this`published
      ensures r.Pass? <==> up
      ensures published == if up then old(published) + [Publication(queue, body)] else old(published)
    {
      if up {
        published := published + [Publication(queue, body)];
        r := Pass;
      } else {
        r := Fail("failed to publish message: channel/connection is not open");
      }
    }
  }
}
