/**
 * A CSP channel between two ports, seen as the FIFO queue of messages sent
 * on it and not yet received. Both ends of a channel share one object, so a
 * message sent by one port is the one the other port receives. A receive
 * that would block is ruled out by requiring a pending message.
 */
module Channels {
  import opened Vectors

  class Channel {
    /** Shape of the messages the channel was created for. */
    const shape: Shape
    /** Messages sent and not yet received, oldest first. */
    var queue: seq<Vec>

    constructor (shape: Shape)
      ensures this.shape == shape && queue == []
    {
      this.shape := shape;
      queue := [];
    }

    /** Send end: append to the tail. */
    method Send(d: Vec)
      modifies this
      ensures queue == old(queue) + [d]
    {
      queue := queue + [d];
    }

    /** Receive end: remove and return the head (blocking when empty). */
    method Recv() returns (d: Vec)
      requires queue != []
      modifies this
      ensures d == old(queue)[0] && queue == old(queue)[1..]
    {
      d := queue[0];
      queue := queue[1..];
    }

    /** Receive end: is a message waiting? */
    function Probe(): (r: bool)
      reads this
      ensures r <==> |queue| > 0
    {
      queue != []
    }
  }
}
