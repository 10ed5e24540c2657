/** Exchanges between nodes on one mesh, derived from the operations'
    contracts alone: the transport carries each message as it was sent. */
module Scenarios {
  import opened Wrappers
  import opened Text
  import opened Messages
  import opened States
  import opened Neighbours
  import opened PeerChannel

  /** Ready to send and to receive: joined, online and listened to. */
  ghost predicate Ready(n: ScallopPeerChannel)
    reads n
  {
    n.Valid() && n.chanOpen && n.myState == Online && n.registered && n.hasDataSubscriber
  }

  /** The message carried by the last transport call of `n`. */
  function LastSent(n: ScallopPeerChannel): Message
    reads n
    requires |n.outbox| > 0 && n.outbox[|n.outbox| - 1].Send?
  {
    n.outbox[|n.outbox| - 1].msg
  }

  /** Node `a` probes; `b`, one hop away, answers within the round; after the
      next round `a` publishes `b` as its only neighbour, and `b` records
      nothing. */
  method DiscoveryExchange(a: ScallopPeerChannel, b: ScallopPeerChannel, token: string, next: string)
    requires a != b && Ready(a) && Ready(b) && a.id != b.id
    requires IsGuidText(token)
    modifies a, b
    ensures Ready(a) && Ready(b)
    ensures a.Neighbors() == [old(b.id)] && a.neighbours == [] && a.lastNeighbourId == next
    ensures b.neighbours == old(b.neighbours) && b.oldNeighbours == old(b.oldNeighbours)
    ensures a.msgCountTX == old(a.msgCountTX) && b.msgCountTX == old(b.msgCountTX)
    ensures a.msgSizeTX == old(a.msgSizeTX) && b.msgSizeTX == old(b.msgSizeTX)
    ensures a.Rx() == old(a.Rx()) && b.Rx() == old(b.Rx())
  {
    a.DiscoveryRound(token, None);
    var probe := LastSent(a);
    assert probe == Stamped(ProbeMessage(token, a.id), a.id);
    b.Receive(probe, None);
    var reply := LastSent(b);
    ProbeReplyAnswersRound(token, a.id, b.id);
    assert reply == Stamped(ProbeReply(probe, b.id), b.id);
    a.Receive(reply, None);
    assert a.neighbours == [b.id];
    a.DiscoveryRound(next, None);
  }

  /** Node `a` sends `text` to `b` alone; the flood also reaches `c` and loops
      back to `a`. Only `b` delivers it; `a` counts one message sent and `b`
      one received. */
  method UnicastExchange(a: ScallopPeerChannel, b: ScallopPeerChannel, c: ScallopPeerChannel, text: string)
    requires a != b && b != c && a != c
    requires Ready(a) && Ready(b) && Ready(c)
    requires a.id != b.id && b.id != c.id && a.id != c.id
    modifies a, b, c
    ensures a.msgCountTX == old(a.msgCountTX) + 1 && a.msgSizeTX == old(a.msgSizeTX) + Utf16Length(text)
    ensures b.msgCountRX == old(b.msgCountRX) + 1 && b.msgSizeRX == old(b.msgSizeRX) + Utf16Length(text)
    ensures |b.delivered| == |old(b.delivered)| + 1 && b.delivered[|b.delivered| - 1].contents == text
    ensures a.Rx() == old(a.Rx()) && c.Rx() == old(c.Rx())
  {
    a.SendUnicast(text, b.id.value, None);
    var m := LastSent(a);
    b.Receive(m, None);
    c.Receive(m, None);
    a.Receive(m, None);
  }
}
