/** The overlay's message envelope, the messages each send front-end and the
    discovery protocol build, and the receive-side tests applied to them. */
module Messages {
  import opened Wrappers
  import opened Text

  /** A node identifier as carried in `sender` and `receivers`. */
  type NodeId = string

  /** `int.MaxValue`: the hop count of an unbounded broadcast. */
  const IntMax: int := 0x7FFF_FFFF

  /** Prefix of a neighbour probe's contents. */
  const ProbeMarker: string := "QUERY"

  /** Prefix of a probe response's contents. */
  const ResponseMarker: string := "RESPO"

  /** One envelope on the mesh. A `None` sender is filled in on sending; a
      `None` receiver list means broadcast; `internal` marks discovery traffic. */
  datatype Message = Message(
    sender: Option<NodeId>,
    contents: string,
    receivers: Option<seq<NodeId>>,
    hopcount: int,
    origHopcount: int,
    internal: bool)

  /** The message as the send primitive hands it to the transport: a missing
      sender becomes the local id, and the original hop count is stamped from
      the current one. */
  function Stamped(m: Message, self: Option<NodeId>): (r: Message)
    ensures r.sender == (if m.sender.None? then self else m.sender)
    ensures r.origHopcount == r.hopcount == m.hopcount
    ensures r.contents == m.contents && r.receivers == m.receivers && r.internal == m.internal
  {
    m.(sender := if m.sender.None? then self else m.sender, origHopcount := m.hopcount)
  }

  // --- the four send front-ends. Fields a front-end does not set are assumed
  // to keep C#'s defaults: no sender, no receiver list, hop counts 0, not internal.

  /** Broadcast to the whole mesh, signed by the local node. */
  function BroadcastMessage(text: string, self: Option<NodeId>): Message {
    Message(self, text, None, IntMax, 0, false)
  }

  /** Addressed to one node; sender and hop count left at their (assumed) defaults. */
  function UnicastMessage(text: string, node: NodeId): Message {
    Message(None, text, Some([node]), 0, 0, false)
  }

  /** Addressed to a list of nodes; a missing list makes it a broadcast. */
  function MulticastMessage(text: string, nodes: Option<seq<NodeId>>): Message {
    Message(None, text, nodes, 0, 0, false)
  }

  /** Broadcast limited to `reach` hops. */
  function HopLimitedMessage(text: string, reach: int): Message {
    Message(None, text, None, reach, 0, false)
  }

  // --- discovery protocol

  /** The one-hop probe of a discovery round carrying the round's token. */
  function ProbeMessage(token: string, self: Option<NodeId>): Message {
    Message(self, ProbeMarker + token, None, 1, 1, true)
  }

  /** The answer to a probe: its contents with every probe marker turned into
      a response marker, signed by the answering node, one hop. */
  function ProbeReply(probe: Message, self: Option<NodeId>): Message {
    Message(self, Replace(probe.contents, ProbeMarker, ResponseMarker), None, 1, 1, true)
  }

  /** Contents that ask the receiver to answer. */
  predicate IsProbe(contents: string) {
    StartsWith(contents, ProbeMarker)
  }

  /** Contents that answer the round identified by `token`. */
  predicate AnswersRound(contents: string, token: string) {
    StartsWith(contents, ResponseMarker) && Contains(contents, token)
  }

  /** The receiver filter of a user message: a broadcast is for everybody, an
      addressed message only for a node named in its list. */
  predicate Accepts(receivers: Option<seq<NodeId>>, self: Option<NodeId>) {
    receivers.None? || (self.Some? && self.value in receivers.value)
  }

  /** Hops a delivered message travelled, counted only when it was sent with a
      positive hop budget. */
  function HopsTravelled(m: Message): int {
    if m.origHopcount > 0 then m.origHopcount - m.hopcount else 0
  }

  /** No contents are both a probe and a response. */
  lemma ProbeIsNotResponse(contents: string)
    ensures !(IsProbe(contents) && StartsWith(contents, ResponseMarker))
  {
  }

  /** A node answering a probe whose token is a GUID returns exactly the
      response marker followed by the same token, one-hop and internal, and
      that reply is recognised by the prober as an answer to its round. */
  lemma {:induction false} ProbeReplyAnswersRound(token: string, prober: Option<NodeId>, responder: Option<NodeId>)
    requires IsGuidText(token)
    ensures var reply := ProbeReply(ProbeMessage(token, prober), responder);
      && reply.contents == ResponseMarker + token
      && AnswersRound(reply.contents, token)
      && !IsProbe(reply.contents)
      && reply.internal && reply.sender == responder
      && reply.hopcount == reply.origHopcount == 1
  {
    ReplaceLeading(ProbeMarker, token, ResponseMarker);
    GuidTextOmits(token, ProbeMarker);
    ReplaceWithoutMatch(token, ProbeMarker, ResponseMarker);
    ContainsSuffix(ResponseMarker, token);
    ProbeIsNotResponse(ResponseMarker + token);
  }

  /** A response to an earlier round is not taken for an answer to the
      current one: with GUID tokens, a reply carrying `stale` answers the
      round of `current` only when the two tokens are the same. */
  lemma {:induction false} StaleResponseIgnored(stale: string, current: string)
    requires IsGuidText(stale) && IsGuidText(current)
    ensures AnswersRound(ResponseMarker + stale, current) <==> stale == current
  {
    assert current[0] in GuidAlphabet;
    assert StartsWith(ResponseMarker + stale, ResponseMarker);
    ContainsAfterForeignPrefix(ResponseMarker, stale, current);
  }
}
