/** The peer-channel overlay: one node's connection state, addressing,
    receive-path dispatch, neighbour discovery and traffic counters, over a
    mesh transport whose calls are recorded in `outbox`. */
module PeerChannel {
  import opened Wrappers
  import opened Text
  import opened Messages
  import opened States
  import opened Neighbours

  /** A call this node makes into the mesh transport's channel. */
  datatype TransportCall =
    | Send(msg: Message)           // chan.PCSend
    | AnnounceJoin(node: NodeId)   // chan.PCJoin
    | AnnounceLeave(node: NodeId)  // chan.PCLeave

  /** The parsed configuration; only the node id matters to the overlay. */
  datatype Parameters = Parameters(nodeId: Option<NodeId>, networkName: string)

  /** What the configuration loader makes of the document given to `Join`. */
  datatype ConfigInput =
    | NoConfig                    // the document is null
    | Rejected(reason: string)    // validation or parsing raised `reason`
    | Parsed(params: Parameters)

  /** Which step of a teardown the transport makes fail. */
  datatype TeardownFault = NoFault | AnnounceFails | ChannelCloseFails | FactoryCloseFails

  /** How `Leave` ended: logged out, stopped by an exception it swallowed, or
      stopped by an exception that escapes to its caller. */
  datatype LeaveOutcome = LoggedOut | Swallowed | Escaped

  // Notes attached to state-change notifications.
  const PnrpMissingNote: string := "PNRP is not installed and configured!"
  const NoConfigNote: string := "Config is null"
  const NetworkErrorNote: string := "Error with network."
  const LoggedInNote: string := "Logged in"
  const OnlineNote: string := "Online"
  const OfflineNote: string := "Offline"
  const LogoutNote: string := "Logout"
  const SendErrorNote: string := "Error sending message"
  const FactoryFaultNote: string := "Channel factory faulted"

  /** Views that group the fields each operation leaves alone. */
  datatype LinkView = LinkView(chanOpen: bool, factoryOpen: bool, registered: bool, id: Option<NodeId>, hasData: bool)
  datatype RxView = RxView(count: nat, size: nat, hops: int, delivered: seq<Message>)
  datatype TxView = TxView(count: nat, size: nat, outbox: seq<TransportCall>)
  datatype DiscoveryView = DiscoveryView(working: seq<Option<NodeId>>, published: seq<Option<NodeId>>, token: string)

  /** Scans an addressed message's receiver list for the local id, stopping
      at the first match. */
  method ListsReceiver(receivers: seq<NodeId>, self: Option<NodeId>) returns (found: bool)
    ensures found <==> self.Some? && self.value in receivers
  {
    var i := 0;
    while i < |receivers|
      invariant 0 <= i <= |receivers|
      invariant forall k :: 0 <= k < i ==> Some(receivers[k]) != self
    {
      if Some(receivers[i]) == self {
        return true;
      }
      i := i + 1;
    }
    return false;
  }

  class ScallopPeerChannel {
    var chanOpen: bool                      // the transport channel is held
    var factoryOpen: bool                   // the channel factory is held
    var myState: NetworkState
    var id: Option<NodeId>
    var registered: bool
    var hasDataSubscriber: bool             // someone listens for delivered messages
    var msgCountRX: nat
    var msgCountTX: nat
    var msgSizeRX: nat
    var msgSizeTX: nat
    var hopsSumRX: int
    var neighbours: seq<Option<NodeId>>     // responders of the current round
    var oldNeighbours: seq<Option<NodeId>>  // the last completed round, published
    var lastNeighbourId: string             // token of the current round
    var outbox: seq<TransportCall>          // calls made into the transport, in order
    var delivered: seq<Message>             // messages handed to the Data subscribers
    var transitions: seq<StatusChange>      // every state-change notification raised

    /** The object invariant. */
    ghost predicate Valid()
      reads this
    {
      && (registered ==> id.Some?)
      && (chanOpen ==> id.Some? && factoryOpen)
      && NoDuplicates(neighbours)
      && NoDuplicates(oldNeighbours)
      && Chained(transitions, Undefined, myState)
    }

    ghost function Link(): LinkView reads this {
      LinkView(chanOpen, factoryOpen, registered, id, hasDataSubscriber)
    }
    ghost function Rx(): RxView reads this {
      RxView(msgCountRX, msgSizeRX, hopsSumRX, delivered)
    }
    ghost function Tx(): TxView reads this {
      TxView(msgCountTX, msgSizeTX, outbox)
    }
    ghost function Discovery(): DiscoveryView reads this {
      DiscoveryView(neighbours, oldNeighbours, lastNeighbourId)
    }

    /** A fresh, unjoined node. */
    constructor ()
      ensures Valid()
      ensures myState == Undefined && id == None
      ensures !chanOpen && !factoryOpen && !registered && !hasDataSubscriber
      ensures msgCountRX == msgCountTX == msgSizeRX == msgSizeTX == 0 && hopsSumRX == 0
      ensures neighbours == [] && oldNeighbours == []
      ensures lastNeighbourId == "SDSDFSDFSDFSDFSDFDGHSRTHDRT"
      ensures outbox == [] && delivered == [] && transitions == []
    {
      chanOpen, factoryOpen := false, false;
      myState := Undefined;
      id := None;
      registered, hasDataSubscriber := false, false;
      msgCountRX, msgCountTX, msgSizeRX, msgSizeTX, hopsSumRX := 0, 0, 0, 0, 0;
      neighbours, oldNeighbours := [], [];
      lastNeighbourId := "SDSDFSDFSDFSDFSDFDGHSRTHDRT";
      outbox, delivered, transitions := [], [], [];
    }

    // --- read-only surface

    function State(): NetworkState reads this { myState }
    function Id(): Option<NodeId> reads this { id }  // the NodeId property
    function MessageCountRX(): nat reads this { msgCountRX }
    function MessageCountTX(): nat reads this { msgCountTX }
    function MessageSizeRX(): nat reads this { msgSizeRX }
    function MessageSizeTX(): nat reads this { msgSizeTX }
    function HopCountSum(): int reads this { hopsSumRX }

    /** The published neighbour list: the responders of the last completed
        round, each listed once. */
    function Neighbors(): (r: seq<Option<NodeId>>)
      reads this
      requires Valid()
      ensures NoDuplicates(r)
    {
      oldNeighbours
    }

    /** Attaches (or removes the last) handler of delivered messages. */
    method SetDataSubscriber(present: bool)
      requires Valid()
      modifies this
      ensures Valid()
      ensures hasDataSubscriber == present
      ensures chanOpen == old(chanOpen) && factoryOpen == old(factoryOpen)
      ensures registered == old(registered) && id == old(id)
      ensures Rx() == old(Rx()) && Tx() == old(Tx()) && Discovery() == old(Discovery())
      ensures myState == old(myState) && transitions == old(transitions)
    {
      hasDataSubscriber := present;
    }

    // --- state machine

    /** Records the current state as the old state, switches to `newState`
        and raises the notification; a throwing subscriber changes nothing. */
    method ChangeState(newState: NetworkState, cause: Option<string>, note: string)
      requires Valid()
      modifies this
      ensures Valid()
      ensures myState == newState
      ensures transitions == old(transitions) + [StatusChange(old(myState), newState, cause, note)]
      ensures Link() == old(Link()) && Rx() == old(Rx()) && Tx() == old(Tx()) && Discovery() == old(Discovery())
    {
      var e := StatusChange(myState, newState, cause, note);
      ChainedExtend(transitions, Undefined, myState, e);
      transitions := transitions + [e];
      myState := newState;
    }

    /** The transport reports the local peer online. */
    method PeerOnline()
      requires Valid()
      modifies this
      ensures Valid()
      ensures myState == Online
      ensures transitions == old(transitions) + [StatusChange(old(myState), Online, None, OnlineNote)]
      ensures Link() == old(Link()) && Rx() == old(Rx()) && Tx() == old(Tx()) && Discovery() == old(Discovery())
    {
      ChangeState(Online, None, OnlineNote);
    }

    /** The transport reports the local peer offline. */
    method PeerOffline()
      requires Valid()
      modifies this
      ensures Valid()
      ensures myState == Offline
      ensures transitions == old(transitions) + [StatusChange(old(myState), Offline, None, OfflineNote)]
      ensures Link() == old(Link()) && Rx() == old(Rx()) && Tx() == old(Tx()) && Discovery() == old(Discovery())
    {
      ChangeState(Offline, None, OfflineNote);
    }

    /** The channel factory faulted or closed. */
    method FactoryFaulted()
      requires Valid()
      modifies this
      ensures Valid()
      ensures myState == Error
      ensures transitions == old(transitions) + [StatusChange(old(myState), Error, Some(FactoryFaultNote), FactoryFaultNote)]
      ensures Link() == old(Link()) && Rx() == old(Rx()) && Tx() == old(Tx()) && Discovery() == old(Discovery())
    {
      ChangeState(Error, Some(FactoryFaultNote), FactoryFaultNote);
    }

    /** An exception caught while joining is reported as an error. */
    method ErrorHandler(cause: string)
      requires Valid()
      modifies this
      ensures Valid()
      ensures myState == Error
      ensures transitions == old(transitions) + [StatusChange(old(myState), Error, Some(cause), NetworkErrorNote)]
      ensures Link() == old(Link()) && Rx() == old(Rx()) && Tx() == old(Tx()) && Discovery() == old(Discovery())
    {
      ChangeState(Error, Some(cause), NetworkErrorNote);
    }

    // --- sending

    /** What one call of the send primitive did, relative to the state before
        it: nothing unless the channel is held and the node is online;
        otherwise user traffic is counted, and the stamped message reaches the
        transport, or the transport's `fault` puts the node in error. */
    twostate predicate SendOutcome(m: Message, fault: Option<string>)
      reads this
    {
      if old(chanOpen) && old(myState) == Online then
        && msgCountTX == old(msgCountTX) + (if m.internal then 0 else 1)
        && msgSizeTX == old(msgSizeTX) + (if m.internal then 0 else Utf16Length(m.contents))
        && (fault.None? ==>
              && outbox == old(outbox) + [Send(Stamped(m, old(id)))]
              && myState == old(myState) && transitions == old(transitions))
        && (fault.Some? ==>
              && outbox == old(outbox) && myState == Error
              && transitions == old(transitions) + [StatusChange(old(myState), Error, fault, SendErrorNote)])
      else
        msgCountTX == old(msgCountTX) && msgSizeTX == old(msgSizeTX) && outbox == old(outbox)
        && myState == old(myState) && transitions == old(transitions)
    }

    /** The send primitive. `fault` is the exception the transport raises on
        this send, if any. */
    method SendPrimitive(m: Message, fault: Option<string>)
      requires Valid()
      modifies this
      ensures Valid()
      ensures Link() == old(Link()) && Rx() == old(Rx()) && Discovery() == old(Discovery())
      ensures SendOutcome(m, fault)
    {
      if chanOpen && myState == Online {
        var msg := m;
        if msg.sender.None? {
          msg := msg.(sender := id);
        }
        if !msg.internal {
          msgCountTX := msgCountTX + 1;
          msgSizeTX := msgSizeTX + Utf16Length(msg.contents);
        }
        msg := msg.(origHopcount := msg.hopcount);
        if fault.None? {
          outbox := outbox + [Send(msg)];
        } else {
          ChangeState(Error, fault, SendErrorNote);
        }
      }
    }

    /** Broadcast to the whole mesh with an unbounded hop count. */
    method SendBroadcast(text: string, fault: Option<string>)
      requires Valid()
      modifies this
      ensures Valid()
      ensures Link() == old(Link()) && Rx() == old(Rx()) && Discovery() == old(Discovery())
      ensures SendOutcome(BroadcastMessage(text, old(id)), fault)
    {
      SendPrimitive(BroadcastMessage(text, id), fault);
    }

    /** Send to one node. */
    method SendUnicast(text: string, node: NodeId, fault: Option<string>)
      requires Valid()
      modifies this
      ensures Valid()
      ensures Link() == old(Link()) && Rx() == old(Rx()) && Discovery() == old(Discovery())
      ensures SendOutcome(UnicastMessage(text, node), fault)
    {
      SendPrimitive(UnicastMessage(text, node), fault);
    }

    /** Send to a list of nodes; a missing list makes it a broadcast. */
    method SendMulticast(text: string, nodes: Option<seq<NodeId>>, fault: Option<string>)
      requires Valid()
      modifies this
      ensures Valid()
      ensures Link() == old(Link()) && Rx() == old(Rx()) && Discovery() == old(Discovery())
      ensures SendOutcome(MulticastMessage(text, nodes), fault)
    {
      SendPrimitive(MulticastMessage(text, nodes), fault);
    }

    /** Broadcast to the nodes within `reach` hops. */
    method SendWithinHops(text: string, reach: int, fault: Option<string>)
      requires Valid()
      modifies this
      ensures Valid()
      ensures Link() == old(Link()) && Rx() == old(Rx()) && Discovery() == old(Discovery())
      ensures SendOutcome(HopLimitedMessage(text, reach), fault)
    {
      SendPrimitive(HopLimitedMessage(text, reach), fault);
    }

    // --- receiving

    /** Inbound traffic this node drops without looking at it: its own
        messages, anything before registration, anything while nobody
        listens for delivered messages. */
    predicate Ignores(m: Message) reads this {
      m.sender == id || !registered || !hasDataSubscriber
    }

    /** Hands a user message to the Data subscribers and counts it. */
    method DoData(m: Message)
      requires Valid()
      modifies this
      ensures Valid()
      ensures msgCountRX == old(msgCountRX) + 1 && msgSizeRX == old(msgSizeRX) + Utf16Length(m.contents)
      ensures delivered == old(delivered) + [m] && hopsSumRX == old(hopsSumRX)
      ensures Link() == old(Link()) && Tx() == old(Tx()) && Discovery() == old(Discovery())
      ensures myState == old(myState) && transitions == old(transitions)
    {
      msgCountRX := msgCountRX + 1;
      msgSizeRX := msgSizeRX + Utf16Length(m.contents);
      delivered := delivered + [m];
    }

    /** The transport delivers `m` to this node. `fault` is the exception the
        transport would raise if this node sends a probe reply. */
    method Receive(m: Message, fault: Option<string>)
      requires Valid()
      modifies this
      ensures Valid()
      ensures old(Ignores(m)) ==> unchanged(this)
      ensures Link() == old(Link()) && oldNeighbours == old(oldNeighbours) && lastNeighbourId == old(lastNeighbourId)
      // user traffic: delivered once when addressed to this node, never answered
      ensures !old(Ignores(m)) && !m.internal ==>
        && Tx() == old(Tx()) && myState == old(myState) && transitions == old(transitions)
        && neighbours == old(neighbours)
        && if Accepts(m.receivers, old(id)) then
             && msgCountRX == old(msgCountRX) + 1
             && msgSizeRX == old(msgSizeRX) + Utf16Length(m.contents)
             && hopsSumRX == old(hopsSumRX) + HopsTravelled(m)
             && delivered == old(delivered) + [m]
           else
             Rx() == old(Rx())
      // discovery traffic: never delivered, never counted as received
      ensures !old(Ignores(m)) && m.internal ==> Rx() == old(Rx())
      ensures !old(Ignores(m)) && m.internal && IsProbe(m.contents) ==>
        && neighbours == old(neighbours)
        && SendOutcome(ProbeReply(m, old(id)), fault)
      ensures !old(Ignores(m)) && m.internal && !IsProbe(m.contents) ==>
        && Tx() == old(Tx()) && myState == old(myState) && transitions == old(transitions)
        && neighbours == if AnswersRound(m.contents, old(lastNeighbourId))
                         then Recorded(old(neighbours), m.sender)
                         else old(neighbours)
    {
      if m.sender == id || !registered || !hasDataSubscriber {
        return;
      }
      if !m.internal {
        if m.receivers.Some? {
          var listed := ListsReceiver(m.receivers.value, id);
          if listed {
            if m.origHopcount > 0 {
              hopsSumRX := hopsSumRX + (m.origHopcount - m.hopcount);
            }
            DoData(m);
          }
        } else {
          if m.origHopcount > 0 {
            hopsSumRX := hopsSumRX + (m.origHopcount - m.hopcount);
          }
          DoData(m);
        }
      } else {
        ProbeIsNotResponse(m.contents);
        if StartsWith(m.contents, ProbeMarker) {
          SendPrimitive(ProbeReply(m, id), fault);
        }
        if StartsWith(m.contents, ResponseMarker) && Contains(m.contents, lastNeighbourId) {
          if m.sender !in neighbours {
            neighbours := neighbours + [m.sender];
          }
        }
      }
    }

    // --- neighbour discovery

    /** One round of discovery: publish the responders collected so far,
        start a new round under `token` and probe the nodes one hop away.
        `fault` is the exception the transport raises on the probe, if any. */
    method DiscoveryRound(token: string, fault: Option<string>)
      requires Valid()
      modifies this
      ensures Valid()
      ensures oldNeighbours == old(neighbours) && neighbours == [] && lastNeighbourId == token
      ensures Link() == old(Link()) && Rx() == old(Rx())
      ensures SendOutcome(ProbeMessage(token, old(id)), fault)
    {
      oldNeighbours := neighbours;
      neighbours := [];
      lastNeighbourId := token;
      SendPrimitive(ProbeMessage(token, id), fault);
    }

    // --- membership

    /** Joins the mesh. `pnrpAvailable` says whether name resolution is
        installed, `config` what the loader made of the configuration,
        `freshGuid` the id generated when the configuration names none,
        `peerOnline` whether the transport is online right after opening, and
        `registerFault` the exception raised while opening the channel. */
    method Join(config: ConfigInput, pnrpAvailable: bool, freshGuid: NodeId, peerOnline: bool, registerFault: Option<string>)
      requires Valid()
      modifies this
      ensures Valid()
      ensures Rx() == old(Rx()) && Discovery() == old(Discovery())
      ensures msgCountTX == old(msgCountTX) && msgSizeTX == old(msgSizeTX)
      ensures hasDataSubscriber == old(hasDataSubscriber)
      // refused before any transport interaction
      ensures !pnrpAvailable || config.NoConfig? || config.Rejected? ==>
        && Link() == old(Link()) && outbox == old(outbox) && myState == Error
        && transitions == old(transitions) + [
             if !pnrpAvailable then StatusChange(old(myState), Error, None, PnrpMissingNote)
             else if config.NoConfig? then StatusChange(old(myState), Error, None, NoConfigNote)
             else StatusChange(old(myState), Error, Some(config.reason), NetworkErrorNote)]
      // configuration accepted: the id is chosen before the channel is opened
      ensures pnrpAvailable && config.Parsed? ==>
        id == Some(if config.params.nodeId.Some? then config.params.nodeId.value else freshGuid)
      ensures pnrpAvailable && config.Parsed? && registerFault.Some? ==>
        && chanOpen == old(chanOpen) && factoryOpen == old(factoryOpen) && registered == old(registered)
        && outbox == old(outbox) && myState == Error
        && transitions == old(transitions) + [StatusChange(old(myState), Error, registerFault, NetworkErrorNote)]
      ensures pnrpAvailable && config.Parsed? && registerFault.None? ==>
        && chanOpen && factoryOpen && registered
        && outbox == old(outbox) + [AnnounceJoin(id.value)]
        && (peerOnline ==>
              myState == Online
              && transitions == old(transitions) + [StatusChange(old(myState), Online, None, LoggedInNote)])
        && (!peerOnline ==> myState == old(myState) && transitions == old(transitions))
    {
      if !pnrpAvailable {
        ChangeState(Error, None, PnrpMissingNote);
        return;
      }
      match config {
        case NoConfig =>
          ChangeState(Error, None, NoConfigNote);
        case Rejected(reason) =>
          ErrorHandler(reason);
        case Parsed(params) =>
          id := Some(if params.nodeId.Some? then params.nodeId.value else freshGuid);
          if registerFault.Some? {
            ErrorHandler(registerFault.value);
          } else {
            RegisterPeerChannel(id.value, peerOnline);
          }
      }
    }

    /** Opens the factory and the channel, announces the node and registers
        it; reports it online when the transport already is. */
    method RegisterPeerChannel(node: NodeId, peerOnline: bool)
      requires Valid()
      modifies this
      ensures Valid()
      ensures chanOpen && factoryOpen && registered && id == Some(node)
      ensures outbox == old(outbox) + [AnnounceJoin(node)]
      ensures peerOnline ==>
        myState == Online && transitions == old(transitions) + [StatusChange(old(myState), Online, None, LoggedInNote)]
      ensures !peerOnline ==> myState == old(myState) && transitions == old(transitions)
      ensures hasDataSubscriber == old(hasDataSubscriber)
      ensures Rx() == old(Rx()) && Discovery() == old(Discovery())
      ensures msgCountTX == old(msgCountTX) && msgSizeTX == old(msgSizeTX)
    {
      factoryOpen := true;
      chanOpen := true;
      outbox := outbox + [AnnounceJoin(node)];
      id := Some(node);
      registered := true;
      if peerOnline {
        ChangeState(Online, None, LoggedInNote);
      }
    }

    /** What one call of `Leave` did, relative to the state before it, given
        the failing step `fault` and the reported `outcome`. */
    twostate predicate LeaveEffect(fault: TeardownFault, outcome: LeaveOutcome)
      reads this
    {
      && Rx() == old(Rx()) && Discovery() == old(Discovery())
      && msgCountTX == old(msgCountTX) && msgSizeTX == old(msgSizeTX)
      && id == old(id) && hasDataSubscriber == old(hasDataSubscriber)
      // announcing while online needs the channel, and its failure escapes
      && (outcome == Escaped <==> old(myState) == Online && (!old(chanOpen) || fault == AnnounceFails))
      && (outcome == Escaped ==> unchanged(this))
      && (outcome != Escaped && old(myState) == Online ==>
            old(id).Some? && outbox == old(outbox) + [AnnounceLeave(old(id).value)])
      && (outcome != Escaped && old(myState) != Online ==> outbox == old(outbox))
      // a completed logout
      && (outcome == LoggedOut <==>
            outcome != Escaped && old(chanOpen) && fault != ChannelCloseFails && fault != FactoryCloseFails)
      && (outcome == LoggedOut ==>
            && !chanOpen && !factoryOpen && !registered && myState == Offline
            && transitions == old(transitions) + [
                 StatusChange(old(myState), Error, Some(FactoryFaultNote), FactoryFaultNote),
                 StatusChange(Error, Offline, None, LogoutNote)])
      // a teardown step failed and the rest was skipped
      && (outcome == Swallowed ==>
            && factoryOpen == old(factoryOpen) && registered == old(registered)
            && myState == old(myState) && transitions == old(transitions)
            && chanOpen == (old(chanOpen) && fault != FactoryCloseFails))
    }

    /** Leaves the mesh: announces the departure when online, then closes the
        channel and the factory, unregisters and reports the node offline.
        Closing the factory raises its Closed event, which reports a factory
        fault first. `fault` is the step the transport makes fail. */
    method Leave(fault: TeardownFault) returns (outcome: LeaveOutcome)
      requires Valid()
      modifies this
      ensures Valid()
      ensures LeaveEffect(fault, outcome)
    {
      if myState == Online {
        if !chanOpen || fault == AnnounceFails {
          return Escaped;
        }
        outbox := outbox + [AnnounceLeave(id.value)];
      }
      if !chanOpen || fault == ChannelCloseFails {
        return Swallowed;
      }
      chanOpen := false;
      if fault == FactoryCloseFails {
        return Swallowed;
      }
      FactoryFaulted();
      factoryOpen := false;
      registered := false;
      ChangeState(Offline, None, LogoutNote);
      return LoggedOut;
    }

    /** Releases the node: leaves the mesh when the channel is still held. */
    method Dispose(fault: TeardownFault) returns (outcome: Option<LeaveOutcome>)
      requires Valid()
      modifies this
      ensures Valid()
      ensures !old(chanOpen) ==> outcome == None && unchanged(this)
      ensures old(chanOpen) ==> outcome.Some? && LeaveEffect(fault, outcome.value)
    {
      if chanOpen {
        var o := Leave(fault);
        outcome := Some(o);
      } else {
        outcome := None;
      }
    }
  }

  /** The state-change notifications a node has raised form one total order:
      the first leaves the initial state, each one leaves the state the
      previous one entered, and the last entered the current state. */
  lemma NotificationsChain(n: ScallopPeerChannel)
    requires n.Valid()
    ensures forall i :: 0 < i < |n.transitions| ==> n.transitions[i].oldState == n.transitions[i - 1].newState
    ensures n.transitions != [] ==> n.transitions[0].oldState == Undefined
    ensures n.transitions != [] ==> n.transitions[|n.transitions| - 1].newState == n.myState
    ensures n.transitions == [] ==> n.myState == Undefined
  {
    ChainedAdjacent(n.transitions, Undefined, n.myState);
  }
}
