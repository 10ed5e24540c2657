# Scallop peer-channel overlay, modelled in Dafny

This project models the message overlay of the Scallop framework's
`ScallopPeerChannel`: one node of a peer-to-peer mesh. The node sits on top of
a mesh transport that floods raw messages to every reachable peer. On top of
that transport it adds:

- application addressing: broadcast, hop-limited broadcast, unicast, and
  multicast to an id list;
- a one-hop neighbour discovery protocol. It sends `"QUERY"` probes and
  collects `"RESPO"` answers that carry the current round's token;
- a connection state machine with the states Undefined, Online, Offline and
  Error, which reports every change as a notification;
- traffic counters for messages and bytes sent and received, and the sum of
  hops travelled by received messages.

The node is the class `PeerChannel.ScallopPeerChannel`. Its fields are the
C# fields the overlay uses. `chanOpen` and `factoryOpen` stand for
`chan != null` and `factory != null`. Three sequence fields record what the
node does to the outside world:

- `outbox`: the calls `PCSend`, `PCJoin` and `PCLeave` into the transport
  channel, in order (opening and closing the channel are not recorded);
- `delivered`: every message handed to the `Data` subscribers;
- `transitions`: every state-change notification, with old state, new state,
  cause and note.

Each transport event (a message arriving, online, offline, factory fault) and
each application call (`Join`, `Leave`, the four `SendMessage` forms, one
discovery round) is one atomic method. Exceptions the transport may raise are
parameters: `fault` on a send, `registerFault` on opening, `TeardownFault` on
leaving. The GUIDs the source generates are parameters too. `Valid()` is the
object invariant:

- a registered node or a node holding a channel has an id;
- a held channel implies a held factory;
- neither neighbour list repeats a node;
- the notifications form one unbroken history from Undefined to the current
  state.

Modules:

- `Text`: ordinal prefix and substring tests, and replace-all;
- `Messages`: the envelope, the messages each front-end builds, the probe and
  its reply;
- `States`: states and the notification history;
- `Neighbours`: the duplicate-free responder list;
- `PeerChannel`: the node;
- `Scenarios`: exchanges between nodes on one mesh.

Where the code and the design description disagree, the model follows the
code:

- There is no Joining state. The code never enters one.
- `Join` does not reset the traffic counters.
- The TX counters are bumped before the transport is called. A send that
  fails is therefore still counted.
- `Leave` does not stop the discovery rounds. Their probes become no-ops once
  the channel is gone.
- Probes are not answered while nobody subscribes to `Data`, because the
  readiness gate comes before the control branch.
- The factory's `Closed` event is wired to the fault handler
  (ScallopPeerChannel.cs:433). A successful `Leave` therefore reports
  Error ("Channel factory faulted") and then Offline ("Logout").

## Model

| member | source | states |
|---|---|---|
| `Text.Replace` | release/Network/PeerChannel/ScallopPeerChannel.cs:581-583 | replace-all of a non-empty pattern keeps the length when pattern and replacement are equally long, and turns a leading pattern into a leading replacement |
| `Text.ReplaceWithoutMatch` | release/Network/PeerChannel/ScallopPeerChannel.cs:583 | replacing a pattern that does not occur returns the string unchanged |
| `Text.ReplaceLeading` | release/Network/PeerChannel/ScallopPeerChannel.cs:583 | a leading occurrence is replaced and the scan resumes right after it |
| `Text.Utf16Length` | release/Network/PeerChannel/ScallopPeerChannel.cs:147 | the .NET length of a string counts UTF-16 code units: at least one and at most two per character, and exactly one per character when every character lies in the Basic Multilingual Plane |
| `Text.ContainsSuffix` | release/Network/PeerChannel/ScallopPeerChannel.cs:590 | a string contains each of its suffixes, so a response contains the token it ends with |
| `Text.GuidTextOmits` | release/Network/PeerChannel/ScallopPeerChannel.cs:230-231 | a GUID's text never contains a pattern starting outside the GUID alphabet, such as the probe marker |
| `Text.ContainsAfterForeignPrefix` | release/Network/PeerChannel/ScallopPeerChannel.cs:590 | in `p + t`, a pattern as long as `t` whose first character is absent from `p` occurs iff it equals `t` |
| `Messages.Stamped` | release/Network/PeerChannel/ScallopPeerChannel.cs:141-150 | the send primitive fills a missing sender with the local id, copies the hop count into the original hop count, and keeps contents, receivers and the internal flag |
| `Messages.ProbeIsNotResponse` | release/Network/PeerChannel/ScallopPeerChannel.cs:579-590 | no contents are both a probe and a response, so the two control branches never both fire |
| `Messages.ProbeReplyAnswersRound` | release/Network/PeerChannel/ScallopPeerChannel.cs:579-594 | the reply to a probe with a GUID token is exactly `"RESPO" + token`, internal, one hop, signed by the responder, not itself a probe, and accepted by the prober as an answer to that round |
| `Messages.StaleResponseIgnored` | release/Network/PeerChannel/ScallopPeerChannel.cs:590-594 | with GUID tokens, a response carrying one round's token answers another round's token iff the two tokens are equal |
| `Neighbours.Recorded` | release/Network/PeerChannel/ScallopPeerChannel.cs:592-593 | recording a responder adds it iff it is absent: the members become the old ones plus the responder, the old list is a prefix, the length grows by one exactly when it was absent, and a duplicate-free list stays duplicate-free |
| `States.ChainedExtend` | release/Network/PeerChannel/ScallopPeerChannel.cs:464-475 | a notification whose old state is the current state extends the unbroken history to its new state |
| `States.ChainedAdjacent` | release/Network/PeerChannel/ScallopPeerChannel.cs:464-475 | in an unbroken history each notification's old state is the previous one's new state, and the history runs from its start state to its end state |
| `PeerChannel.ListsReceiver` | release/Network/PeerChannel/ScallopPeerChannel.cs:556-567 | the scan of the receiver list finds a match iff the local id is set and occurs in the list |
| `PeerChannel.NotificationsChain` | release/Network/PeerChannel/ScallopPeerChannel.cs:464-475 | on a valid node the notifications form one total order: they start at Undefined, each one's old state is the previous one's new state, and the last ends at the current state |
| `PeerChannel.ScallopPeerChannel.constructor` | release/Network/PeerChannel/ScallopPeerChannel.cs:29-51 | a new node is Undefined, has no id, channel or registration, all counters zero, empty neighbour lists and the fixed initial round token |
| `PeerChannel.ScallopPeerChannel.Neighbors` | release/Network/PeerChannel/ScallopPeerChannel.cs:309-315 | the published neighbour list never names a node twice |
| `PeerChannel.ScallopPeerChannel.SetDataSubscriber` | release/Network/PeerChannel/ScallopPeerChannel.cs:381 | attaching or removing the `Data` handler changes only that flag |
| `PeerChannel.ScallopPeerChannel.ChangeState` | release/Network/PeerChannel/ScallopPeerChannel.cs:464-475 | the notification's old state is the state just before the call; afterwards the state is the new state, the history gains exactly that notification, and nothing else changes |
| `PeerChannel.ScallopPeerChannel.PeerOnline` | release/Network/PeerChannel/ScallopPeerChannel.cs:452-455 | the transport's online signal makes the node Online with note "Online" |
| `PeerChannel.ScallopPeerChannel.PeerOffline` | release/Network/PeerChannel/ScallopPeerChannel.cs:457-460 | the transport's offline signal makes the node Offline with note "Offline" |
| `PeerChannel.ScallopPeerChannel.FactoryFaulted` | release/Network/PeerChannel/ScallopPeerChannel.cs:507-510 | a factory fault or close puts the node in Error with the factory-fault cause |
| `PeerChannel.ScallopPeerChannel.ErrorHandler` | release/Network/PeerChannel/ScallopPeerChannel.cs:512-524 | an exception caught while joining puts the node in Error with that cause and note "Error with network." |
| `PeerChannel.ScallopPeerChannel.SendPrimitive` | release/Network/PeerChannel/ScallopPeerChannel.cs:135-160 | nothing happens unless the channel is held and the node is Online. Otherwise user messages bump the TX count by one and the TX size by their UTF-16 length, and internal ones leave both alone. Without a fault the stamped message reaches the transport. With a fault nothing is sent, the node goes to Error and the counters stay bumped |
| `PeerChannel.ScallopPeerChannel.SendBroadcast` | release/Network/PeerChannel/ScallopPeerChannel.cs:83-90 | sends a user broadcast signed with the local id and hop count `int.MaxValue`, under the send primitive's rules |
| `PeerChannel.ScallopPeerChannel.SendUnicast` | release/Network/PeerChannel/ScallopPeerChannel.cs:97-105 | sends a user message addressed to exactly `[node]`, with the envelope's default sender and hop count (assumed none and 0, see Left out), under the send primitive's rules |
| `PeerChannel.ScallopPeerChannel.SendMulticast` | release/Network/PeerChannel/ScallopPeerChannel.cs:112-119 | sends a user message addressed to the given list, or broadcast when the list is missing, under the send primitive's rules |
| `PeerChannel.ScallopPeerChannel.SendWithinHops` | release/Network/PeerChannel/ScallopPeerChannel.cs:126-133 | sends a user broadcast whose hop count and original hop count are `reach` |
| `PeerChannel.ScallopPeerChannel.DoData` | release/Network/PeerChannel/ScallopPeerChannel.cs:477-492 | delivering a message appends it to the delivered log and raises the RX count by one and the RX size by its UTF-16 length |
| `PeerChannel.ScallopPeerChannel.Receive` | release/Network/PeerChannel/ScallopPeerChannel.cs:542-597 | a message from this node, or one that arrives before registration or with no `Data` subscriber, changes nothing. A user message is delivered once (count +1, size + UTF-16 length, hop sum + hops travelled if the original hop count is positive) iff it is a broadcast or lists this node, and it never changes the transport, the state or the neighbours. An internal message never reaches delivery or the RX counters. A probe is answered by one send of its `"RESPO"` reply. A response carrying the current token records its sender iff absent. Any other internal message changes nothing. The published list and the token never change |
| `PeerChannel.ScallopPeerChannel.DiscoveryRound` | release/Network/PeerChannel/ScallopPeerChannel.cs:227-236 | the published list becomes an exact copy of the working set, the working set becomes empty, the token is replaced, and an internal one-hop probe `"QUERY" + token` signed by the node goes through the send primitive |
| `PeerChannel.ScallopPeerChannel.Join` | release/Network/PeerChannel/ScallopPeerChannel.cs:169-216 | missing name resolution, a null configuration or a rejected one each give Error with their own note and touch no transport. Otherwise the id is the configured one or the fresh GUID. A failed registration gives Error, and a successful one holds the channel, registers, announces the id, and goes Online only when the transport already is |
| `PeerChannel.ScallopPeerChannel.RegisterPeerChannel` | release/Network/PeerChannel/ScallopPeerChannel.cs:438-450 | opening holds factory and channel, announces the id, registers it, and reports "Logged in" Online iff the peer is already online |
| `PeerChannel.ScallopPeerChannel.Leave` | release/Network/PeerChannel/ScallopPeerChannel.cs:245-261 | an Online node without a channel, or whose leave announcement fails, throws and changes nothing. Otherwise an Online node announces its leave. A completed leave drops channel, factory and registration and ends Offline after reporting the factory-close fault. A failed close step is swallowed, and only a failing factory close releases the channel |
| `PeerChannel.ScallopPeerChannel.Dispose` | release/Network/PeerChannel/ScallopPeerChannel.cs:73-77 | with the channel held, disposing has exactly the effects and outcome of `Leave` (escape, swallowed close failure or completed logout); without it, nothing changes and no outcome is reported |
| `Scenarios.DiscoveryExchange` | release/Network/PeerChannel/ScallopPeerChannel.cs:223-239 | two ready nodes one hop apart: after A's probe, B's reply and A's next round, A publishes exactly `[B]`. B records nothing, and neither node's RX counters nor TX message and size counters move |
| `Scenarios.UnicastExchange` | release/Network/PeerChannel/ScallopPeerChannel.cs:97-105 | a unicast from A to B that also reaches C and loops back to A is delivered by B alone. A's TX and B's RX each grow by one message and its UTF-16 length |

The getters `State`, `Id` (the `NodeId` property), `MessageCountRX`,
`MessageCountTX`, `MessageSizeRX`, `MessageSizeTX` and `HopCountSum` return
their fields (ScallopPeerChannel.cs:287-293, 320-370, 529-535).

## Left out

- Building the WCF binding, factory, endpoint address and mesh credentials
  (ScallopPeerChannel.cs:395-443). These are calls into the transport
  library. Only their effects remain: factory and channel held, the join
  announcement, `registered`, and Online when the peer is already online.
- The "Ignored listening address" info note (ScallopPeerChannel.cs:420). Info
  notifications are not modelled.
- RegisterPeerChannel: a failure part-way through is modelled as leaving
  factory, channel and registration as they were. The source may already hold
  a new factory or channel at that point.
- Loading the configuration schema, validating and parsing the configuration
  document, and the `ConfigSchema` and `Version` properties
  (ScallopPeerChannel.cs:58-67, 188-194, 266-304). These are I/O and XML
  handling. `Join` receives the loader's outcome as a `ConfigInput` value.
- The background worker, its endless loop and its sleep between rounds
  (ScallopPeerChannel.cs:203-207, 218-225, 237). These are scheduling. One
  call of `DiscoveryRound` is one loop iteration.
- The unhandled-exception hook (ScallopPeerChannel.cs:177). It is global
  process state.
- Concurrency between the transport's callback thread, the discovery thread
  and the application. Each event is modelled as one atomic step.
- GUID generation (ScallopPeerChannel.cs:200, 230). The GUID is a
  caller-supplied string. The lemmas about round tokens assume only what
  `IsGuidText` checks of its default text form: 36 characters, each a
  lower-case hex digit or a dash (the real form has 32 digits and 4 dashes in
  fixed places, which the lemmas do not need).
- HopCountSum: returns the integer sum rather than a `float`.
- Counter widths: counters are unbounded. The source's 32-bit `int` and
  64-bit `ulong` wrap-around of the counters, of `hopsSumRX` and of
  `origHopcount - hopcount` is not modelled.
- Info notifications in general: `doInfo`, the inbound `PCJoin`/`PCLeave`
  notes (ScallopPeerChannel.cs:493-502, 600-608), and the info note raised
  when a `Data` subscriber throws. They change no overlay state.
- StatusChanged subscribers: `transitions` records every notification whether
  or not anyone subscribes. A throwing subscriber has no effect, since the
  state is already updated.
- Null references other than the node id, the sender and a missing receiver
  list. A null payload, a null entry in a receiver list, and `Leave` with a
  held channel but no factory are not modelled.
- `StartsWith`, `Contains` and `Replace` are modelled as ordinal operations.
  .NET's `StartsWith(string)` compares culture-sensitively.
- The message envelope's class `ScallopMessage` is not part of this model. The send
  front-ends assume its fields start at C#'s defaults: no sender, no
  receiver list, hop count 0, not internal. Under that assumption unicast and
  multicast messages leave with hop count 0 and original hop count 0, so
  their delivery never adds to the hop sum.
- The hop-count decrement in flight belongs to the transport. Scenarios
  deliver messages as they were sent.
- Leave: when a factory close fails, the model raises no Closed event.
