# Classic ACL manager: connection state machine

A Dafny model of the connection-management core of the Bluetooth Classic ACL
manager (`gd/rust/acl/src/classic/mod.rs`). It covers two parts.

The **coordinator** owns three things:
- the single pending-attempt slot (`PendingConnect`: `Outgoing(addr)`, `Incoming(addr)` or `None`);
- the connect queue;
- the registry that maps a connection handle to its address and role.

The coordinator serves caller requests (Connect, CancelConnect). It also serves
three controller events: Connection Complete, Connection Request and
Authentication Complete.

The **per-connection actors** each own one live handle. They handle Disconnection
Complete, Authentication Complete and Disconnect requests.

The HCI commands and events are abstract datatypes in module `Hci` (hci.dfy).
They follow the Bluetooth Core Specification, Volume 4, Part E:
- commands: sections 7.1.5 to 7.1.9;
- events: sections 7.7.3 to 7.7.6.

The state machine is module `Classic` (classic.dfy). Its class `AclManager`
holds the slot, the queue, the registry, the set of handles whose actor runs,
each running actor's event channel (`inbox`), and the state of the coordinator
loop (`Running`, `Returned` or `Panicked`). The coordinator puts routed events
on an actor's channel; the actor takes them off its head.
It also holds logs of everything the manager produces:
- commands sent to the controller;
- events to the caller;
- each connection's events;
- acknowledgements.

The controller-event handlers take the event packet itself and accept only the
kind their arm of the source matches.

Each received message is one method call, that is, one atomic step. Every method
states the whole new state through the ghost snapshot `State()`. Every method
keeps the invariant `Valid()`, which says three things:
- a handle is a registry key exactly while its actor runs and has an event channel;
- every registered connection was announced with ConnectSuccess;
- a pending attempt was actually put to the controller.

Once the coordinator loop has ended, a coordinator step changes nothing. Actor
steps do not depend on the coordinator loop, because the actors are separate tasks.

Module `ClassicScenarios` (scenarios.dfy) runs a fresh manager through short
message sequences and states what is observed at the end.

The model follows the code where the code does something other than what its
own text suggests:
- A Connect for an address that is already connected is reported with a
  `warn!` (mod.rs:160), which reads as a dropped request; but the `return` at
  mod.rs:161 ends the whole coordinator task. The model
  sets the loop to `Returned`, and no later request or event is served
  (`ConnectToConnectedEndsLoop`).
- The field is named `connect_queue`, yet `insert(0, ..)` (mod.rs:167) puts the
  newest request first (`ConnectWhilePending`).
- The doc comment at mod.rs:101 says a connect is queued "if a connection is
  already pending", but nothing ever takes an address out of the queue to
  attempt it. After a completion the slot stays empty (`QueueIsNotPromoted`).
- A Connection Request overwrites an `Outgoing` attempt. After the remote
  connection completes, a second Create Connection can be sent while the first
  is still outstanding. The first attempt's completion then matches nothing and
  panics (`OverwrittenOutgoingAttempt`).
- `ConnectFail` is documented as a locally initiated attempt that failed
  (mod.rs:45), but a failed Connection Complete for an accepted remote request
  emits it too (mod.rs:215; `IncomingFailureIsConnectFail`).
- A remote request is accepted with role `BecomeCentral` (mod.rs:229), yet the
  completed connection is recorded as `Role::Peripheral` (mod.rs:187;
  `IncomingIsPeripheral`).

## Model

| member | source | states |
|---|---|---|
| `Classic.Take` | gd/rust/acl/src/classic/mod.rs:127-131 | returns the slot's previous value and leaves the slot None |
| `Classic.CompletionRole` | gd/rust/acl/src/classic/mod.rs:185-189 | the role is Central iff the taken attempt is Outgoing(addr), Peripheral iff it is Incoming(addr); any other value matches nothing (the panic arm) |
| `Classic.BuildCreateConnection` | gd/rust/acl/src/classic/mod.rs:244-253 | Create Connection to the given address: packet types DM1/DH1/DM3/DH3/DM5/DH5 (section 7.1.5 bits), page scan repetition R1, clock offset 0 marked invalid, role switch allowed |
| `Classic.Retain` | gd/rust/acl/src/classic/mod.rs:171 | the cancelled address no longer occurs and every other address keeps its number of occurrences |
| `Classic.RetainDistributes` | gd/rust/acl/src/classic/mod.rs:171 | retain acts entry by entry over a concatenation, so the kept entries stay in order |
| `Classic.RetainAbsent` | gd/rust/acl/src/classic/mod.rs:171 | cancelling an address that is not queued leaves the queue unchanged |
| `Classic.IsConnected` | gd/rust/acl/src/classic/mod.rs:159 | some registry entry has address addr: the test holds iff some value of the registry carries addr, the scan `connections.values().any(..)` also used at mod.rs:221 |
| `Classic.AclManager.constructor` | gd/rust/acl/src/classic/mod.rs:145-147 | the loop runs with an empty registry, an empty queue, slot None and no output; Valid holds |
| `Classic.AclManager.Connect` | gd/rust/acl/src/classic/mod.rs:158-169 | already connected: nothing changes but the loop ends (Returned); slot None: slot becomes Outgoing(addr) and exactly one BuildCreateConnection(addr) is sent; otherwise addr goes to the front of the queue and nothing is sent; a stopped loop ignores it |
| `Classic.AclManager.CancelConnect` | gd/rust/acl/src/classic/mod.rs:170-176 | queue becomes Retain(queue, addr); Create Connection Cancel is sent iff the slot is Outgoing(addr); slot and registry unchanged; always acknowledged |
| `Classic.AclManager.OnConnectionComplete` | gd/rust/acl/src/classic/mod.rs:181-216 | slot is None afterwards and the queue is untouched; unmatched completion ends the loop (Panicked); success inserts handle with the matched role, starts its actor with an empty event channel and emits exactly one ConnectSuccess; failure emits exactly one ConnectFail(addr, status) and leaves the registry |
| `Classic.AclManager.OnConnectionRequest` | gd/rust/acl/src/classic/mod.rs:218-232 | slot becomes Incoming(addr) unconditionally; Reject with UnacceptableBdAddr iff addr is a registered address, else Accept with BecomeCentral; registry unchanged |
| `Classic.AclManager.OnAuthenticationComplete` | gd/rust/acl/src/classic/mod.rs:233 | the packet is appended to the channel of the handle's actor iff the handle is registered, otherwise dropped; slot, queue and registry unchanged |
| `Classic.AclManager.DispatchTo` | gd/rust/acl/src/classic/mod.rs:255-263 | appends the event to the channel of the handle's actor iff the handle is a registry key; nothing else changes |
| `Classic.AclManager.ConnectionOnDisconnectionComplete` | gd/rust/acl/src/classic/mod.rs:277-281 | removes its own handle from the registry, ends the actor (its channel goes too), emits exactly one Disconnected(reason) with the packet's reason |
| `Classic.AclManager.ConnectionOnAuthenticationComplete` | gd/rust/acl/src/classic/mod.rs:275-282 | takes the Authentication Complete at the head of the actor's channel and emits AuthenticationComplete on the connection's event stream; nothing else changes |
| `Classic.AclManager.ConnectionDisconnect` | gd/rust/acl/src/classic/mod.rs:286-291 | sends one Disconnect with the actor's handle and the reason, then acknowledges; registry unchanged |
| `ClassicScenarios.ConnectWhilePending` | gd/rust/acl/src/classic/mod.rs:163-168 | connect a, b, c: a is attempted, b and c wait in the queue newest first, one command sent |
| `ClassicScenarios.CancelQueued` | gd/rust/acl/src/classic/mod.rs:170-176 | cancelling a queued address empties it from the queue and sends no command |
| `ClassicScenarios.CancelPendingThenFail` | gd/rust/acl/src/classic/mod.rs:170-216 | cancelling the outgoing attempt sends the cancel and keeps it pending; the failed completion gives one ConnectFail, an empty slot, no registry entry |
| `ClassicScenarios.OutgoingIsCentral` | gd/rust/acl/src/classic/mod.rs:158-214 | connect then successful completion: one ConnectSuccess with role Central, one registry entry, empty slot |
| `ClassicScenarios.IncomingIsPeripheral` | gd/rust/acl/src/classic/mod.rs:181-232 | accepted remote request then successful completion: one ConnectSuccess with role Peripheral |
| `ClassicScenarios.IncomingFailureIsConnectFail` | gd/rust/acl/src/classic/mod.rs:185-215 | a failed completion of an accepted remote request also emits exactly one ConnectFail(addr, status), leaves the slot empty and registers nothing |
| `ClassicScenarios.RequestFromConnectedIsRejected` | gd/rust/acl/src/classic/mod.rs:218-226 | a request from a connected address is rejected with UnacceptableBdAddr and the registry stays |
| `ClassicScenarios.DisconnectRoundTrip` | gd/rust/acl/src/classic/mod.rs:277-291 | Disconnect carries handle and reason and is acknowledged; Disconnection Complete removes the entry and the actor's channel and is reported once; a later Authentication Complete is routed nowhere |
| `ClassicScenarios.AuthenticationIsRouted` | gd/rust/acl/src/classic/mod.rs:233-282 | Authentication Complete for a live handle is put on its actor's channel; the actor takes it off and reports it on the connection's event stream |
| `ClassicScenarios.QueueIsNotPromoted` | gd/rust/acl/src/classic/mod.rs:181-216 | after the pending attempt completes, the queued address stays queued and is not attempted |
| `ClassicScenarios.ConnectToConnectedEndsLoop` | gd/rust/acl/src/classic/mod.rs:159-162 | connect to a connected address ends the loop; later requests and events send nothing |
| `ClassicScenarios.OverwrittenOutgoingAttempt` | gd/rust/acl/src/classic/mod.rs:163-189 | a remote request overwrites the outgoing attempt; a second Create Connection is then sent and the first attempt's completion panics |

## Left out

- Task plumbing (`select!`, mpsc and one-shot channels, `rt.spawn`, `Arc<Mutex<..>>` locking): each received message is one atomic step; interleavings of the coordinator and the actors are concurrency, not modelled.
- The subscription of the coordinator to its three events (`events.register`) and the `gddi` module wiring: process setup, outside the state machine.
- `dispatch.register` and the byte-stream endpoints `rx`/`tx`: a foreign collaborator; the model's `ConnectionInternal` keeps only address and role (the handle is its registry key); the model's `Connection` keeps address and role plus a handle, which stands in for the `requests` channel to the connection's actor (the code's `Connection`, mod.rs:56-63, has no handle field).
- The `AclManager::connect`, `cancel_connect` and `Connection::disconnect` facades: `connect` only sends its request (mod.rs:103), which carries no reply channel, so `Connect` appends nothing to `acks`; `cancel_connect` (mod.rs:108-110) and `disconnect` (mod.rs:77-79) send a request and wait for its acknowledgement, which the `acks` log records.
- Wire encoding of HCI packets and `EventPacket::specialize`: commands and events are abstract datatypes.
- `warn!` logging.
- `.unwrap()` on sends to a receiver that has gone away (a panic of the sending task) is not modelled; every step assumes its receivers are alive.
- Classic.AclManager.Connect, Classic.AclManager.CancelConnect: once the coordinator has ended (`Returned` or `Panicked`), its request channel is closed, so the caller's next `connect` or `cancel_connect` panics at the `.unwrap()` of mod.rs:103 or mod.rs:109; the model makes these steps no-ops, and a cancel then gets no acknowledgement.
- Classic.AclManager.ConnectionOnAuthenticationComplete: a caller that drops its connection closes the connection's event stream, and the actor then panics at the `.unwrap()` of mod.rs:282 while its registry entry stays; the invariant that a handle is registered exactly while its actor runs holds only while callers keep their connections.
- Classic.AclManager.ConnectionOnDisconnectionComplete: when the caller has dropped its connection, the `Disconnected` entry the model appends to `connEvents` has no receiver, and the actor panics at the `.unwrap()` of mod.rs:279; the registry entry is already gone at that point (mod.rs:278), so the invariant still holds.
- Classic.AclManager.ConnectionOnDisconnectionComplete: the Disconnection Complete packet reaches the actor's channel from the transport layer's dispatcher, which is not part of this model; the step takes the packet as its input instead of from `inbox`. Since the model does not order that packet against the routed events, the step ends the actor even while an Authentication Complete is still on its channel, and that event is dropped; in the code both arrive on the same channel (`core.evt_rx`, mod.rs:275), so an event queued before the Disconnection Complete is delivered first.
- The `unimplemented!()` arms (mod.rs:234, 283): the coordinator and actor steps exist only for the events they are registered for.
- Classic.AclManager.OnConnectionComplete: the `assert!` at mod.rs:211 (a handle is never reused while it is registered) is a precondition, not a panic path.
- Classic.AclManager.ConnectionDisconnect, Classic.AclManager.ConnectionOnAuthenticationComplete, Classic.AclManager.ConnectionOnDisconnectionComplete: actor steps require the actor to be running; a Disconnect request sent to a finished actor fails the `.unwrap()` of mod.rs:78, which is not modelled.
- A panic is modelled as the end of the coordinator task (`Panicked`); the actors and the registry live on.
