/**
 * The connection-management state machine of the Classic ACL manager:
 * the coordinator loop (pending-attempt slot, connect queue, connection
 * registry) and the per-connection actors that share the registry with it.
 * Every received message is one atomic step of the class AclManager.
 */
module Classic {
  import opened Hci

  /** The single outstanding connection attempt. */
  datatype PendingConnect = Outgoing(addr: Address) | Incoming(addr: Address) | None

  /** Swap-to-None: the previous content of the slot, and the slot's new content. */
  function Take(slot: PendingConnect): (r: (PendingConnect, PendingConnect))
    ensures r.0 == slot
    ensures r.1 == None
  {
    (slot, None)
  }

  /** What a Connection Complete for `addr` makes of the attempt taken out of the slot. */
  datatype Completion = Matched(role: Role) | Unmatched

  /** The role of a completed connection: Central for our own attempt, Peripheral for an accepted one. */
  function CompletionRole(taken: PendingConnect, addr: Address): (c: Completion)
    ensures c == Matched(Central) <==> taken == Outgoing(addr)
    ensures c == Matched(Peripheral) <==> taken == Incoming(addr)
    ensures c == Unmatched <==> taken != Outgoing(addr) && taken != Incoming(addr)
  {
    match taken
    case Outgoing(a) => if a == addr then Matched(Central) else Unmatched
    case Incoming(a) => if a == addr then Matched(Peripheral) else Unmatched
    case None => Unmatched
  }

  /** The Create Connection command the manager sends for a locally requested connection. */
  function BuildCreateConnection(bdAddr: Address): (c: Command)
    ensures c.CreateConnection? && c.bdAddr == bdAddr
    ensures c.packetType == Dm1 | Dh1 | Dm3 | Dh3 | Dm5 | Dh5
    ensures c.pageScanRepetitionMode == R1
    ensures c.clockOffset == 0 && c.clockOffsetValid == OffsetInvalid
    ensures c.allowRoleSwitch == AllowRoleSwitch
  {
    CreateConnection(bdAddr, 0x4408 | 0x8810, R1, 0, OffsetInvalid, AllowRoleSwitch)
  }

  /** The queue after `retain(|p| *p != addr)`. */
  function Retain(queue: seq<Address>, addr: Address): (r: seq<Address>)
    ensures addr !in r
    ensures multiset(r) == multiset(queue)[addr := 0]
  {
    if queue == [] then []
    else
      assert queue == [queue[0]] + queue[1..];
      if queue[0] == addr then Retain(queue[1..], addr)
      else [queue[0]] + Retain(queue[1..], addr)
  }

  /** Retain works entry by entry, so the entries it keeps stay in their order. */
  lemma {:induction false} RetainDistributes(a: seq<Address>, b: seq<Address>, addr: Address)
    ensures Retain(a + b, addr) == Retain(a, addr) + Retain(b, addr)
  {
    if a == [] {
      assert a + b == b;
    } else {
      assert (a + b)[0] == a[0];
      assert (a + b)[1..] == a[1..] + b;
      RetainDistributes(a[1..], b, addr);
    }
  }

  /** Cancelling an address that is not queued leaves the queue as it was. */
  lemma {:induction false} RetainAbsent(queue: seq<Address>, addr: Address)
    requires addr !in queue
    ensures Retain(queue, addr) == queue
  {
    if queue != [] {
      RetainAbsent(queue[1..], addr);
    }
  }

  /** The registry entry of one live connection. */
  datatype ConnectionInternal = ConnectionInternal(addr: Address, role: Role)

  /**
   * The "already connected" test: some registry entry has address `addr`.
   * It is stated over the registry's keys; the contract ties it to the scan
   * over the registry's values that the code performs.
   */
  predicate IsConnected(registry: map<Handle, ConnectionInternal>, addr: Address): (r: bool)
    ensures r <==> exists c | c in registry.Values :: c.addr == addr
  {
    exists h | h in registry :: registry[h].addr == addr
  }

  /** What the caller receives for an established link. */
  datatype Connection = Connection(handle: Handle, addr: Address, role: Role)

  /** Events of the manager to its caller. */
  datatype Event = ConnectSuccess(connection: Connection) | ConnectFail(addr: Address, reason: ErrorCode)

  /** Events of one connection to its caller. */
  datatype ConnectionEvent = Disconnected(reason: ErrorCode) | AuthenticationCompleted

  /** Acknowledgements sent back on a request's one-shot reply channel. */
  datatype Ack = CancelConnectAck(addr: Address) | DisconnectAck(handle: Handle)

  /** The coordinator task: running its loop, ended by `return`, or ended by a panic. */
  datatype LoopState = Running | Returned | Panicked

  /** A snapshot of all the state of an AclManager. */
  datatype AclState = AclState(
    loop: LoopState,
    pending: PendingConnect,
    queue: seq<Address>,
    registry: map<Handle, ConnectionInternal>,
    liveActors: set<Handle>,
    cmds: seq<Command>,
    events: seq<Event>,
    connEvents: seq<(Handle, ConnectionEvent)>,
    inbox: map<Handle, seq<EventPacket>>,
    acks: seq<Ack>)

  class AclManager {
    // Coordinator state.
    var loop: LoopState
    var pending: PendingConnect
    var queue: seq<Address>
    // Shared between the coordinator (insert) and the actors (remove).
    var registry: map<Handle, ConnectionInternal>
    // Handles whose per-connection actor is running.
    var liveActors: set<Handle>
    // Each running actor's event channel: events routed to it and not yet received.
    var inbox: map<Handle, seq<EventPacket>>
    // Outputs, in the order they were produced.
    var cmds: seq<Command>                              // HCI commands sent to the controller
    var events: seq<Event>                              // the manager's event stream
    var connEvents: seq<(Handle, ConnectionEvent)>      // each connection's event stream
    var acks: seq<Ack>

    ghost function State(): AclState
      reads this
    {
      AclState(loop, pending, queue, registry, liveActors, cmds, events, connEvents, inbox, acks)
    }

    /**
     * A handle is a registry key exactly while its actor runs, and a running actor
     * has an event channel; every registered connection was announced to the caller;
     * a pending attempt was put to the controller.
     */
    ghost predicate Valid()
      reads this
    {
      && registry.Keys == liveActors
      && inbox.Keys == liveActors
      && (forall h | h in registry :: ConnectSuccess(Connection(h, registry[h].addr, registry[h].role)) in events)
      && (pending.Outgoing? ==> BuildCreateConnection(pending.addr) in cmds)
      && (pending.Incoming? ==>
            AcceptConnectionRequest(pending.addr, BecomeCentral) in cmds ||
            RejectConnectionRequest(pending.addr, UnacceptableBdAddr) in cmds)
    }

    constructor ()
      ensures Valid()
      ensures State() == AclState(Running, None, [], map[], {}, [], [], [], map[], [])
    {
      loop, pending, queue := Running, None, [];
      registry, liveActors, inbox := map[], {}, map[];
      cmds, events, connEvents, acks := [], [], [], [];
    }

    // ---- Requests to the coordinator ----

    /** Connect to `addr`, or queue it if an attempt is already pending. */
    method Connect(addr: Address)
      requires Valid()
      modifies this
      ensures Valid()
      ensures old(loop) != Running ==> State() == old(State())
      ensures old(loop) == Running && old(IsConnected(registry, addr)) ==>
                State() == old(State()).(loop := Returned)
      ensures old(loop) == Running && !old(IsConnected(registry, addr)) && old(pending) == None ==>
                State() == old(State()).(pending := Outgoing(addr),
                                         cmds := old(cmds) + [BuildCreateConnection(addr)])
      ensures old(loop) == Running && !old(IsConnected(registry, addr)) && old(pending) != None ==>
                State() == old(State()).(queue := [addr] + old(queue))
    {
      if loop != Running {
        return;
      }
      if IsConnected(registry, addr) {
        loop := Returned;
        return;
      }
      if pending == None {
        pending := Outgoing(addr);
        cmds := cmds + [BuildCreateConnection(addr)];
      } else {
        queue := [addr] + queue;
      }
    }

    /** Cancel the connection to `addr`: drop it from the queue, cancel it if it is the outgoing attempt. */
    method CancelConnect(addr: Address)
      requires Valid()
      modifies this
      ensures Valid()
      ensures old(loop) != Running ==> State() == old(State())
      ensures old(loop) == Running ==>
                State() == old(State()).(
                  queue := Retain(old(queue), addr),
                  cmds := old(cmds) + (if old(pending) == Outgoing(addr) then [CreateConnectionCancel(addr)] else []),
                  acks := old(acks) + [CancelConnectAck(addr)])
    {
      if loop != Running {
        return;
      }
      queue := Retain(queue, addr);
      if pending == Outgoing(addr) {
        cmds := cmds + [CreateConnectionCancel(addr)];
      }
      acks := acks + [CancelConnectAck(addr)];
    }

    // ---- Controller events to the coordinator ----


    /**
     * Connection Complete: the slot is emptied whatever the status; a completion
     * that matches no pending attempt stops the coordinator. On success the
     * connection is registered and its actor started, with an empty event
     * channel, before the connection is announced.
     */
    method OnConnectionComplete(evt: EventPacket)
      requires Valid()
      requires evt.ConnectionComplete?
      requires loop == Running && evt.status == Success && CompletionRole(pending, evt.bdAddr).Matched? ==>
                 evt.connectionHandle !in registry
      modifies this
      ensures Valid()
      ensures old(loop) != Running ==> State() == old(State())
      ensures old(loop) == Running ==> pending == None && queue == old(queue) && cmds == old(cmds)
      ensures old(loop) == Running && CompletionRole(old(pending), evt.bdAddr) == Unmatched ==>
                State() == old(State()).(pending := None, loop := Panicked)
      ensures old(loop) == Running && CompletionRole(old(pending), evt.bdAddr).Matched? && evt.status == Success ==>
                var role := CompletionRole(old(pending), evt.bdAddr).role;
                var handle := evt.connectionHandle;
                State() == old(State()).(
                  pending := None,
                  registry := old(registry)[handle := ConnectionInternal(evt.bdAddr, role)],
                  liveActors := old(liveActors) + {handle},
                  inbox := old(inbox)[handle := []],
                  events := old(events) + [ConnectSuccess(Connection(handle, evt.bdAddr, role))])
      ensures old(loop) == Running && CompletionRole(old(pending), evt.bdAddr).Matched? && evt.status != Success ==>
                State() == old(State()).(pending := None, events := old(events) + [ConnectFail(evt.bdAddr, evt.status)])
    {
      if loop != Running {
        return;
      }
      var addr, status, handle := evt.bdAddr, evt.status, evt.connectionHandle;
      var (taken, emptied) := Take(pending);
      pending := emptied;
      match CompletionRole(taken, addr)
      case Unmatched =>
        loop := Panicked;
      case Matched(role) =>
        if status == Success {
          registry := registry[handle := ConnectionInternal(addr, role)];
          liveActors := liveActors + {handle};
          inbox := inbox[handle := []];
          events := events + [ConnectSuccess(Connection(handle, addr, role))];
        } else {
          events := events + [ConnectFail(addr, status)];
        }
    }

    /** Connection Request: the remote attempt takes the slot; accept it unless the address is connected. */
    method OnConnectionRequest(evt: EventPacket)
      requires Valid()
      requires evt.ConnectionRequest?
      modifies this
      ensures Valid()
      ensures old(loop) != Running ==> State() == old(State())
      ensures old(loop) == Running ==>
                State() == old(State()).(
                  pending := Incoming(evt.bdAddr),
                  cmds := old(cmds) + [if old(IsConnected(registry, evt.bdAddr))
                                       then RejectConnectionRequest(evt.bdAddr, UnacceptableBdAddr)
                                       else AcceptConnectionRequest(evt.bdAddr, BecomeCentral)])
    {
      if loop != Running {
        return;
      }
      var addr := evt.bdAddr;
      pending := Incoming(addr);
      if IsConnected(registry, addr) {
        cmds := cmds + [RejectConnectionRequest(addr, UnacceptableBdAddr)];
      } else {
        cmds := cmds + [AcceptConnectionRequest(addr, BecomeCentral)];
      }
    }

    /** Authentication Complete: handed to the actor of the connection that owns the handle. */
    method OnAuthenticationComplete(evt: EventPacket)
      requires Valid()
      requires evt.AuthenticationComplete?
      modifies this
      ensures Valid()
      ensures old(loop) != Running ==> State() == old(State())
      ensures old(loop) == Running && evt.connectionHandle in old(registry) ==>
                var h := evt.connectionHandle;
                State() == old(State()).(inbox := old(inbox)[h := old(inbox)[h] + [evt]])
      ensures old(loop) == Running && evt.connectionHandle !in old(registry) ==> State() == old(State())
    {
      if loop != Running {
        return;
      }
      DispatchTo(evt.connectionHandle, evt);
    }

    /** Route an event to the channel of the actor of `handle`; an unknown handle drops it. */
    method DispatchTo(handle: Handle, evt: EventPacket)
      requires Valid()
      modifies this
      ensures Valid()
      ensures handle in old(registry) ==>
                State() == old(State()).(inbox := old(inbox)[handle := old(inbox)[handle] + [evt]])
      ensures handle !in old(registry) ==> State() == old(State())
    {
      if handle in registry {
        inbox := inbox[handle := inbox[handle] + [evt]];
      }
    }

    // ---- The per-connection actor of `handle` ----

    /**
     * Disconnection Complete: the actor removes its own registry entry, reports
     * the reason and ends; its event channel goes with it.
     */
    method ConnectionOnDisconnectionComplete(handle: Handle, evt: EventPacket)
      requires Valid()
      requires handle in liveActors
      requires evt.DisconnectionComplete?
      modifies this
      ensures Valid()
      ensures handle !in registry && handle !in liveActors && handle !in inbox
      ensures State() == old(State()).(
                registry := old(registry) - {handle},
                liveActors := old(liveActors) - {handle},
                inbox := old(inbox) - {handle},
                connEvents := old(connEvents) + [(handle, Disconnected(evt.reason))])
    {
      registry := registry - {handle};
      liveActors := liveActors - {handle};
      inbox := inbox - {handle};
      connEvents := connEvents + [(handle, Disconnected(evt.reason))];
    }

    /**
     * The actor receives the Authentication Complete at the head of its channel
     * and reports it on the connection's event stream.
     */
    method ConnectionOnAuthenticationComplete(handle: Handle)
      requires Valid()
      requires handle in liveActors
      requires inbox[handle] != [] && inbox[handle][0].AuthenticationComplete?
      modifies this
      ensures Valid()
      ensures State() == old(State()).(
                inbox := old(inbox)[handle := old(inbox)[handle][1..]],
                connEvents := old(connEvents) + [(handle, AuthenticationCompleted)])
    {
      inbox := inbox[handle := inbox[handle][1..]];
      connEvents := connEvents + [(handle, AuthenticationCompleted)];
    }

    /** Disconnect request: send the Disconnect command for this handle, then acknowledge. */
    method ConnectionDisconnect(handle: Handle, reason: DisconnectReason)
      requires Valid()
      requires handle in liveActors
      modifies this
      ensures Valid()
      ensures State() == old(State()).(
                cmds := old(cmds) + [Disconnect(handle, reason)],
                acks := old(acks) + [DisconnectAck(handle)])
    {
      cmds := cmds + [Disconnect(handle, reason)];
      acks := acks + [DisconnectAck(handle)];
    }
  }
}
