/**
 * Runs of a fresh AclManager through short sequences of requests and
 * controller events. Each method returns what the caller and the controller
 * observe at the end and states it in its postcondition.
 */
module ClassicScenarios {
  import opened Hci
  import opened Classic

  /** Connect requests that arrive while an attempt is pending wait in the queue, newest first. */
  method ConnectWhilePending(a: Address, b: Address, c: Address)
    returns (pending: PendingConnect, queue: seq<Address>, cmds: seq<Command>)
    ensures pending == Outgoing(a)
    ensures queue == [c, b]
    ensures cmds == [BuildCreateConnection(a)]
  {
    var m := new AclManager();
    m.Connect(a);
    m.Connect(b);
    m.Connect(c);
    pending, queue, cmds := m.pending, m.queue, m.cmds;
  }

  /** Cancelling a queued address removes it and sends nothing to the controller. */
  method CancelQueued(a: Address, b: Address)
    returns (queue: seq<Address>, cmds: seq<Command>, acks: seq<Ack>)
    requires a != b
    ensures queue == []
    ensures cmds == [BuildCreateConnection(a)]
    ensures acks == [CancelConnectAck(b)]
  {
    var m := new AclManager();
    m.Connect(a);
    m.Connect(b);
    m.CancelConnect(b);
    queue, cmds, acks := m.queue, m.cmds, m.acks;
  }

  /**
   * Cancelling the outgoing attempt sends Create Connection Cancel and keeps the
   * attempt pending; it resolves once, through the later Connection Complete.
   */
  method CancelPendingThenFail(a: Address, h: Handle, status: ErrorCode)
    returns (cmds: seq<Command>, pendingAfterCancel: PendingConnect, pending: PendingConnect,
             events: seq<Event>, registry: map<Handle, ConnectionInternal>)
    requires status != Success
    ensures cmds == [BuildCreateConnection(a), CreateConnectionCancel(a)]
    ensures pendingAfterCancel == Outgoing(a)
    ensures pending == None
    ensures events == [ConnectFail(a, status)]
    ensures registry == map[]
  {
    var m := new AclManager();
    m.Connect(a);
    m.CancelConnect(a);
    pendingAfterCancel := m.pending;
    m.OnConnectionComplete(ConnectionComplete(status, h, a));
    cmds, pending, events, registry := m.cmds, m.pending, m.events, m.registry;
  }

  /** A successful outgoing attempt yields one Central connection, registered once. */
  method OutgoingIsCentral(a: Address, h: Handle)
    returns (events: seq<Event>, registry: map<Handle, ConnectionInternal>, pending: PendingConnect)
    ensures events == [ConnectSuccess(Connection(h, a, Central))]
    ensures registry == map[h := ConnectionInternal(a, Central)]
    ensures pending == None
  {
    var m := new AclManager();
    m.Connect(a);
    m.OnConnectionComplete(ConnectionComplete(Success, h, a));
    events, registry, pending := m.events, m.registry, m.pending;
  }

  /** An accepted remote request that completes yields a Peripheral connection. */
  method IncomingIsPeripheral(a: Address, h: Handle)
    returns (cmds: seq<Command>, events: seq<Event>, registry: map<Handle, ConnectionInternal>)
    ensures cmds == [AcceptConnectionRequest(a, BecomeCentral)]
    ensures events == [ConnectSuccess(Connection(h, a, Peripheral))]
    ensures registry == map[h := ConnectionInternal(a, Peripheral)]
  {
    var m := new AclManager();
    m.OnConnectionRequest(ConnectionRequest(a));
    m.OnConnectionComplete(ConnectionComplete(Success, h, a));
    cmds, events, registry := m.cmds, m.events, m.registry;
  }

  /** A failed completion of an accepted remote request is reported as ConnectFail too. */
  method IncomingFailureIsConnectFail(a: Address, h: Handle, status: ErrorCode)
    returns (cmds: seq<Command>, events: seq<Event>, registry: map<Handle, ConnectionInternal>, pending: PendingConnect)
    requires status != Success
    ensures cmds == [AcceptConnectionRequest(a, BecomeCentral)]
    ensures events == [ConnectFail(a, status)]
    ensures registry == map[]
    ensures pending == None
  {
    var m := new AclManager();
    m.OnConnectionRequest(ConnectionRequest(a));
    m.OnConnectionComplete(ConnectionComplete(status, h, a));
    cmds, events, registry, pending := m.cmds, m.events, m.registry, m.pending;
  }

  /** A remote request from an address that is already connected is rejected; the registry stays. */
  method RequestFromConnectedIsRejected(a: Address, h: Handle)
    returns (cmds: seq<Command>, registry: map<Handle, ConnectionInternal>, pending: PendingConnect)
    ensures cmds == [BuildCreateConnection(a), RejectConnectionRequest(a, UnacceptableBdAddr)]
    ensures registry == map[h := ConnectionInternal(a, Central)]
    ensures pending == Incoming(a)
  {
    var m := new AclManager();
    m.Connect(a);
    m.OnConnectionComplete(ConnectionComplete(Success, h, a));
    assert m.registry[h].addr == a;
    m.OnConnectionRequest(ConnectionRequest(a));
    cmds, registry, pending := m.cmds, m.registry, m.pending;
  }

  /**
   * Disconnect round trip: the command carries the handle and reason and is
   * acknowledged at once; Disconnection Complete removes the entry and is
   * reported once; nothing is routed to the handle afterwards.
   */
  method DisconnectRoundTrip(a: Address, h: Handle, reason: DisconnectReason, code: ErrorCode, auth: ErrorCode)
    returns (cmds: seq<Command>, acks: seq<Ack>, registry: map<Handle, ConnectionInternal>,
             connEvents: seq<(Handle, ConnectionEvent)>, inbox: map<Handle, seq<EventPacket>>)
    ensures cmds == [BuildCreateConnection(a), Disconnect(h, reason)]
    ensures acks == [DisconnectAck(h)]
    ensures registry == map[]
    ensures connEvents == [(h, Disconnected(code))]
    ensures inbox == map[]
  {
    var m := new AclManager();
    m.Connect(a);
    m.OnConnectionComplete(ConnectionComplete(Success, h, a));
    m.ConnectionDisconnect(h, reason);
    m.ConnectionOnDisconnectionComplete(h, DisconnectionComplete(Success, h, code));
    m.OnAuthenticationComplete(AuthenticationComplete(auth, h));
    cmds, acks, registry, connEvents, inbox := m.cmds, m.acks, m.registry, m.connEvents, m.inbox;
  }

  /**
   * Authentication Complete for a live handle is put on its actor's channel;
   * the actor receives it from there and reports it on the connection's stream.
   */
  method AuthenticationIsRouted(a: Address, h: Handle, status: ErrorCode)
    returns (routed: seq<EventPacket>, received: seq<EventPacket>, connEvents: seq<(Handle, ConnectionEvent)>)
    ensures routed == [AuthenticationComplete(status, h)]
    ensures received == []
    ensures connEvents == [(h, AuthenticationCompleted)]
  {
    var m := new AclManager();
    m.OnConnectionRequest(ConnectionRequest(a));
    m.OnConnectionComplete(ConnectionComplete(Success, h, a));
    m.OnAuthenticationComplete(AuthenticationComplete(status, h));
    routed := m.inbox[h];
    m.ConnectionOnAuthenticationComplete(h);
    received, connEvents := m.inbox[h], m.connEvents;
  }

  /** After an attempt completes, a queued address is not promoted: the slot stays empty. */
  method QueueIsNotPromoted(a: Address, b: Address, h: Handle)
    returns (pending: PendingConnect, queue: seq<Address>, cmds: seq<Command>)
    ensures pending == None
    ensures queue == [b]
    ensures cmds == [BuildCreateConnection(a)]
  {
    var m := new AclManager();
    m.Connect(a);
    m.Connect(b);
    m.OnConnectionComplete(ConnectionComplete(Success, h, a));
    pending, queue, cmds := m.pending, m.queue, m.cmds;
  }

  /** Connect to an address that is already connected ends the coordinator: later requests are not served. */
  method ConnectToConnectedEndsLoop(a: Address, b: Address, h: Handle)
    returns (loop: LoopState, cmds: seq<Command>, queue: seq<Address>, pending: PendingConnect)
    ensures loop == Returned
    ensures cmds == [BuildCreateConnection(a)]
    ensures queue == [] && pending == None
  {
    var m := new AclManager();
    m.Connect(a);
    m.OnConnectionComplete(ConnectionComplete(Success, h, a));
    assert m.registry[h].addr == a;
    m.Connect(a);
    m.Connect(b);
    m.OnConnectionRequest(ConnectionRequest(b));
    cmds, loop, queue, pending := m.cmds, m.loop, m.queue, m.pending;
  }

  /**
   * A remote request overwrites an outgoing attempt: once the remote one
   * completes, a second Create Connection is sent although the first has not
   * completed, and the first one's completion then matches nothing.
   */
  method OverwrittenOutgoingAttempt(a: Address, b: Address, c: Address, h: Handle, status: ErrorCode)
    returns (cmds: seq<Command>, loop: LoopState)
    requires a != b && b != c && a != c
    ensures cmds == [BuildCreateConnection(a), AcceptConnectionRequest(b, BecomeCentral), BuildCreateConnection(c)]
    ensures loop == Panicked
  {
    var m := new AclManager();
    m.Connect(a);
    m.OnConnectionRequest(ConnectionRequest(b));
    m.OnConnectionComplete(ConnectionComplete(Success, h, b));
    assert m.registry == map[h := ConnectionInternal(b, Peripheral)];
    m.Connect(c);
    m.OnConnectionComplete(ConnectionComplete(status, h, a));
    cmds, loop := m.cmds, m.loop;
  }
}
