/**
 The client registry of the stream service: a map from user to channels
 guarded by a read-write lock, and channels that each connection opens,
 registers, unregisters and closes.  A channel is named by its connection.
 */
module StreamClients {
  datatype Message = Message(user: string, data: string)

  type Clients = map<string, set<nat>>

  /** The channels registered for a user; none for an unknown user. */
  function Of(clients: Clients, user: string): set<nat> {
    if user in clients then clients[user] else {}
  }

  ghost predicate NoEmptySet(clients: Clients) {
    forall u :: u in clients ==> clients[u] != {}
  }

  function Added(clients: Clients, user: string, ch: nat): Clients {
    clients[user := Of(clients, user) + {ch}]
  }

  function Removed(clients: Clients, user: string, ch: nat): Clients {
    if user !in clients then clients
    else if clients[user] - {ch} == {} then clients - {user}
    else clients[user := clients[user] - {ch}]
  }

  // ---------------------------------------------------------------------
  // The critical sections as code

  class Registry {
    var clients: Clients
    var buffers: map<nat, seq<Message>> // of every open channel; each holds at most one message

    constructor ()
      ensures clients == map[] && buffers == map[]
    {
      clients, buffers := map[], map[];
    }

    method AddClient(user: string, ch: nat)
      modifies this`clients
      ensures clients == Added(old(clients), user, ch)
      ensures old(NoEmptySet(clients)) ==> NoEmptySet(clients)
    {
      if user !in clients {
        clients := clients[user := {}];
      }
      clients := clients[user := clients[user] + {ch}];
    }

    method RemoveClient(user: string, ch: nat)
      modifies this`clients
      ensures clients == Removed(old(clients), user, ch)
      ensures old(NoEmptySet(clients)) ==> NoEmptySet(clients)
    {
      if user in clients {
        clients := clients[user := clients[user] - {ch}];
        if clients[user] == {} {
          clients := clients - {user};
        }
      }
    }

    /** Every registered channel of the user that has room gets the message; nothing else changes. */
    method Broadcast(user: string, msg: Message)
      requires Of(clients, user) <= buffers.Keys
      modifies this`buffers
      ensures buffers.Keys == old(buffers.Keys)
      ensures forall ch :: ch in buffers ==>
                buffers[ch] == if ch in Of(clients, user) && old(buffers)[ch] == [] then [msg] else old(buffers)[ch]
    {
      var todo := if user in clients then clients[user] else {};
      while todo != {}
        invariant todo <= Of(clients, user) <= buffers.Keys == old(buffers.Keys)
        invariant forall ch :: ch in buffers ==>
                    buffers[ch] ==
                      if ch in Of(clients, user) - todo && old(buffers)[ch] == [] then [msg] else old(buffers)[ch]
        decreases todo
      {
        var ch :| ch in todo;
        if buffers[ch] == [] {
          buffers := buffers[ch := [msg]];
        }
        todo := todo - {ch};
      }
    }
  }

  // ---------------------------------------------------------------------
  // All connections and broadcasts together

  datatype Phase = Opened | Registered | Unregistered | Closed

  datatype Connection = Connection(user: string, phase: Phase, buffer: seq<Message>, received: seq<Message>)

  /** A broadcast holding the read lock: the channels still to visit, and those offered the message. */
  datatype Broadcast = Broadcast(msg: Message, todo: set<nat>, offered: multiset<nat>)

  datatype Service = Service(
    clients: Clients,
    connections: map<nat, Connection>,
    broadcasts: map<nat, Broadcast>,
    panicked: bool)

  datatype Action =
    | Open(ch: nat, user: string)
    | Register(ch: nat)
    | Unregister(ch: nat)
    | Close(ch: nat)
    | Receive(ch: nat)
    | Begin(b: nat, msg: Message)
    | Offer(b: nat, ch: nat)
    | End(b: nat)

  predicate Init(s: Service) {
    s == Service(map[], map[], map[], false)
  }

  function Set(s: Service, ch: nat, c: Connection): Service {
    s.(connections := s.connections[ch := c])
  }

  ghost predicate ConnectionStep(s: Service, a: Action, c: Connection, t: Service) {
    match a
    case Register(ch) =>
      && c.phase == Opened && s.broadcasts == map[]
      && t == Set(s, ch, c.(phase := Registered)).(clients := Added(s.clients, c.user, ch))
    case Unregister(ch) =>
      && c.phase == Registered && s.broadcasts == map[]
      && t == Set(s, ch, c.(phase := Unregistered)).(clients := Removed(s.clients, c.user, ch))
    case Close(ch) => c.phase == Unregistered && t == Set(s, ch, c.(phase := Closed))
    case Receive(ch) =>
      && c.phase == Registered && c.buffer != []
      && t == Set(s, ch, c.(buffer := c.buffer[1..], received := c.received + [c.buffer[0]]))
    case Open(_, _) => false
    case Begin(_, _) => false
    case Offer(_, _) => false
    case End(_) => false
  }

  ghost predicate OfferStep(s: Service, b: nat, ch: nat, t: Service) {
    && b in s.broadcasts
    && ch in s.broadcasts[b].todo
    && var br := s.broadcasts[b];
       var visited := s.(broadcasts :=
                         s.broadcasts[b := br.(todo := br.todo - {ch}, offered := br.offered + multiset{ch})]);
       if ch !in s.connections || s.connections[ch].phase == Closed then t == visited.(panicked := true)
       else if s.connections[ch].buffer == [] then t == Set(visited, ch, s.connections[ch].(buffer := [br.msg]))
       else t == visited
  }

  ghost predicate Step(s: Service, a: Action, t: Service) {
    match a
    case Open(ch, user) =>
      ch !in s.connections && t == Set(s, ch, Connection(user, Opened, [], []))
    case Begin(b, msg) =>
      && b !in s.broadcasts
      && t == s.(broadcasts := s.broadcasts[b := Broadcast(msg, Of(s.clients, msg.user), multiset{})])
    case Offer(b, ch) => OfferStep(s, b, ch, t)
    case End(b) =>
      b in s.broadcasts && s.broadcasts[b].todo == {} && t == s.(broadcasts := s.broadcasts - {b})
    case Register(ch) => ch in s.connections && ConnectionStep(s, a, s.connections[ch], t)
    case Unregister(ch) => ch in s.connections && ConnectionStep(s, a, s.connections[ch], t)
    case Close(ch) => ch in s.connections && ConnectionStep(s, a, s.connections[ch], t)
    case Receive(ch) => ch in s.connections && ConnectionStep(s, a, s.connections[ch], t)
  }

  ghost predicate StepAt(states: seq<Service>, actions: seq<Action>, i: nat)
    requires i + 1 < |states| && i < |actions|
  {
    Step(states[i], actions[i], states[i + 1])
  }

  ghost predicate IsRun(states: seq<Service>, actions: seq<Action>) {
    && |states| == |actions| + 1
    && Init(states[0])
    && forall i :: 0 <= i < |actions| ==> StepAt(states, actions, i)
  }

  // ---------------------------------------------------------------------
  // The invariant

  ghost predicate IsRegistered(s: Service, user: string, ch: nat) {
    ch in s.connections && s.connections[ch].user == user && s.connections[ch].phase == Registered
  }

  ghost predicate ConnectionSound(c: Connection) {
    && |c.buffer| <= 1
    && (forall k :: 0 <= k < |c.buffer| ==> c.buffer[k].user == c.user)
    && (forall k :: 0 <= k < |c.received| ==> c.received[k].user == c.user)
  }

  ghost predicate BroadcastSound(s: Service, br: Broadcast) {
    br.offered + multiset(br.todo) == multiset(Of(s.clients, br.msg.user))
  }

  ghost predicate RegistrySound(s: Service) {
    && NoEmptySet(s.clients)
    && forall u, ch :: ch in Of(s.clients, u) <==> IsRegistered(s, u, ch)
  }

  ghost predicate Inv(s: Service) {
    && RegistrySound(s)
    && (forall ch :: ch in s.connections ==> ConnectionSound(s.connections[ch]))
    && (forall b :: b in s.broadcasts ==> BroadcastSound(s, s.broadcasts[b]))
    && !s.panicked
  }

  lemma ConnectionKeeps(s: Service, a: Action, ch: nat, t: Service)
    requires Inv(s) && ch in s.connections
    requires a == Register(ch) || a == Unregister(ch) || a == Close(ch) || a == Receive(ch)
    requires ConnectionStep(s, a, s.connections[ch], t)
    ensures Inv(t)
  {
    var user := s.connections[ch].user;
    forall u, c ensures c in Of(t.clients, u) <==> IsRegistered(t, u, c) {
      assert c in Of(s.clients, u) <==> IsRegistered(s, u, c);
    }
    forall b | b in t.broadcasts ensures BroadcastSound(t, t.broadcasts[b]) {
      assert BroadcastSound(s, s.broadcasts[b]);
    }
  }

  /** A channel that a broadcast is about to visit is registered for the message's user. */
  lemma TodoIsRegistered(s: Service, b: nat, ch: nat)
    requires Inv(s) && b in s.broadcasts && ch in s.broadcasts[b].todo
    ensures IsRegistered(s, s.broadcasts[b].msg.user, ch)
  {
    assert BroadcastSound(s, s.broadcasts[b]);
    assert ch in multiset(s.broadcasts[b].todo);
    assert ch in multiset(Of(s.clients, s.broadcasts[b].msg.user));
  }

  lemma OfferKeeps(s: Service, b: nat, ch: nat, t: Service)
    requires Inv(s) && OfferStep(s, b, ch, t)
    ensures Inv(t)
  {
    TodoIsRegistered(s, b, ch);
    var br := s.broadcasts[b];
    assert BroadcastSound(s, br);
    assert multiset(br.todo) == multiset(br.todo - {ch}) + multiset{ch};
    forall u, c ensures c in Of(t.clients, u) <==> IsRegistered(t, u, c) {
      assert c in Of(s.clients, u) <==> IsRegistered(s, u, c);
    }
    forall d | d in t.broadcasts ensures BroadcastSound(t, t.broadcasts[d]) {
      assert BroadcastSound(s, s.broadcasts[d]);
    }
  }

  lemma StepKeeps(s: Service, a: Action, t: Service)
    requires Inv(s) && Step(s, a, t)
    ensures Inv(t)
  {
    match a
    case Register(ch) => ConnectionKeeps(s, a, ch, t);
    case Unregister(ch) => ConnectionKeeps(s, a, ch, t);
    case Close(ch) => ConnectionKeeps(s, a, ch, t);
    case Receive(ch) => ConnectionKeeps(s, a, ch, t);
    case Offer(b, ch) => OfferKeeps(s, b, ch, t);
    case Open(_, _) | Begin(_, _) | End(_) =>
      forall u, c ensures c in Of(t.clients, u) <==> IsRegistered(t, u, c) {
        assert c in Of(s.clients, u) <==> IsRegistered(s, u, c);
      }
      forall b | b in t.broadcasts && b in s.broadcasts ensures BroadcastSound(t, t.broadcasts[b]) {
        assert BroadcastSound(s, s.broadcasts[b]);
      }
  }

  lemma {:induction false} RunInv(states: seq<Service>, actions: seq<Action>, i: nat)
    requires IsRun(states, actions) && i <= |actions|
    ensures Inv(states[i])
  {
    if i == 0 {
    } else {
      RunInv(states, actions, i - 1);
      assert StepAt(states, actions, i - 1);
      StepKeeps(states[i - 1], actions[i - 1], states[i]);
    }
  }

  /** A registered channel is open, so no broadcast ever sends on a closed one; no user keeps an empty set. */
  lemma NeverSendsOnClosed(states: seq<Service>, actions: seq<Action>, i: nat)
    requires IsRun(states, actions) && i <= |actions|
    ensures !states[i].panicked
    ensures NoEmptySet(states[i].clients)
    ensures forall u, ch :: ch in Of(states[i].clients, u) ==>
              ch in states[i].connections && states[i].connections[ch].phase != Closed
  {
    RunInv(states, actions, i);
    forall u, ch | ch in Of(states[i].clients, u) ensures IsRegistered(states[i], u, ch) {
    }
  }

  /** What a connection has received, or is about to, was broadcast for its own user. */
  lemma OnlyOwnMessages(states: seq<Service>, actions: seq<Action>, i: nat, ch: nat, msg: Message)
    requires IsRun(states, actions) && i <= |actions|
    requires ch in states[i].connections
    requires msg in states[i].connections[ch].received || msg in states[i].connections[ch].buffer
    ensures msg.user == states[i].connections[ch].user
  {
    RunInv(states, actions, i);
    assert ConnectionSound(states[i].connections[ch]);
  }

  /** An offer to a channel with room leaves the message there; to a full one it changes nothing, and no
      other connection is touched either way. */
  lemma OfferFills(states: seq<Service>, actions: seq<Action>, i: nat, b: nat, ch: nat)
    requires IsRun(states, actions) && i < |actions| && actions[i] == Offer(b, ch)
    ensures b in states[i].broadcasts && ch in states[i].connections && ch in states[i + 1].connections
    ensures var before, after := states[i].connections[ch], states[i + 1].connections[ch];
      after.buffer == if before.buffer == [] then [states[i].broadcasts[b].msg] else before.buffer
    ensures forall c | c in states[i].connections && c != ch ::
      c in states[i + 1].connections && states[i + 1].connections[c] == states[i].connections[c]
  {
    RunInv(states, actions, i);
    assert StepAt(states, actions, i);
    TodoIsRegistered(states[i], b, ch);
  }

  /** A receive hands the connection what its channel held, in order, and empties it. */
  lemma ReceiveDelivers(states: seq<Service>, actions: seq<Action>, i: nat, ch: nat)
    requires IsRun(states, actions) && i < |actions| && actions[i] == Receive(ch)
    ensures ch in states[i].connections && ch in states[i + 1].connections
    ensures var before, after := states[i].connections[ch], states[i + 1].connections[ch];
      after.received == before.received + before.buffer && after.buffer == [] && before.buffer != []
  {
    RunInv(states, actions, i);
    assert StepAt(states, actions, i);
    assert ConnectionSound(states[i].connections[ch]);
  }

  /** A broadcast that finishes offered its message once to each channel of the user, and to no other. */
  lemma EachChannelOfferedOnce(states: seq<Service>, actions: seq<Action>, i: nat, b: nat)
    requires IsRun(states, actions) && i < |actions| && actions[i] == End(b)
    ensures b in states[i].broadcasts
    ensures states[i].broadcasts[b].offered == multiset(Of(states[i].clients, states[i].broadcasts[b].msg.user))
  {
    RunInv(states, actions, i);
    assert StepAt(states, actions, i);
    assert BroadcastSound(states[i], states[i].broadcasts[b]);
  }
}
