/** The in-process message bus: the broker (src/AgentSystem/Core/A2ACommunication.cs)
    and the agent runtime (src/AgentSystem/Core/Agent.cs). Both are modelled
    sequentially: one iteration of the broker's dispatch loop and one iteration
    of an agent's processing loop are ordinary methods. */
module Bus {
  import opened Util
  import opened Messages

  /** The receiver id that means "every registered agent except the sender". */
  const BroadcastId: string := "*"

  const NoBrokerText: string := "No se ha establecido un sistema de comunicación para el agente."

  function DuplicateIdText(id: string): string
  {
    "Ya existe un agente registrado con el ID " + id
  }

  /** Whether a dispatched message with this receiver and sender ends up in the
      inbox of the registered agent `agentId`: DeliverMessage's broadcast and
      unicast branches, followed by ReceiveMessage's own address check. */
  predicate Addressed(receiver: string, sender: string, agentId: string)
  {
    if receiver == BroadcastId then agentId != sender else agentId == receiver
  }

  // ---------------------------------------------------------------------------
  // The broker's dispatch thread

  datatype ThreadState = Unstarted | Alive | Finished

  /** `_isRunning` together with the state of the dispatch thread. */
  datatype Dispatcher = Dispatcher(isRunning: bool, thread: ThreadState) {

    /** Messages are dispatched only while the flag is set and a thread runs the loop. */
    predicate Dispatching()
    {
      isRunning && thread == Alive
    }

    /** Start as written: the one `Thread` object made by the constructor is
        started; a second Start after a Stop throws ThreadStateException, and by
        then `_isRunning` has already been set. */
    function StartAsWritten(): (r: (Dispatcher, Outcome))
    {
      if isRunning then (this, Pass)
      else if thread == Unstarted then (Dispatcher(true, Alive), Pass)
      else (Dispatcher(true, thread), Fail(ThreadState))
    }

    /** Start, corrected: a stopped broker gets a new dispatch thread. */
    function Start(): (r: Dispatcher)
      ensures r.isRunning
      ensures !isRunning ==> r.Dispatching()
      ensures isRunning ==> r == this
    {
      if isRunning then this else Dispatcher(true, Alive)
    }

    /** Stop: clear the flag and join the thread, which then leaves its loop. */
    function Stop(): (r: Dispatcher)
      ensures !r.isRunning && !r.Dispatching()
      ensures !isRunning ==> r == this
    {
      if !isRunning then this else Dispatcher(false, Finished)
    }
  }

  const NewDispatcher: Dispatcher := Dispatcher(false, Unstarted)

  /** As written, a broker that was started and stopped cannot be started again:
      the restart throws and leaves the running flag set with no thread behind it. */
  lemma RestartAsWrittenFails()
    ensures var (started, _) := NewDispatcher.StartAsWritten();
            var (restarted, outcome) := started.Stop().StartAsWritten();
            outcome == Fail(ThreadState) && restarted.isRunning && !restarted.Dispatching()
  {
  }

  /** Corrected, every Start, first or later, leaves the broker dispatching, and
      from a state reached by Start and Stop alone, dispatching is exactly the flag. */
  lemma {:induction false} RestartDispatches(ops: seq<bool>)
    ensures var e := Replay(NewDispatcher, ops); e.Dispatching() <==> e.isRunning
    ensures ops != [] && ops[|ops| - 1] ==> Replay(NewDispatcher, ops).Dispatching()
  {
    if ops != [] {
      RestartDispatches(ops[..|ops| - 1]);
    }
  }

  /** Applies Start (true) and Stop (false) in order. */
  function Replay(d: Dispatcher, ops: seq<bool>): Dispatcher
  {
    if ops == [] then d
    else var e := Replay(d, ops[..|ops| - 1]); if ops[|ops| - 1] then e.Start() else e.Stop()
  }

  // ---------------------------------------------------------------------------
  // Agents

  /** A call of one of the two abstract hooks a concrete agent supplies. */
  datatype Hook = Handle(m: Message) | Periodic

  class Agent {
    const id: string
    var name: string
    var description: string
    var isRunning: bool
    var inbox: seq<Message>        // IncomingMessages
    var processed: seq<Message>    // ProcessedMessages
    var comm: Broker?              // CommunicationSystem
    /** The processing task ended with an exception that PeriodicBehavior let through. */
    var faulted: bool
    /** The calls of ProcessMessage and PeriodicBehavior, in the order they were made. */
    ghost var hooks: seq<Hook>

    constructor (id: string, name: string, description: string)
      ensures this.id == id && this.name == name && this.description == description
      ensures inbox == [] && processed == [] && !isRunning && comm == null
      ensures !faulted && hooks == []
    {
      this.id, this.name, this.description := id, name, description;
      inbox, processed, isRunning, comm := [], [], false, null;
      faulted, hooks := false, [];
    }

    method SetCommunicationSystem(b: Broker?)
      modifies this`comm
      ensures comm == b
    {
      comm := b;
    }

    /** The processing loop is iterating: started, and not ended by a fault. */
    predicate Active()
      reads this
    {
      isRunning && !faulted
    }

    method Start() returns (r: Outcome)
      modifies this`isRunning, this`faulted
      ensures old(isRunning) ==> r == Pass && isRunning && faulted == old(faulted)
      ensures !old(isRunning) && comm == null ==>
                r == Fail(InvalidOperation(NoBrokerText)) && !isRunning && faulted == old(faulted)
      ensures !old(isRunning) && comm != null ==> r == Pass && isRunning && !faulted
    {
      if isRunning {
        return Pass;
      }
      if comm == null {
        return Fail(InvalidOperation(NoBrokerText));
      }
      isRunning := true;
      // a new processing task is started; it has not failed
      faulted := false;
      r := Pass;
    }

    /** The flag is cleared before the processing Task is awaited, so it is cleared even when
        awaiting a faulted task throws. */
    method Stop() returns (r: Outcome)
      modifies this`isRunning
      ensures !isRunning
      ensures r == (if old(isRunning) && faulted then Fail(Aggregate) else Pass)
    {
      if !isRunning {
        return Pass;
      }
      isRunning := false;
      if faulted {
        return Fail(Aggregate);
      }
      r := Pass;
    }

    /** Keeps only messages addressed to this agent, or to everyone. It does not
        look at isRunning: a stopped agent keeps collecting. */
    method ReceiveMessage(m: Message)
      modifies this`inbox
      ensures inbox == old(inbox) + (if m.receiver == id || m.receiver == BroadcastId then [m] else [])
    {
      if m.receiver != id && m.receiver != BroadcastId {
        return;
      }
      inbox := inbox + [m];
    }

    method SendMessage(m: Message) returns (r: Outcome)
      modifies m`sender, (if comm == null then {} else {comm})`queue
      ensures comm == null ==> r == Fail(InvalidOperation(NoBrokerText)) && m.sender == old(m.sender)
      ensures comm != null ==> r == Pass && m.sender == id && comm.queue == old(comm.queue) + [m]
    {
      if comm == null {
        return Fail(InvalidOperation(NoBrokerText));
      }
      m.sender := id;
      r := comm.SendMessage(m);
    }

    /** One iteration of ProcessingLoop. The handler's and the periodic hook's own
        effects belong to the concrete agent; here only whether each of them
        throws is given. */
    method Step(handlerThrows: bool, periodicThrows: bool) returns (popped: Message?)
      modifies this`inbox, this`processed, this`faulted, this`hooks
      modifies (if inbox == [] then {} else {inbox[0]})`isProcessed
      ensures !old(Active()) ==> popped == null && inbox == old(inbox) && processed == old(processed)
                                 && faulted == old(faulted) && hooks == old(hooks)
      ensures old(Active()) && old(inbox) == [] ==>
                popped == null && inbox == [] && processed == old(processed)
                && hooks == old(hooks) + [Periodic] && faulted == periodicThrows
      ensures old(Active()) && old(inbox) != [] ==>
                popped == old(inbox[0]) && inbox == old(inbox[1..])
                && hooks == old(hooks) + [Handle(popped), Periodic] && faulted == periodicThrows
      ensures old(Active()) && old(inbox) != [] && !handlerThrows ==>
                popped.isProcessed && processed == old(processed) + [popped]
      ensures old(Active()) && old(inbox) != [] && handlerThrows ==>
                popped.isProcessed == old(inbox[0].isProcessed) && processed == old(processed)
    {
      if !Active() {
        return null;
      }
      var message: Message? := null;
      if |inbox| > 0 {
        message := inbox[0];
        inbox := inbox[1..];
      }
      if message != null {
        hooks := hooks + [Handle(message)];
        // only the handler is inside try/catch; a throw is swallowed
        if !handlerThrows {
          message.isProcessed := true;
          processed := processed + [message];
        }
      }
      hooks := hooks + [Periodic];
      // PeriodicBehavior is outside try/catch: a throw ends the processing task
      if periodicThrows {
        faulted := true;
      }
      popped := message;
    }
  }

  /** `sent` are the messages the agent put on its broker's queue since it was
      `before`, in order, each signed with the agent's id. */
  ghost predicate Posted(agent: Agent, before: seq<Message>, sent: seq<Message>)
    reads agent, agent.comm, sent
    requires agent.comm != null
  {
    agent.comm.queue == before + sent && forall i :: 0 <= i < |sent| ==> sent[i].sender == agent.id
  }

  // ---------------------------------------------------------------------------
  // The broker

  class Broker {
    var registry: map<string, Agent>   // _registeredAgents
    var queue: seq<Message>            // _messageQueue
    var dispatcher: Dispatcher         // _isRunning and _dispatchThread

    /** Every agent is registered under its own id. */
    ghost predicate Valid()
      reads this
    {
      forall k :: k in registry ==> registry[k].id == k
    }

    constructor ()
      ensures Valid() && registry == map[] && queue == [] && dispatcher == NewDispatcher
    {
      registry, queue, dispatcher := map[], [], NewDispatcher;
    }

    method Start()
      modifies this`dispatcher
      ensures dispatcher == old(dispatcher).Start()
    {
      dispatcher := dispatcher.Start();
    }

    /** Start as written: may throw ThreadStateException on a restart. */
    method StartAsWritten() returns (r: Outcome)
      modifies this`dispatcher
      ensures (dispatcher, r) == old(dispatcher).StartAsWritten()
    {
      var (d, o) := dispatcher.StartAsWritten();
      dispatcher, r := d, o;
    }

    method Stop()
      modifies this`dispatcher
      ensures dispatcher == old(dispatcher).Stop()
    {
      dispatcher := dispatcher.Stop();
    }

    method RegisterAgent(agent: Agent?) returns (r: Outcome)
      requires Valid()
      modifies this`registry, (if agent == null then {} else {agent})`comm
      ensures Valid()
      ensures agent == null ==> r == Fail(ArgumentNull("agent")) && registry == old(registry)
      ensures agent != null && agent.id in old(registry) ==>
                r == Fail(InvalidOperation(DuplicateIdText(agent.id)))
                && registry == old(registry) && agent.comm == old(agent.comm)
      ensures agent != null && agent.id !in old(registry) ==>
                r == Pass && registry == old(registry)[agent.id := agent] && agent.comm == this
    {
      if agent == null {
        return Fail(ArgumentNull("agent"));
      }
      if agent.id in registry {
        return Fail(InvalidOperation(DuplicateIdText(agent.id)));
      }
      registry := registry[agent.id := agent];
      agent.SetCommunicationSystem(this);
      r := Pass;
    }

    /** Removes the id if present; the agent itself is not stopped. */
    method UnregisterAgent(agentId: string)
      requires Valid()
      modifies this`registry
      ensures Valid()
      ensures registry == old(registry) - {agentId}
    {
      if agentId in registry {
        registry := registry - {agentId};
      }
    }

    method SendMessage(m: Message?) returns (r: Outcome)
      modifies this`queue
      ensures m == null ==> r == Fail(ArgumentNull("message")) && queue == old(queue)
      ensures m != null ==> r == Pass && queue == old(queue) + [m]
    {
      if m == null {
        return Fail(ArgumentNull("message"));
      }
      queue := queue + [m];
      r := Pass;
    }

    /** One iteration of DispatchMessages: the head of the queue, if any, is taken
        off and delivered. */
    method DispatchStep() returns (delivered: Message?)
      requires Valid()
      modifies this`queue, registry.Values`inbox
      ensures !old(dispatcher.Dispatching()) || old(queue) == [] ==>
                delivered == null && queue == old(queue)
                && forall k :: k in registry ==> registry[k].inbox == old(registry[k].inbox)
      ensures old(dispatcher.Dispatching()) && old(queue) != [] ==>
                delivered == old(queue[0]) && queue == old(queue[1..])
                && forall k :: k in registry ==>
                     registry[k].inbox == old(registry[k].inbox)
                                          + (if Addressed(delivered.receiver, delivered.sender, k) then [delivered] else [])
    {
      if !dispatcher.Dispatching() || |queue| == 0 {
        return null;
      }
      delivered := queue[0];
      queue := queue[1..];
      DeliverMessage(delivered);
    }

    method DeliverMessage(m: Message)
      requires Valid()
      modifies registry.Values`inbox
      ensures forall k :: k in registry ==>
                registry[k].inbox == old(registry[k].inbox) + (if Addressed(m.receiver, m.sender, k) then [m] else [])
      // a broadcast reaches every registered agent but its sender, the same object each time
      ensures m.receiver == BroadcastId ==>
                forall k :: k in registry ==>
                  registry[k].inbox == old(registry[k].inbox) + (if k != m.sender then [m] else [])
      // a unicast reaches the named agent, if registered, and no other
      ensures m.receiver != BroadcastId ==>
                forall k :: k in registry ==>
                  registry[k].inbox == old(registry[k].inbox) + (if k == m.receiver then [m] else [])
    {
      if m.receiver == BroadcastId {
        var remaining := registry.Keys;
        while remaining != {}
          invariant remaining <= registry.Keys
          invariant forall k :: k in registry ==>
                      registry[k].inbox == old(registry[k].inbox)
                                           + (if k !in remaining && k != m.sender then [m] else [])
          decreases remaining
        {
          var k :| k in remaining;
          var agent := registry[k];
          if agent.id != m.sender {
            agent.ReceiveMessage(m);
          }
          remaining := remaining - {k};
        }
      } else if m.receiver in registry {
        registry[m.receiver].ReceiveMessage(m);
      }
      // otherwise the receiver is not registered: the message is dropped
    }

    function GetAgent(agentId: string): (r: Agent?)
      reads this
      ensures r != null <==> agentId in registry
      ensures r != null ==> r == registry[agentId]
    {
      if agentId in registry then registry[agentId] else null
    }

    /** `_registeredAgents.Values.ToList()`: each registered agent once, in
        the dictionary's enumeration order (left open here). */
    method GetAllAgents() returns (agents: seq<Agent>)
      requires Valid()
      ensures |agents| == |registry|
      ensures forall k :: k in registry ==> registry[k] in agents
      ensures forall i :: 0 <= i < |agents| ==> agents[i] in registry.Values
      ensures forall i, j :: 0 <= i < j < |agents| ==> agents[i] != agents[j]
    {
      var keys := Enumerate(registry.Keys);
      var reg := registry;
      agents := seq(|keys|, i requires 0 <= i < |keys| && keys[i] in reg => reg[keys[i]]);
      // each agent is registered under its own id, so distinct keys give distinct agents
      assert forall i :: 0 <= i < |agents| ==> agents[i].id == keys[i];
      forall k | k in registry
        ensures registry[k] in agents
      {
        var i :| 0 <= i < |keys| && keys[i] == k;
        assert agents[i] == registry[k];
      }
    }
  }

  /** A dictionary's keys in some enumeration order: each key exactly once. */
  method Enumerate(keys: set<string>) returns (order: seq<string>)
    ensures |order| == |keys|
    ensures forall i :: 0 <= i < |order| ==> order[i] in keys
    ensures forall k :: k in keys ==> k in order
    ensures forall i, j :: 0 <= i < j < |order| ==> order[i] != order[j]
  {
    order := [];
    var remaining := keys;
    while remaining != {}
      invariant remaining <= keys
      invariant forall i :: 0 <= i < |order| ==> order[i] in keys && order[i] !in remaining
      invariant forall k :: k in keys ==> k in order || k in remaining
      invariant |order| + |remaining| == |keys|
      invariant forall i, j :: 0 <= i < j < |order| ==> order[i] != order[j]
      decreases remaining
    {
      var k :| k in remaining;
      order := order + [k];
      remaining := remaining - {k};
    }
  }
}
