/** The supervisor (src/AgentSystem/Core/AgentManager.cs): owns one broker and
    the agents it manages, and orders their startup and shutdown. */
module Supervisor {
  import opened Util
  import opened Messages
  import opened Bus

  /** A lifecycle call the manager makes, recorded in the order it makes them. */
  datatype Call = BrokerStart | AgentStart(agentId: string) | AgentStop(agentId: string) | BrokerStop

  function StartCalls(order: seq<string>): (r: seq<Call>)
    ensures |r| == |order| && forall i :: 0 <= i < |order| ==> r[i] == AgentStart(order[i])
  {
    seq(|order|, i requires 0 <= i < |order| => AgentStart(order[i]))
  }

  function StopCalls(order: seq<string>): (r: seq<Call>)
    ensures |r| == |order| && forall i :: 0 <= i < |order| ==> r[i] == AgentStop(order[i])
  {
    seq(|order|, i requires 0 <= i < |order| => AgentStop(order[i]))
  }

  ghost predicate Distinct(order: seq<string>)
  {
    forall i, j :: 0 <= i < j < |order| ==> order[i] != order[j]
  }

  class AgentManager {
    const broker: Broker                // _communicationSystem
    var managed: map<string, Agent>     // _managedAgents
    ghost var calls: seq<Call>

    /** The broker's registry is exactly the managed set. */
    ghost predicate Valid()
      reads this, broker
    {
      broker.registry == managed && broker.Valid()
    }

    constructor ()
      ensures Valid() && fresh(broker) && managed == map[] && calls == []
      ensures broker.queue == [] && broker.dispatcher == NewDispatcher
    {
      broker := new Broker();
      managed := map[];
      calls := [];
    }

    /** The broker first, then every managed agent, each once, in the order
        `order`; the first agent that throws ends the loop, and the remaining
        agents are not started. */
    method Start() returns (r: Outcome, ghost order: seq<string>)
      requires Valid()
      modifies broker`dispatcher, managed.Values`isRunning, managed.Values`faulted, this`calls
      ensures Valid()
      ensures broker.dispatcher == old(broker.dispatcher).Start()
      // a manager whose broker was stopped, after a start or not, dispatches again
      ensures !old(broker.dispatcher).isRunning ==> broker.dispatcher.Dispatching()
      ensures calls == old(calls) + [BrokerStart] + StartCalls(order)
      ensures Distinct(order) && forall i :: 0 <= i < |order| ==> order[i] in managed
      ensures r.Pass? ==> |order| == |managed| && forall k :: k in managed ==> managed[k].isRunning
      ensures r.Fail? ==> r == Fail(InvalidOperation(NoBrokerText)) && order != []
                          && managed[order[|order| - 1]].comm == null && !managed[order[|order| - 1]].isRunning
    {
      broker.Start();
      calls := calls + [BrokerStart];
      r, order := StartAgents();
    }

    /** Start on the broker as written: when the broker's Start throws (a
        restart, see Bus.RestartAsWrittenFails), the exception leaves Start
        before the loop, so no agent is started. */
    method StartAsWritten() returns (r: Outcome, ghost order: seq<string>)
      requires Valid()
      modifies broker`dispatcher, managed.Values`isRunning, managed.Values`faulted, this`calls
      ensures Valid()
      ensures broker.dispatcher == old(broker.dispatcher).StartAsWritten().0
      ensures calls == old(calls) + [BrokerStart] + StartCalls(order)
      ensures Distinct(order) && forall i :: 0 <= i < |order| ==> order[i] in managed
      ensures old(broker.dispatcher).StartAsWritten().1.Fail? ==>
                r == Fail(ThreadState) && order == []
                && forall k :: k in managed ==> managed[k].isRunning == old(managed[k].isRunning)
      ensures old(broker.dispatcher).StartAsWritten().1.Pass? && r.Pass? ==>
                |order| == |managed| && forall k :: k in managed ==> managed[k].isRunning
      ensures old(broker.dispatcher).StartAsWritten().1.Pass? && r.Fail? ==>
                r == Fail(InvalidOperation(NoBrokerText)) && order != []
                && managed[order[|order| - 1]].comm == null && !managed[order[|order| - 1]].isRunning
      // a manager whose broker was started and stopped cannot start its agents again
      ensures old(broker.dispatcher) == NewDispatcher.Start().Stop() ==> r == Fail(ThreadState) && order == []
    {
      r := broker.StartAsWritten();
      calls := calls + [BrokerStart];
      if r.Fail? {
        order := [];
        return;
      }
      r, order := StartAgents();
    }

    /** The loop of Start: every managed agent, each once, until one throws. */
    method StartAgents() returns (r: Outcome, ghost order: seq<string>)
      modifies managed.Values`isRunning, managed.Values`faulted, this`calls
      ensures calls == old(calls) + StartCalls(order)
      ensures Distinct(order) && forall i :: 0 <= i < |order| ==> order[i] in managed
      ensures r.Pass? ==> |order| == |managed| && forall k :: k in managed ==> managed[k].isRunning
      ensures r.Fail? ==> r == Fail(InvalidOperation(NoBrokerText)) && order != []
                          && managed[order[|order| - 1]].comm == null && !managed[order[|order| - 1]].isRunning
    {
      var keys := Enumerate(managed.Keys);
      var n;
      r, n := StartInOrder(keys);
      order := keys[..n];
      if r.Pass? {
        assert order == keys;
      }
    }

    /** Starts the agents under `keys`, in that order, until one throws; `n` of them were called. */
    method StartInOrder(keys: seq<string>) returns (r: Outcome, n: nat)
      requires forall j :: 0 <= j < |keys| ==> keys[j] in managed
      modifies managed.Values`isRunning, managed.Values`faulted, this`calls
      ensures n <= |keys| && calls == old(calls) + StartCalls(keys[..n])
      ensures r.Pass? ==> n == |keys| && forall j :: 0 <= j < |keys| ==> managed[keys[j]].isRunning
      ensures r.Fail? ==> 0 < n && r == Fail(InvalidOperation(NoBrokerText)) && managed[keys[n - 1]].comm == null && !managed[keys[n - 1]].isRunning
    {
      r := Pass;
      n := 0;
      while n < |keys|
        invariant 0 <= n <= |keys|
        invariant calls == old(calls) + StartCalls(keys[..n])
        invariant forall j :: 0 <= j < n ==> managed[keys[j]].isRunning
      {
        var agent := managed[keys[n]];
        r := agent.Start();
        calls := calls + [AgentStart(keys[n])];
        assert keys[..n + 1] == keys[..n] + [keys[n]];
        n := n + 1;
        if r.Fail? {
          return;
        }
      }
      r := Pass;
    }

    /** Every managed agent first, each once, in the order `order`, then the
        broker; the first agent whose Stop throws ends the loop, and neither the
        remaining agents nor the broker are stopped. */
    method Stop() returns (r: Outcome, ghost order: seq<string>)
      requires Valid()
      modifies broker`dispatcher, managed.Values`isRunning, this`calls
      ensures Valid()
      ensures Distinct(order) && forall i :: 0 <= i < |order| ==> order[i] in managed
      ensures r.Pass? ==> calls == old(calls) + StopCalls(order) + [BrokerStop]
                          && |order| == |managed| && (forall k :: k in managed ==> !managed[k].isRunning)
                          && broker.dispatcher == old(broker.dispatcher).Stop()
      ensures r.Fail? ==> r == Fail(Aggregate) && calls == old(calls) + StopCalls(order) && order != []
                          && managed[order[|order| - 1]].faulted
                          && broker.dispatcher == old(broker.dispatcher)
    {
      r, order := StopAgents();
      if r.Fail? {
        return;
      }
      broker.Stop();
      calls := calls + [BrokerStop];
    }

    /** The loop of Stop: every managed agent, each once, until one's Stop throws. */
    method StopAgents() returns (r: Outcome, ghost order: seq<string>)
      modifies managed.Values`isRunning, this`calls
      ensures calls == old(calls) + StopCalls(order)
      ensures Distinct(order) && forall i :: 0 <= i < |order| ==> order[i] in managed
      ensures r.Pass? ==> |order| == |managed| && forall k :: k in managed ==> !managed[k].isRunning
      ensures r.Fail? ==> r == Fail(Aggregate) && order != [] && managed[order[|order| - 1]].faulted
    {
      var keys := Enumerate(managed.Keys);
      var n;
      r, n := StopInOrder(keys);
      order := keys[..n];
      if r.Pass? {
        assert order == keys;
      }
    }

    /** Stops the agents under `keys`, in that order, until one throws; `n` of them were called. */
    method StopInOrder(keys: seq<string>) returns (r: Outcome, n: nat)
      requires forall j :: 0 <= j < |keys| ==> keys[j] in managed
      modifies managed.Values`isRunning, this`calls
      ensures n <= |keys| && calls == old(calls) + StopCalls(keys[..n])
      ensures r.Pass? ==> n == |keys| && forall j :: 0 <= j < |keys| ==> !managed[keys[j]].isRunning
      ensures r.Fail? ==> 0 < n && r == Fail(Aggregate) && managed[keys[n - 1]].faulted
    {
      r := Pass;
      n := 0;
      while n < |keys|
        invariant 0 <= n <= |keys|
        invariant calls == old(calls) + StopCalls(keys[..n])
        invariant forall j :: 0 <= j < n ==> !managed[keys[j]].isRunning
      {
        var agent := managed[keys[n]];
        r := agent.Stop();
        calls := calls + [AgentStop(keys[n])];
        assert keys[..n + 1] == keys[..n] + [keys[n]];
        n := n + 1;
        if r.Fail? {
          return;
        }
      }
      r := Pass;
    }

    /** Rejects null and an id already managed; otherwise the agent joins the
        managed set and the broker's registry, and is bound to the broker. */
    method RegisterAgent(agent: Agent?) returns (r: Outcome)
      requires Valid()
      modifies this`managed, broker`registry, (if agent == null then {} else {agent})`comm
      ensures Valid()
      ensures agent == null ==> r == Fail(ArgumentNull("agent")) && managed == old(managed)
      ensures agent != null && agent.id in old(managed) ==>
                r == Fail(InvalidOperation(DuplicateIdText(agent.id)))
                && managed == old(managed) && agent.comm == old(agent.comm)
      ensures agent != null && agent.id !in old(managed) ==>
                r == Pass && managed == old(managed)[agent.id := agent] && agent.comm == broker
    {
      if agent == null {
        return Fail(ArgumentNull("agent"));
      }
      if agent.id in managed {
        return Fail(InvalidOperation(DuplicateIdText(agent.id)));
      }
      managed := managed[agent.id := agent];
      r := broker.RegisterAgent(agent);
    }

    /** A managed agent is stopped, then removed from the broker and from the
        managed set; if its Stop throws, it stays in both. An unknown id is a no-op. */
    method UnregisterAgent(agentId: string) returns (r: Outcome)
      requires Valid()
      modifies this`managed, broker`registry, this`calls
      modifies (if agentId in managed then {managed[agentId]} else {})`isRunning
      ensures Valid()
      ensures agentId !in old(managed) ==> r == Pass && managed == old(managed) && calls == old(calls)
      ensures agentId in old(managed) ==>
                calls == old(calls) + [AgentStop(agentId)] && !old(managed[agentId]).isRunning
                && r == (if old(managed[agentId].isRunning && managed[agentId].faulted) then Fail(Aggregate) else Pass)
      ensures agentId in old(managed) && r.Pass? ==> managed == old(managed) - {agentId}
      ensures r.Fail? ==> managed == old(managed)
    {
      if agentId in managed {
        var agent := managed[agentId];
        r := agent.Stop();
        calls := calls + [AgentStop(agentId)];
        if r.Fail? {
          return;
        }
        broker.UnregisterAgent(agentId);
        managed := managed - {agentId};
      } else {
        r := Pass;
      }
    }

    function GetAgent(agentId: string): (r: Agent?)
      reads this
      ensures r == null <==> agentId !in managed
      ensures r != null ==> r == managed[agentId]
    {
      if agentId in managed then managed[agentId] else null
    }

    /** Each managed agent once; the broker's registry holds the same agents. */
    method GetAllAgents() returns (agents: seq<Agent>)
      requires Valid()
      ensures |agents| == |managed|
      ensures forall k :: k in managed ==> managed[k] in agents
      ensures forall i :: 0 <= i < |agents| ==> agents[i] in managed.Values
      ensures forall i, j :: 0 <= i < j < |agents| ==> agents[i] != agents[j]
    {
      agents := broker.GetAllAgents();
    }

    /** Enqueues one message addressed to every agent, with the given sender,
        type and subject, carrying the given content or else an empty one. */
    method SendBroadcastMessage(ids: IdSource, now: int, senderAgentId: string, kind: MessageType,
                                subject: string, content: Option<Payload>)
      modifies ids, broker`queue
      ensures |broker.queue| == |old(broker.queue)| + 1 && broker.queue[..|old(broker.queue)|] == old(broker.queue)
      ensures var m := broker.queue[|broker.queue| - 1];
              fresh(m) && m.id == old(ids.next) && m.createdAt == now
              && m.sender == senderAgentId && m.receiver == BroadcastId && m.kind == kind && m.subject == subject
              && m.content == content.GetOr(map[]) && !m.isProcessed && m.replyTo == None
    {
      var message := new Message.Blank(ids, now);
      message.sender := senderAgentId;
      message.receiver := BroadcastId;
      message.kind := kind;
      message.subject := subject;
      message.content := content.GetOr(map[]);
      var _ := broker.SendMessage(message);
    }
  }
}
