/**
 * broker/server.go: the remote calls. Each handler looks its objects up, stops early where the program returns an
 * error, and otherwise does to the broker what Model says; what a worker is sent is the message Model describes.
 */
module Server {
  import opened Basics
  import Retry
  import opened Inspection
  import M = Model
  import Effects
  import SafetyOfSteps
  import B = Broker

  /** The request of CreateNode. */
  datatype NodeConfiguration = NodeConfiguration(
    identifier: Id, functionName: string, functionHash: string, queueName: string, taintName: string, arguments: Obj,
    sourceIds: seq<Id>, instanceId: Id, retry: Option<Retry.RetryMessage>)

  function DeclOf(m: NodeConfiguration): M.Decl {
    M.Decl(m.functionName, m.functionHash, m.queueName, m.taintName, m.arguments, m.instanceId, m.sourceIds)
  }

  /** What CreateNode demands of its caller: a new identifier, and sources of the same, existing instance. */
  ghost predicate Creatable(b: M.State, m: NodeConfiguration) {
    && m.identifier !in b.nodes && m.instanceId in b.instances
    && forall s | s in m.sourceIds :: s in b.nodes && b.nodes[s].decl.instance == m.instanceId
  }

  /** The node object is what the request asked for, field by field. */
  ghost predicate Built(node: B.DAGNode, m: NodeConfiguration) {
    && node.identifier == m.identifier && node.functionName == m.functionName && node.functionHash == m.functionHash
    && node.queueName == m.queueName && node.taintName == m.taintName && node.arguments == m.arguments
    && node.instance.identifier == m.instanceId && |node.sources| == |m.sourceIds|
    && forall k | 0 <= k < |m.sourceIds| :: node.sources[k].identifier == m.sourceIds[k]
  }

  /** The message tells the fields of the node object, and of each of its sources what it is and what it has. */
  ghost predicate Tells(message: M.NodeMessage, node: B.DAGNode)
    reads node, node.sources
  {
    && message.identifier == node.identifier && message.functionName == node.functionName
    && message.functionHash == node.functionHash && message.queueName == node.queueName
    && message.taintName == node.taintName && message.arguments == node.arguments
    && message.resolvedValue == node.resolvedValue && message.completed == node.completed
    && message.instanceId == node.instance.identifier && |message.sources| == |node.sources|
    && forall k | 0 <= k < |node.sources| ::
         && message.sources[k].identifier == node.sources[k].identifier
         && message.sources[k].resolvedValue == node.sources[k].resolvedValue
         && message.sources[k].completed == node.sources[k].completed
  }

  class BrokerServer {
    const broker: B.Broker

    constructor ()
      ensures broker.Valid() && fresh(broker) && fresh(broker.Repr()) && broker.state == M.EMPTY
    {
      var b := new B.Broker();
      broker := b;
    }

    /** Convert the layer of sources to messages of their own. */
    method NodeToMessage(node: B.DAGNode) returns (message: M.NodeMessage)
      requires broker.Valid() && broker.Knows(node)
      ensures node.identifier in broker.state.nodes && M.SourcesKnown(broker.state)
           && message == M.NodeToMessage(broker.state, node.identifier)
      ensures Tells(message, node)
    {
      hide B.Broker.Valid, B.Broker.Knows;
      broker.PointersKnown();
      broker.MessageValues(node);
      var sourceMessages: seq<M.SourceMessage> := [];
      for i := 0 to |node.sources|
        invariant sourceMessages == M.SourceMessages(broker.state, B.NodeIds(node.sources))[..i]
        invariant |sourceMessages| == i && forall k | 0 <= k < i ::
          sourceMessages[k]
            == M.SourceMessage(node.sources[k].identifier, node.sources[k].resolvedValue, node.sources[k].completed)
      {
        var source := node.sources[i];
        sourceMessages := sourceMessages + [M.SourceMessage(source.identifier, source.resolvedValue, source.completed)];
      }
      message := M.NodeMessage(node.identifier, node.functionName, node.functionHash, node.queueName, node.taintName,
                               node.arguments, node.resolvedValue, sourceMessages, node.completed,
                               node.instance.identifier);
    }

    method CreateWorker(identifier: Id, excludeQueues: seq<string>, includeQueues: seq<string>,
                        queueTolerations: seq<string>, now: int)
      returns (id: Id)
      requires broker.Valid() && identifier !in broker.workers
      modifies broker, broker.Repr()
      ensures broker.Grown() && id == identifier
      ensures broker.state == M.NewWorker(old(broker.state), identifier, excludeQueues, includeQueues,
           queueTolerations, now)
      ensures identifier in broker.workers && broker.workers[identifier].excludeQueues == excludeQueues
           && broker.workers[identifier].includeQueues == includeQueues
           && broker.workers[identifier].queueTolerations == queueTolerations
    {
      var worker := broker.NewWorker(identifier, excludeQueues, includeQueues, queueTolerations, now);
      id := worker.identifier;
    }

    method CreateInstance(identifier: Id) returns (id: Id)
      requires broker.Valid() && identifier !in broker.instances
      modifies broker, broker.Repr()
      ensures broker.Grown() && id == identifier && broker.state == M.NewInstance(old(broker.state), identifier)
    {
      var instance := broker.NewInstance(identifier);
      id := instance.identifier;
    }

    method PolicyFor(retry: Option<Retry.RetryMessage>) returns (policy: Retry.RetryPolicy?)
      ensures B.PolicyOf(policy) == Retry.PolicyFor(retry) && fresh(B.PolicySet(policy))
    {
      policy := null;
      if retry.Some? {
        if retry.value.staticInterval > 0 {
          policy := new Retry.RetryPolicy.Static(retry.value.staticInterval, retry.value.maxAttempts);
        } else if retry.value.exponentialBase > 0 {
          policy := new Retry.RetryPolicy.Exponential(retry.value.exponentialBase, retry.value.maxAttempts);
        }
      }
    }

    method FindSources(i: B.DAGInstance, sourceIds: seq<Id>) returns (sources: seq<B.DAGNode>)
      requires broker.Valid() && broker.KnowsInstance(i)
      requires forall s | s in sourceIds ::
                 s in broker.state.nodes && broker.state.nodes[s].decl.instance == i.identifier
      ensures B.NodeIds(sources) == sourceIds && broker.KnowsAll(sources)
    {
      hide B.Broker.Valid;
      sources := [];
      for k := 0 to |sourceIds|
        invariant broker.Valid() && |sources| == k
        invariant forall j | 0 <= j < k :: sources[j].identifier == sourceIds[j] && broker.Knows(sources[j])
      {
        assert sourceIds[k] in sourceIds;
        broker.NodeFound(sourceIds[k]);
        sources := sources + [i.GetNode(sourceIds[k])];
      }
    }

    lemma BuiltFrom(node: B.DAGNode, sources: seq<B.DAGNode>, m: NodeConfiguration)
      requires node.identifier == m.identifier && node.functionName == m.functionName
            && node.functionHash == m.functionHash && node.queueName == m.queueName && node.taintName == m.taintName
            && node.arguments == m.arguments && node.instance.identifier == m.instanceId
      requires node.sources == sources && B.NodeIds(sources) == m.sourceIds
      ensures Built(node, m)
    {
      forall k | 0 <= k < |m.sourceIds|
        ensures node.sources[k].identifier == m.sourceIds[k]
      {
        assert B.NodeIds(sources)[k] == sources[k].identifier;
      }
    }

    method CreateNode(m: NodeConfiguration, now: int) returns (message: M.NodeMessage)
      requires broker.Valid() && Creatable(broker.state, m)
      modifies broker, broker.Repr()
      ensures broker.Grown() && SafetyOfSteps.MayInsert(old(broker.state), m.identifier, DeclOf(m))
      ensures broker.state == M.NewNode(old(broker.state), m.identifier, DeclOf(m), Retry.PolicyFor(m.retry), now)
      ensures m.identifier in broker.state.nodes && M.SourcesKnown(broker.state)
           && message == M.NodeToMessage(broker.state, m.identifier)
      ensures m.identifier in broker.nodes && Built(broker.nodes[m.identifier], m)
           && Tells(message, broker.nodes[m.identifier])
    {
      hide B.Broker.Valid, B.Broker.Knows, M.AllKnown, M.NodeToMessage, M.NewNode, Retry.PolicyFor, Tells, Built;
      broker.InstanceFound(m.instanceId);
      broker.NodeKeys();
      var instance := broker.GetInstance(m.instanceId);
      var sourceNodes := FindSources(instance, m.sourceIds);
      var retryPolicy := PolicyFor(m.retry);
      var node := instance.NewNode(m.identifier, m.functionName, m.functionHash, m.queueName, m.taintName, m.arguments,
                                   sourceNodes, retryPolicy, now);
      BuiltFrom(node, sourceNodes, m);
      message := NodeToMessage(node);
    }

    method Ping(w: Id, now: int) returns (lastPing: int)
      requires broker.Valid() && w in broker.state.workers
      modifies broker, broker.Repr()
      ensures broker.Kept() && w in old(broker.state).workers && broker.state == M.Ping(old(broker.state), w, now)
      ensures lastPing == M.Unix(now)
    {
      hide B.Broker.Valid, B.Worker.Abs;
      broker.WorkerFound(w);
      var worker := broker.GetWorker(w);
      broker.PingWorker(worker, now);
      lastPing := worker.lastPing;
    }

    method GetNode(i: Id, n: Id) returns (message: M.NodeMessage)
      requires broker.Valid() && n in broker.state.nodes && broker.state.nodes[n].decl.instance == i
      ensures M.SourcesKnown(broker.state) && message == M.NodeToMessage(broker.state, n)
      ensures n in broker.nodes && broker.nodes[n].identifier == n && Tells(message, broker.nodes[n])
    {
      hide B.Broker.Valid, B.Broker.Knows;
      broker.NodeFound(n);
      message := NodeToMessage(broker.GetInstance(i).GetNode(n));
    }

    /** q and job say, for the contract only, where the node came from. */
    method GetWork(w: Id, now: int) returns (reply: Result<M.NodeMessage>, ghost q: string, ghost job: M.Job)
      requires broker.Valid() && w in broker.state.workers
      modifies broker, broker.Repr()
      ensures broker.Kept() && w in old(broker.state).workers
      ensures old(broker.state).workers[w].invalidated ==>
                reply == Err("worker invalidated") && broker.state == old(broker.state)
      ensures !old(broker.state).workers[w].invalidated && reply.Err? ==>
        && reply == Err("no work available") && Effects.SentAway(old(broker.state), w)
        && broker.state == M.FillCache(old(broker.state), w)
      ensures reply.Ok? ==>
        && !old(broker.state).workers[w].invalidated
        && M.LeastJob(old(broker.state), w, q, job) && job.node in old(broker.state).nodes
        && broker.state == M.Claim(old(broker.state), w, q, job, now)
        && job.node in broker.state.nodes && M.SourcesKnown(broker.state)
        && reply.value == M.NodeToMessage(broker.state, job.node)
        && job.node in broker.nodes && Tells(reply.value, broker.nodes[job.node])
    {
      hide B.Broker.Valid, B.Broker.Knows, B.Worker.Abs, M.AllKnown, M.LeastJob, Effects.SentAway, M.FillCache,
           M.Claim, M.NodeToMessage, Tells;
      q, job := "", M.Job(w, 0);
      broker.WorkerFound(w);
      broker.FenceValue(w);
      var worker := broker.GetWorker(w);
      if worker.invalidated {
        return Err("worker invalidated"), q, job;
      }
      var node: B.DAGNode?;
      node, q, job := broker.PopNextNode(worker, now);
      if node == null {
        return Err("no work available"), q, job;
      }
      broker.KnownIs(node);
      var message := NodeToMessage(node);
      reply := Ok(message);
    }

    method SubmitWork(w: Id, i: Id, n: Id, value: Obj, now: int) returns (reply: Result<M.NodeMessage>)
      requires broker.Valid() && w in broker.state.workers
      requires n in broker.state.nodes && broker.state.nodes[n].decl.instance == i
      modifies broker, broker.Repr()
      ensures broker.Kept() && w in old(broker.state).workers && n in old(broker.state).nodes
      ensures M.DestinationsKnown(old(broker.state))
           && broker.state == M.SubmitWork(old(broker.state), w, n, value, now)
      ensures old(broker.state).workers[w].invalidated ==> reply == Err("worker invalidated")
      ensures !old(broker.state).workers[w].invalidated ==>
        && n in broker.state.nodes && M.SourcesKnown(broker.state)
        && reply == Ok(M.NodeToMessage(broker.state, n))
        && n in broker.nodes && Tells(reply.value, broker.nodes[n])
    {
      hide B.Broker.Valid, B.Worker.Abs, M.AllKnown, M.DestinationsKnown, M.ExecutionDidResolve,
           M.NodeToMessage, Tells;
      broker.PointersKnown();
      broker.WorkerFound(w);
      broker.FenceValue(w);
      var worker := broker.GetWorker(w);
      if worker.invalidated {
        return Err("worker invalidated");
      }
      broker.NodeFound(n);
      var node := broker.GetInstance(i).GetNode(n);
      broker.SameBroker(node);
      node.ExecutionDidResolve(value, now);
      var message := NodeToMessage(node);
      reply := Ok(message);
    }

    method SubmitFailure(w: Id, i: Id, n: Id, traceback: string, jitter: real, now: int)
      returns (reply: Result<M.NodeMessage>)
      requires broker.Valid() && w in broker.state.workers
      requires n in broker.state.nodes && broker.state.nodes[n].decl.instance == i
      modifies broker, broker.Repr()
      ensures broker.Kept() && w in old(broker.state).workers && n in old(broker.state).nodes
      ensures broker.state == M.SubmitFailure(old(broker.state), w, n, traceback, jitter, now)
      ensures old(broker.state).workers[w].invalidated ==> reply == Err("worker invalidated")
      ensures !old(broker.state).workers[w].invalidated ==>
        && n in broker.state.nodes && M.SourcesKnown(broker.state)
        && reply == Ok(M.NodeToMessage(broker.state, n))
        && n in broker.nodes && Tells(reply.value, broker.nodes[n])
    {
      hide B.Broker.Valid, B.Worker.Abs, M.AllKnown, M.ExecutionDidFail, M.NodeToMessage, Tells;
      broker.WorkerFound(w);
      broker.FenceValue(w);
      var worker := broker.GetWorker(w);
      if worker.invalidated {
        return Err("worker invalidated");
      }
      broker.NodeFound(n);
      var node := broker.GetInstance(i).GetNode(n);
      broker.SameBroker(node);
      node.ExecutionDidFail(traceback, jitter, now);
      var message := NodeToMessage(node);
      reply := Ok(message);
    }
  }
}
