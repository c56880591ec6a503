/**
 * DelayedResponseOperatorRuntimeEnvironment: runs one delayed-response operator between a
 * source queue and a destination queue.  Its run loop waits for messages on the source queue
 * and hands each one that has a body to the operator and to the response wait strategy; the
 * strategy, in turn, calls retrieveMessages, which fetches the operator's result and writes it
 * to the destination queue.  The worker threads are not modelled: the messages the run loop
 * sees are given to it as a sequence of wait outcomes.
 */
module DelayedResponseRuntime {
  import opened Common
  import opened Text
  import opened StreamingMessage
  import opened DelayedResponse
  import opened ChronicleQueue

  /** The RequiredInputMissingException messages of the constructor, one per checked input. */
  datatype RequiredInputMissing =
    | MissingProcessingNodeId
    | MissingPipelineId
    | MissingOperator
    | MissingResponseWaitStrategy
    | MissingQueueConsumer
    | MissingQueueProducer

  /** The constructor's checks, in their order: node id, pipeline id, operator, wait strategy,
      consumer, producer; the first that fails is reported. */
  function ValidateInputs(processingNodeId: Option<string>, pipelineId: Option<string>, hasOperator: bool,
                          hasWaitStrategy: bool, hasConsumer: bool, hasProducer: bool): (r: Outcome<RequiredInputMissing>)
    ensures r.Pass? <==> !IsBlank(processingNodeId) && !IsBlank(pipelineId) && hasOperator && hasWaitStrategy && hasConsumer && hasProducer
    ensures IsBlank(processingNodeId) ==> r == Fail(MissingProcessingNodeId)
    ensures !IsBlank(processingNodeId) && IsBlank(pipelineId) ==> r == Fail(MissingPipelineId)
    ensures !IsBlank(processingNodeId) && !IsBlank(pipelineId) && !hasOperator ==> r == Fail(MissingOperator)
    ensures !IsBlank(processingNodeId) && !IsBlank(pipelineId) && hasOperator && !hasWaitStrategy ==> r == Fail(MissingResponseWaitStrategy)
    ensures !IsBlank(processingNodeId) && !IsBlank(pipelineId) && hasOperator && hasWaitStrategy && !hasConsumer ==> r == Fail(MissingQueueConsumer)
    ensures !IsBlank(processingNodeId) && !IsBlank(pipelineId) && hasOperator && hasWaitStrategy && hasConsumer && !hasProducer ==> r == Fail(MissingQueueProducer)
  {
    if IsBlank(processingNodeId) then Fail(MissingProcessingNodeId)
    else if IsBlank(pipelineId) then Fail(MissingPipelineId)
    else if !hasOperator then Fail(MissingOperator)
    else if !hasWaitStrategy then Fail(MissingResponseWaitStrategy)
    else if !hasConsumer then Fail(MissingQueueConsumer)
    else if !hasProducer then Fail(MissingQueueProducer)
    else Pass
  }

  /** Identifiers are kept trimmed and lower-cased. */
  function NormalizeId(id: Option<string>): (r: Option<string>)
    ensures r.None? <==> id.None?
    ensures r.Some? ==> HasNoUpper(r.value) && (r.value == [] || (!Trimmed(r.value[0]) && !Trimmed(r.value[|r.value| - 1])))
    ensures r.Some? ==> var a := TrimFrom(id.value, 0);
      && a + |r.value| <= |id.value|
      && (forall k :: 0 <= k < a ==> Trimmed(id.value[k]))
      && (forall k :: 0 <= k < |r.value| ==> r.value[k] == LowerChar(id.value[a + k]))
      && (forall k :: a + |r.value| <= k < |id.value| ==> Trimmed(id.value[k]))
  {
    LowerCase(Trim(id))
  }

  /** Lower-casing never turns a kept character into a trimmed one or back. */
  lemma LowerCharKeepsTrimmed(c: char)
    ensures Trimmed(LowerChar(c)) <==> Trimmed(c)
  {
  }

  /** Normalising a normalised identifier changes nothing. */
  lemma NormalizeIdIdempotent(id: Option<string>)
    ensures NormalizeId(NormalizeId(id)) == NormalizeId(id)
  {
    if id.Some? {
      var t := TrimStr(id.value);
      var l := LowerStr(t);
      if t != [] {
        LowerCharKeepsTrimmed(t[0]);
        LowerCharKeepsTrimmed(t[|t| - 1]);
      }
      TrimStrOfTrimmed(l);
      LowerStrOfLower(l);
    }
  }

  /** What the consumer queue wait strategy's waitFor yields for one pass of the run loop: a
      message (possibly null), an interruption, or any other exception. */
  datatype WaitOutcome = Received(message: Option<StreamingDataMessage>) | Interrupted | Failed

  /** The messages the run loop forwards out of a run of wait outcomes: those that arrived and
      carry a body, in arrival order. */
  function Forwarded(outcomes: seq<WaitOutcome>): (r: seq<StreamingDataMessage>)
    ensures |r| <= |outcomes|
    ensures forall k :: 0 <= k < |r| ==> r[k].body.Some?
    decreases |outcomes|
  {
    if outcomes == [] then []
    else
      var last := outcomes[|outcomes| - 1];
      Forwarded(outcomes[..|outcomes| - 1]) + (if last.Received? && HasBody(last.message) then [last.message.value] else [])
  }

  /** Forwarding distributes over consecutive runs of the loop. */
  lemma {:induction false} ForwardedAppend(a: seq<WaitOutcome>, b: seq<WaitOutcome>)
    ensures Forwarded(a + b) == Forwarded(a) + Forwarded(b)
    decreases |b|
  {
    if b == [] {
      assert a + b == a;
    } else {
      assert (a + b)[..|a + b| - 1] == a + b[..|b| - 1];
      ForwardedAppend(a, b[..|b| - 1]);
    }
  }

  /** A message is forwarded exactly when some outcome delivered it with a body. */
  lemma {:induction false} ForwardedMembers(outcomes: seq<WaitOutcome>, m: StreamingDataMessage)
    ensures m in Forwarded(outcomes) <==> m.body.Some? && Received(Some(m)) in outcomes
    decreases |outcomes|
  {
    if outcomes != [] {
      var init := outcomes[..|outcomes| - 1];
      ForwardedMembers(init, m);
      assert outcomes == init + [outcomes[|outcomes| - 1]];
    }
  }

  /** ExecutorService: the tasks submitted to it and the calls of shutdownNow. */
  class Executor {
    var submitted: seq<object>
    var shutdownNowCalls: nat

    constructor ()
      ensures submitted == [] && shutdownNowCalls == 0
    {
      submitted := [];
      shutdownNowCalls := 0;
    }

    method Submit(task: object)
      modifies this
      ensures submitted == old(submitted) + [task] && shutdownNowCalls == old(shutdownNowCalls)
    {
      submitted := submitted + [task];
    }

    method ShutdownNow()
      modifies this
      ensures shutdownNowCalls == old(shutdownNowCalls) + 1 && submitted == old(submitted)
    {
      shutdownNowCalls := shutdownNowCalls + 1;
    }
  }

  /** The metrics Counter the run loop increments once per forwarded message. */
  class MessageCounter {
    var count: nat

    constructor ()
      ensures count == 0
    {
      count := 0;
    }

    method Inc()
      modifies this
      ensures count == old(count) + 1
    {
      count := count + 1;
    }
  }

  class DelayedResponseOperatorRuntimeEnvironment {
    const processingNodeId: Option<string>
    const pipelineId: Option<string>
    const operatorId: Option<string>
    const delayedResponseOperator: DelayedResponseOperator
    const responseWaitStrategy: ResponseWaitStrategy
    const queueConsumer: QueueConsumer
    const queueProducer: QueueProducer
    const executorService: Executor
    const consumerQueueWaitStrategy: QueueWaitStrategy
    const destinationQueueWaitStrategy: QueueWaitStrategy
    var running: bool
    var localExecutorService: bool
    var messageCounter: MessageCounter?

    /** The constructor past its input checks: identifiers normalised, this environment made
        the strategy's collector, the strategy handed to the operator and submitted to the
        executor, and the queues' wait strategies captured. */
    constructor (processingNodeId: string, pipelineId: string, delayedResponseOperator: DelayedResponseOperator,
                 responseWaitStrategy: ResponseWaitStrategy, queueConsumer: QueueConsumer, queueProducer: QueueProducer,
                 executorService: Executor)
      modifies delayedResponseOperator, responseWaitStrategy, executorService
      ensures this.processingNodeId == NormalizeId(Some(processingNodeId))
      ensures this.pipelineId == NormalizeId(Some(pipelineId))
      ensures this.operatorId == NormalizeId(delayedResponseOperator.id)
      ensures this.delayedResponseOperator == delayedResponseOperator && this.responseWaitStrategy == responseWaitStrategy
      ensures this.queueConsumer == queueConsumer && this.queueProducer == queueProducer
      ensures this.executorService == executorService
      ensures responseWaitStrategy.collector == this
      ensures responseWaitStrategy.notified == old(responseWaitStrategy.notified)
      ensures responseWaitStrategy.shutdownCalls == old(responseWaitStrategy.shutdownCalls)
      ensures delayedResponseOperator.waitStrategy == responseWaitStrategy
      ensures delayedResponseOperator.window == old(delayedResponseOperator.window)
      ensures delayedResponseOperator.shutdownCalls == old(delayedResponseOperator.shutdownCalls)
      ensures executorService.submitted == old(executorService.submitted) + [responseWaitStrategy]
      ensures executorService.shutdownNowCalls == old(executorService.shutdownNowCalls)
      ensures running && !localExecutorService && messageCounter == null
      ensures consumerQueueWaitStrategy == queueConsumer.waitStrategy
      ensures destinationQueueWaitStrategy == queueProducer.waitStrategy
    {
      this.processingNodeId := NormalizeId(Some(processingNodeId));
      this.pipelineId := NormalizeId(Some(pipelineId));
      this.operatorId := NormalizeId(delayedResponseOperator.GetId());
      this.delayedResponseOperator := delayedResponseOperator;
      this.responseWaitStrategy := responseWaitStrategy;
      this.queueConsumer := queueConsumer;
      this.queueProducer := queueProducer;
      this.executorService := executorService;
      this.consumerQueueWaitStrategy := queueConsumer.GetWaitStrategy();
      this.destinationQueueWaitStrategy := queueProducer.GetWaitStrategy();
      localExecutorService := false;
      messageCounter := null;
      running := false;
      new;
      responseWaitStrategy.SetDelayedResponseCollector(this);
      delayedResponseOperator.SetWaitStrategy(responseWaitStrategy);
      executorService.Submit(responseWaitStrategy);
      running := true;
    }

    /** The seven-argument constructor: the inputs are checked in order and the first missing one
        is reported; otherwise the environment runs on the given executor, which it leaves for
        its provider to shut down. */
    static method Create(processingNodeId: Option<string>, pipelineId: Option<string>,
                         delayedResponseOperator: DelayedResponseOperator?, responseWaitStrategy: ResponseWaitStrategy?,
                         queueConsumer: QueueConsumer?, queueProducer: QueueProducer?, executorService: Executor)
      returns (r: Result<DelayedResponseOperatorRuntimeEnvironment, RequiredInputMissing>)
      modifies delayedResponseOperator, responseWaitStrategy, executorService
      ensures var v := ValidateInputs(processingNodeId, pipelineId, delayedResponseOperator != null,
                                      responseWaitStrategy != null, queueConsumer != null, queueProducer != null);
        && (v.Fail? ==> r == Failure(v.error))
        && (v.Pass? ==> r.Success? && fresh(r.value))
      ensures r.Failure? ==>
        && unchanged(executorService)
        && (delayedResponseOperator != null ==> unchanged(delayedResponseOperator))
        && (responseWaitStrategy != null ==> unchanged(responseWaitStrategy))
      ensures r.Success? ==>
        && r.value.processingNodeId == NormalizeId(processingNodeId) && r.value.pipelineId == NormalizeId(pipelineId)
        && r.value.operatorId == NormalizeId(delayedResponseOperator.id)
        && r.value.delayedResponseOperator == delayedResponseOperator && r.value.responseWaitStrategy == responseWaitStrategy
        && r.value.queueConsumer == queueConsumer && r.value.queueProducer == queueProducer
        && r.value.consumerQueueWaitStrategy == queueConsumer.waitStrategy
        && r.value.destinationQueueWaitStrategy == queueProducer.waitStrategy
        && responseWaitStrategy.collector == r.value && delayedResponseOperator.waitStrategy == responseWaitStrategy
        && responseWaitStrategy.notified == old(responseWaitStrategy.notified)
        && delayedResponseOperator.window == old(delayedResponseOperator.window)
        && responseWaitStrategy.shutdownCalls == old(responseWaitStrategy.shutdownCalls)
        && delayedResponseOperator.shutdownCalls == old(delayedResponseOperator.shutdownCalls)
        && r.value.IsRunning()
        && r.value.executorService == executorService && !r.value.localExecutorService && r.value.running
        && r.value.messageCounter == null
        && executorService.submitted == old(executorService.submitted) + [responseWaitStrategy]
        && executorService.shutdownNowCalls == old(executorService.shutdownNowCalls)
    {
      var v := ValidateInputs(processingNodeId, pipelineId, delayedResponseOperator != null,
                              responseWaitStrategy != null, queueConsumer != null, queueProducer != null);
      if v.Fail? {
        return Failure(v.error);
      }
      var env := new DelayedResponseOperatorRuntimeEnvironment(processingNodeId.value, pipelineId.value, delayedResponseOperator,
                                                               responseWaitStrategy, queueConsumer, queueProducer, executorService);
      r := Success(env);
    }

    /** The six-argument constructor: as the seven-argument one on a fresh executor of its own,
        which the environment then shuts down itself. */
    static method CreateWithLocalExecutor(processingNodeId: Option<string>, pipelineId: Option<string>,
                                          delayedResponseOperator: DelayedResponseOperator?, responseWaitStrategy: ResponseWaitStrategy?,
                                          queueConsumer: QueueConsumer?, queueProducer: QueueProducer?)
      returns (r: Result<DelayedResponseOperatorRuntimeEnvironment, RequiredInputMissing>)
      modifies delayedResponseOperator, responseWaitStrategy
      ensures var v := ValidateInputs(processingNodeId, pipelineId, delayedResponseOperator != null,
                                      responseWaitStrategy != null, queueConsumer != null, queueProducer != null);
        && (v.Fail? ==> r == Failure(v.error))
        && (v.Pass? ==> r.Success? && fresh(r.value))
      ensures r.Failure? ==>
        && (delayedResponseOperator != null ==> unchanged(delayedResponseOperator))
        && (responseWaitStrategy != null ==> unchanged(responseWaitStrategy))
      ensures r.Success? ==>
        && r.value.processingNodeId == NormalizeId(processingNodeId) && r.value.pipelineId == NormalizeId(pipelineId)
        && r.value.operatorId == NormalizeId(delayedResponseOperator.id)
        && r.value.delayedResponseOperator == delayedResponseOperator && r.value.responseWaitStrategy == responseWaitStrategy
        && r.value.queueConsumer == queueConsumer && r.value.queueProducer == queueProducer
        && r.value.consumerQueueWaitStrategy == queueConsumer.waitStrategy
        && r.value.destinationQueueWaitStrategy == queueProducer.waitStrategy
        && fresh(r.value.executorService) && r.value.localExecutorService && r.value.running
        && r.value.messageCounter == null
        && r.value.executorService.submitted == [responseWaitStrategy]
        && r.value.executorService.shutdownNowCalls == 0
        && responseWaitStrategy.collector == r.value && delayedResponseOperator.waitStrategy == responseWaitStrategy
        && responseWaitStrategy.notified == old(responseWaitStrategy.notified)
        && delayedResponseOperator.window == old(delayedResponseOperator.window)
        && responseWaitStrategy.shutdownCalls == old(responseWaitStrategy.shutdownCalls)
        && delayedResponseOperator.shutdownCalls == old(delayedResponseOperator.shutdownCalls)
        && r.value.IsRunning()
    {
      var executor := new Executor();
      r := Create(processingNodeId, pipelineId, delayedResponseOperator, responseWaitStrategy, queueConsumer, queueProducer, executor);
      if r.Success? {
        r.value.localExecutorService := true;
      }
    }

    function IsRunning(): bool
      reads this
    {
      running
    }

    method SetMessageCounter(messageCounter: MessageCounter?)
      modifies this`messageCounter
      ensures this.messageCounter == messageCounter
    {
      this.messageCounter := messageCounter;
    }

    /** One pass of the run loop: a message with a body goes to the operator, then to the
        response wait strategy, then bumps the counter if there is one; a null message, a null
        body, an interruption and any other exception leave everything as it was. */
    method Step(outcome: WaitOutcome)
      modifies delayedResponseOperator, responseWaitStrategy, messageCounter
      ensures var fwd := Forwarded([outcome]);
        && delayedResponseOperator.window == old(delayedResponseOperator.window) + fwd
        && responseWaitStrategy.notified == old(responseWaitStrategy.notified) + fwd
        && (messageCounter != null ==> messageCounter.count == old(messageCounter.count) + |fwd|)
      ensures delayedResponseOperator.waitStrategy == old(delayedResponseOperator.waitStrategy)
      ensures delayedResponseOperator.shutdownCalls == old(delayedResponseOperator.shutdownCalls)
      ensures responseWaitStrategy.collector == old(responseWaitStrategy.collector)
      ensures responseWaitStrategy.shutdownCalls == old(responseWaitStrategy.shutdownCalls)
    {
      assert [outcome][..0] == [];
      if outcome.Received? && HasBody(outcome.message) {
        var message := outcome.message.value;
        delayedResponseOperator.OnMessage(message);
        responseWaitStrategy.OnMessage(message);
        if messageCounter != null {
          messageCounter.Inc();
        }
      }
    }

    /** The run loop over the outcomes of successive waits: while the environment is running,
        every outcome is handled in turn, so the operator and the strategy receive exactly the
        forwarded messages, in order.  A stopped environment handles nothing. */
    method Run(outcomes: seq<WaitOutcome>)
      modifies delayedResponseOperator, responseWaitStrategy, messageCounter
      ensures var fwd := if old(running) then Forwarded(outcomes) else [];
        && delayedResponseOperator.window == old(delayedResponseOperator.window) + fwd
        && responseWaitStrategy.notified == old(responseWaitStrategy.notified) + fwd
        && (messageCounter != null ==> messageCounter.count == old(messageCounter.count) + |fwd|)
      ensures delayedResponseOperator.waitStrategy == old(delayedResponseOperator.waitStrategy)
      ensures delayedResponseOperator.shutdownCalls == old(delayedResponseOperator.shutdownCalls)
      ensures responseWaitStrategy.collector == old(responseWaitStrategy.collector)
      ensures responseWaitStrategy.shutdownCalls == old(responseWaitStrategy.shutdownCalls)
    {
      if !running {
        return;
      }
      for i := 0 to |outcomes|
        invariant delayedResponseOperator.window == old(delayedResponseOperator.window) + Forwarded(outcomes[..i])
        invariant responseWaitStrategy.notified == old(responseWaitStrategy.notified) + Forwarded(outcomes[..i])
        invariant messageCounter != null ==> messageCounter.count == old(messageCounter.count) + |Forwarded(outcomes[..i])|
        invariant delayedResponseOperator.waitStrategy == old(delayedResponseOperator.waitStrategy)
        invariant delayedResponseOperator.shutdownCalls == old(delayedResponseOperator.shutdownCalls)
        invariant responseWaitStrategy.collector == old(responseWaitStrategy.collector)
        invariant responseWaitStrategy.shutdownCalls == old(responseWaitStrategy.shutdownCalls)
      {
        Step(outcomes[i]);
        assert outcomes[..i + 1] == outcomes[..i] + [outcomes[i]];
        ForwardedAppend(outcomes[..i], [outcomes[i]]);
      }
      assert outcomes[..|outcomes|] == outcomes;
    }

    /** The collector callback: the operator's result, when it is not a null array, is written
        to the destination queue element by element in order (null elements included), and then
        the destination queue's wait strategy has its lock released once. */
    method RetrieveMessages()
      modifies delayedResponseOperator, queueProducer, destinationQueueWaitStrategy
      ensures var fetched := delayedResponseOperator.fetch(old(delayedResponseOperator.window));
        && queueProducer.inserted == old(queueProducer.inserted) + (if fetched.Some? then fetched.value else [])
        && destinationQueueWaitStrategy.lockReleases == old(destinationQueueWaitStrategy.lockReleases) + (if fetched.Some? then 1 else 0)
      ensures delayedResponseOperator.window == []
      ensures delayedResponseOperator.waitStrategy == old(delayedResponseOperator.waitStrategy)
      ensures delayedResponseOperator.shutdownCalls == old(delayedResponseOperator.shutdownCalls)
    {
      var retrievedMessages := delayedResponseOperator.GetResult();
      if retrievedMessages.Some? {
        var messages := retrievedMessages.value;
        for i := 0 to |messages|
          invariant queueProducer.inserted == old(queueProducer.inserted) + messages[..i]
          invariant destinationQueueWaitStrategy.lockReleases == old(destinationQueueWaitStrategy.lockReleases)
          invariant delayedResponseOperator.window == []
          invariant delayedResponseOperator.waitStrategy == old(delayedResponseOperator.waitStrategy)
          invariant delayedResponseOperator.shutdownCalls == old(delayedResponseOperator.shutdownCalls)
        {
          queueProducer.Insert(messages[i]);
          assert messages[..i + 1] == messages[..i] + [messages[i]];
        }
        assert messages[..|messages|] == messages;
        destinationQueueWaitStrategy.ForceLockRelease();
      }
    }

    /** Stops the run loop and shuts down the operator, then the response wait strategy, then,
        only when the environment created it, the executor. */
    method Shutdown()
      modifies this`running, delayedResponseOperator, responseWaitStrategy, executorService
      ensures !running && !IsRunning()
      ensures delayedResponseOperator.shutdownCalls == old(delayedResponseOperator.shutdownCalls) + 1
      ensures delayedResponseOperator.waitStrategy == old(delayedResponseOperator.waitStrategy)
      ensures responseWaitStrategy.collector == old(responseWaitStrategy.collector)
      ensures delayedResponseOperator.window == old(delayedResponseOperator.window)
      ensures responseWaitStrategy.shutdownCalls == old(responseWaitStrategy.shutdownCalls) + 1
      ensures responseWaitStrategy.notified == old(responseWaitStrategy.notified)
      ensures executorService.shutdownNowCalls == old(executorService.shutdownNowCalls) + (if localExecutorService then 1 else 0)
      ensures executorService.submitted == old(executorService.submitted)
    {
      running := false;
      delayedResponseOperator.Shutdown();
      responseWaitStrategy.Shutdown();
      if localExecutorService {
        executorService.ShutdownNow();
      }
    }
  }
}
