/**
 * The DelayedResponseOperator contract: an operator that receives messages one by one and
 * hands out its results only when asked through getResult.  The operator itself is abstract
 * here: its result is a fixed function `fetch` of the messages received since the previous
 * getResult, which is exactly the window the contract counts.  The response wait strategy
 * (the trigger that decides when to ask) is abstract too; only the calls the runtime
 * environment makes on it are recorded.
 */
module DelayedResponse {
  import opened Common
  import opened StreamingMessage

  /** Settings of the wait strategy are given as this prefix followed by the option name. */
  const CFG_WAIT_STRATEGY_SETTINGS_PREFIX: string := "waitStrategy.cfg."

  function WaitStrategySettingKey(option: string): (key: string)
    ensures |key| == |CFG_WAIT_STRATEGY_SETTINGS_PREFIX| + |option|
    ensures key[..|CFG_WAIT_STRATEGY_SETTINGS_PREFIX|] == CFG_WAIT_STRATEGY_SETTINGS_PREFIX
    ensures key[|CFG_WAIT_STRATEGY_SETTINGS_PREFIX|..] == option
  {
    CFG_WAIT_STRATEGY_SETTINGS_PREFIX + option
  }

  /** The option name a setting key carries, if the key is a wait-strategy setting at all. */
  function WaitStrategyOption(key: string): (option: Option<string>)
    ensures option.Some? <==> |key| >= |CFG_WAIT_STRATEGY_SETTINGS_PREFIX|
                              && key[..|CFG_WAIT_STRATEGY_SETTINGS_PREFIX|] == CFG_WAIT_STRATEGY_SETTINGS_PREFIX
  {
    var n := |CFG_WAIT_STRATEGY_SETTINGS_PREFIX|;
    if |key| >= n && key[..n] == CFG_WAIT_STRATEGY_SETTINGS_PREFIX then Some(key[n..]) else None
  }

  lemma WaitStrategyKeyRoundTrip(option: string)
    ensures WaitStrategyOption(WaitStrategySettingKey(option)) == Some(option)
  {
  }

  lemma WaitStrategyOptionRoundTrip(key: string)
    requires WaitStrategyOption(key).Some?
    ensures WaitStrategySettingKey(WaitStrategyOption(key).value) == key
  {
    var n := |CFG_WAIT_STRATEGY_SETTINGS_PREFIX|;
    assert key == key[..n] + key[n..];
  }

  /** DelayedResponseOperatorWaitStrategy, seen from the runtime environment: it is told about
      every forwarded message, learns its collector, and can be shut down. */
  class ResponseWaitStrategy {
    var collector: object?
    var notified: seq<StreamingDataMessage>
    var shutdownCalls: nat

    constructor ()
      ensures collector == null && notified == [] && shutdownCalls == 0
    {
      collector := null;
      notified := [];
      shutdownCalls := 0;
    }

    method SetDelayedResponseCollector(c: object)
      modifies this
      ensures collector == c
      ensures notified == old(notified) && shutdownCalls == old(shutdownCalls)
    {
      collector := c;
    }

    method OnMessage(m: StreamingDataMessage)
      modifies this
      ensures notified == old(notified) + [m]
      ensures collector == old(collector) && shutdownCalls == old(shutdownCalls)
    {
      notified := notified + [m];
    }

    method Shutdown()
      modifies this
      ensures shutdownCalls == old(shutdownCalls) + 1
      ensures collector == old(collector) && notified == old(notified)
    {
      shutdownCalls := shutdownCalls + 1;
    }
  }

  /** A delayed-response operator.  `window` holds the messages received since the last
      getResult; onMessage only adds to it (it produces no output), getResult hands out
      `fetch(window)` (possibly a null array, elements possibly null) and empties it. */
  class DelayedResponseOperator {
    const id: Option<string>
    const fetch: seq<StreamingDataMessage> -> Option<seq<Option<StreamingDataMessage>>>
    var window: seq<StreamingDataMessage>
    var waitStrategy: ResponseWaitStrategy?
    var shutdownCalls: nat

    constructor (id: Option<string>, fetch: seq<StreamingDataMessage> -> Option<seq<Option<StreamingDataMessage>>>)
      ensures this.id == id && this.fetch == fetch
      ensures window == [] && waitStrategy == null && shutdownCalls == 0
    {
      this.id := id;
      this.fetch := fetch;
      window := [];
      waitStrategy := null;
      shutdownCalls := 0;
    }

    function GetId(): Option<string> { id }

    /** The number of messages received since the last getResult. */
    function GetNumberOfMessagesSinceLastResult(): nat
      reads this
    {
      |window|
    }

    method OnMessage(m: StreamingDataMessage)
      modifies this
      ensures window == old(window) + [m]
      ensures GetNumberOfMessagesSinceLastResult() == old(GetNumberOfMessagesSinceLastResult()) + 1
      ensures waitStrategy == old(waitStrategy) && shutdownCalls == old(shutdownCalls)
    {
      window := window + [m];
    }

    method GetResult() returns (r: Option<seq<Option<StreamingDataMessage>>>)
      modifies this
      ensures r == fetch(old(window))
      ensures window == [] && GetNumberOfMessagesSinceLastResult() == 0
      ensures waitStrategy == old(waitStrategy) && shutdownCalls == old(shutdownCalls)
    {
      r := fetch(window);
      window := [];
    }

    method SetWaitStrategy(s: ResponseWaitStrategy)
      modifies this
      ensures waitStrategy == s
      ensures window == old(window) && shutdownCalls == old(shutdownCalls)
    {
      waitStrategy := s;
    }

    method Shutdown()
      modifies this
      ensures shutdownCalls == old(shutdownCalls) + 1
      ensures window == old(window) && waitStrategy == old(waitStrategy)
    {
      shutdownCalls := shutdownCalls + 1;
    }
  }
}
