/**
 * The consumption loop of the analytics processor: fetch one message from
 * the log, hand its value to the message handler, count the outcome, and
 * commit the message only when handling succeeded; repeat until cancelled,
 * sleeping one second after every failed iteration.
 *
 * What the environment does in one iteration is an input (StepEnv): the
 * fetch result, whether each analytics store succeeds, whether the commit
 * succeeds, and the measured processing time. Nothing is assumed about
 * which message a fetch returns next.
 */
module AnalyticsLoop {
  import opened Models
  import opened Validation
  import opened AnalyticsProcessing
  import opened MessageHandling

  /** A log message: its position in the partition and its payload. */
  datatype Message = Message(offset: int, value: Bytes)

  /**
   * The environment of one iteration: the message the fetch returns (None
   * when it fails or times out), the outcome of each analytics store, the
   * outcome of the commit, and the processing time the clock measures.
   */
  datatype StepEnv = StepEnv(fetched: Option<Message>, storeOk: nat -> bool, commitOk: bool, latency: nat)

  datatype StepError = FetchFailed | HandlerFailed(handle: HandleError)

  /**
   * The observable state of the loop: the processed and failed counters, the
   * recorded processing times, every commit call, the commits that
   * succeeded, and the number of one-second back-off sleeps.
   */
  datatype LoopState = LoopState(
    processed: nat,
    failed: nat,
    latencies: seq<nat>,
    commitCalls: seq<Message>,
    committed: seq<Message>,
    sleeps: nat)

  /** What one processNextMessage returns: a fetch error, the handler's error, or nil. */
  function StepErr(env: StepEnv, unmarshal: Bytes -> Option<TrafficData>): (e: Option<StepError>)
    ensures env.fetched.None? ==> e == Some(FetchFailed)
    ensures env.fetched.Some? ==>
      var h := Handle(env.fetched.value.value, unmarshal, env.storeOk);
      && (e.None? <==> h.err.None?)
      && (h.err.Some? ==> e == Some(HandlerFailed(h.err.value)))
  {
    match env.fetched
    case None => Some(FetchFailed)
    case Some(msg) =>
      var h := Handle(msg.value, unmarshal, env.storeOk);
      if h.err.None? then None else Some(HandlerFailed(h.err.value))
  }

  /** The analytics results one processNextMessage writes. */
  function StepWritten(env: StepEnv, unmarshal: Bytes -> Option<TrafficData>): (w: seq<AnalyticsResult>)
    ensures env.fetched.None? ==> w == []
    ensures |w| <= 5
  {
    match env.fetched
    case None => []
    case Some(msg) => Handle(msg.value, unmarshal, env.storeOk).written
  }

  /**
   * The state after one processNextMessage. A fetched message bumps exactly
   * one counter; the commit is called, once and with that message, exactly
   * when handling succeeded, and only then is a processing time recorded; a
   * failed fetch changes nothing; no sleep happens here.
   */
  function NextState(s: LoopState, env: StepEnv, unmarshal: Bytes -> Option<TrafficData>): (t: LoopState)
    ensures t.processed + t.failed == s.processed + s.failed + (if env.fetched.Some? then 1 else 0)
    ensures t.processed == s.processed + (if StepErr(env, unmarshal).None? then 1 else 0)
    ensures t.commitCalls == s.commitCalls + (if StepErr(env, unmarshal).None? then [env.fetched.value] else [])
    ensures t.latencies == s.latencies + (if StepErr(env, unmarshal).None? then [env.latency] else [])
    ensures t.committed == s.committed +
      (if StepErr(env, unmarshal).None? && env.commitOk then [env.fetched.value] else [])
    ensures env.fetched.None? ==> t == s
    ensures t.sleeps == s.sleeps
  {
    match env.fetched
    case None => s
    case Some(msg) =>
      if Handle(msg.value, unmarshal, env.storeOk).err.Some? then
        s.(failed := s.failed + 1)
      else
        s.(processed := s.processed + 1,
           latencies := s.latencies + [env.latency],
           commitCalls := s.commitCalls + [msg],
           committed := if env.commitOk then s.committed + [msg] else s.committed)
  }

  /** One iteration of Start: a processNextMessage, then a one-second sleep if it returned an error. */
  function Tick(s: LoopState, env: StepEnv, unmarshal: Bytes -> Option<TrafficData>): (t: LoopState)
    ensures t.sleeps == s.sleeps + (if StepErr(env, unmarshal).Some? then 1 else 0)
    ensures t.(sleeps := 0) == NextState(s, env, unmarshal).(sleeps := 0)
  {
    var t := NextState(s, env, unmarshal);
    if StepErr(env, unmarshal).Some? then t.(sleeps := t.sleeps + 1) else t
  }

  /**
   * The state after the iterations `envs`, in order. The counters never go
   * down, and the logs (processing times, commit calls, commits) only grow
   * at their ends.
   */
  function Run(s: LoopState, envs: seq<StepEnv>, unmarshal: Bytes -> Option<TrafficData>): (r: LoopState)
    ensures envs == [] ==> r == s
    ensures s.processed <= r.processed && s.failed <= r.failed && s.sleeps <= r.sleeps
    ensures s.latencies <= r.latencies && s.commitCalls <= r.commitCalls && s.committed <= r.committed
    decreases |envs|
  {
    if envs == [] then s
    else Tick(Run(s, envs[..|envs| - 1], unmarshal), envs[|envs| - 1], unmarshal)
  }

  /** The analytics results written during the iterations `envs`, in order. */
  function RunWritten(envs: seq<StepEnv>, unmarshal: Bytes -> Option<TrafficData>): seq<AnalyticsResult>
    decreases |envs|
  {
    if envs == [] then []
    else RunWritten(envs[..|envs| - 1], unmarshal) + StepWritten(envs[|envs| - 1], unmarshal)
  }

  /** Running one more iteration is one more Tick. */
  lemma RunExtends(s: LoopState, envs: seq<StepEnv>, i: nat, unmarshal: Bytes -> Option<TrafficData>)
    requires i < |envs|
    ensures Run(s, envs[..i + 1], unmarshal) == Tick(Run(s, envs[..i], unmarshal), envs[i], unmarshal)
    ensures RunWritten(envs[..i + 1], unmarshal) == RunWritten(envs[..i], unmarshal) + StepWritten(envs[i], unmarshal)
  {
    assert envs[..i + 1][..i] == envs[..i];
  }

  /** How many iterations of `envs` fetched a message. */
  function Fetched(envs: seq<StepEnv>): nat
    decreases |envs|
  {
    if envs == [] then 0
    else Fetched(envs[..|envs| - 1]) + (if envs[|envs| - 1].fetched.Some? then 1 else 0)
  }

  /** How many iterations of `envs` ended in an error (and so in a sleep). */
  function Errors(envs: seq<StepEnv>, unmarshal: Bytes -> Option<TrafficData>): nat
    decreases |envs|
  {
    if envs == [] then 0
    else Errors(envs[..|envs| - 1], unmarshal) + (if StepErr(envs[|envs| - 1], unmarshal).Some? then 1 else 0)
  }

  /** The messages whose handling succeeded during `envs`, in order. */
  function Handled(envs: seq<StepEnv>, unmarshal: Bytes -> Option<TrafficData>): seq<Message>
    decreases |envs|
  {
    if envs == [] then []
    else
      var last := envs[|envs| - 1];
      Handled(envs[..|envs| - 1], unmarshal) + (if StepErr(last, unmarshal).None? then [last.fetched.value] else [])
  }

  /** The processing times recorded during `envs`: one per successfully handled message, in order. */
  function Latencies(envs: seq<StepEnv>, unmarshal: Bytes -> Option<TrafficData>): seq<nat>
    decreases |envs|
  {
    if envs == [] then []
    else
      var last := envs[|envs| - 1];
      Latencies(envs[..|envs| - 1], unmarshal) + (if StepErr(last, unmarshal).None? then [last.latency] else [])
  }

  /** The messages whose handling succeeded and whose commit the log accepted during `envs`, in order. */
  function Committed(envs: seq<StepEnv>, unmarshal: Bytes -> Option<TrafficData>): seq<Message>
    decreases |envs|
  {
    if envs == [] then []
    else
      var last := envs[|envs| - 1];
      Committed(envs[..|envs| - 1], unmarshal) +
        (if StepErr(last, unmarshal).None? && last.commitOk then [last.fetched.value] else [])
  }

  /**
   * Over any run, the recorded processing times are exactly the measured
   * times of the successful iterations, and the offset advances exactly past
   * the successfully handled messages whose commit the log accepted: never
   * past a message whose handling failed.
   */
  lemma {:induction false} RunLogs(s: LoopState, envs: seq<StepEnv>, unmarshal: Bytes -> Option<TrafficData>)
    ensures var t := Run(s, envs, unmarshal);
      && t.latencies == s.latencies + Latencies(envs, unmarshal)
      && t.committed == s.committed + Committed(envs, unmarshal)
    decreases |envs|
  {
    if envs != [] {
      var init := envs[..|envs| - 1];
      RunLogs(s, init, unmarshal);
      var u := Run(s, init, unmarshal);
      assert s.latencies + Latencies(init, unmarshal) + (if StepErr(envs[|envs| - 1], unmarshal).None? then [envs[|envs| - 1].latency] else [])
        == s.latencies + Latencies(envs, unmarshal);
      assert s.committed + Committed(init, unmarshal)
          + (if StepErr(envs[|envs| - 1], unmarshal).None? && envs[|envs| - 1].commitOk then [envs[|envs| - 1].fetched.value] else [])
        == s.committed + Committed(envs, unmarshal);
    }
  }

  /** Every message the log accepted a commit for during `envs` was successfully handled then. */
  lemma {:induction false} CommittedWereHandled(envs: seq<StepEnv>, unmarshal: Bytes -> Option<TrafficData>)
    ensures forall m :: m in Committed(envs, unmarshal) ==> m in Handled(envs, unmarshal)
    ensures |Committed(envs, unmarshal)| <= |Handled(envs, unmarshal)|
    decreases |envs|
  {
    if envs != [] {
      CommittedWereHandled(envs[..|envs| - 1], unmarshal);
    }
  }

  /**
   * Over any run, every fetched message bumps exactly one of the two
   * counters, every failed iteration sleeps once, and the commit calls are
   * exactly the successfully handled messages, each with one processing time.
   */
  lemma {:induction false} RunAccounting(s: LoopState, envs: seq<StepEnv>, unmarshal: Bytes -> Option<TrafficData>)
    ensures var t := Run(s, envs, unmarshal);
      && t.processed + t.failed == s.processed + s.failed + Fetched(envs)
      && t.sleeps == s.sleeps + Errors(envs, unmarshal)
      && t.commitCalls == s.commitCalls + Handled(envs, unmarshal)
      && t.processed == s.processed + |Handled(envs, unmarshal)|
      && |t.latencies| == |s.latencies| + |Handled(envs, unmarshal)|
    decreases |envs|
  {
    if envs != [] {
      RunAccounting(s, envs[..|envs| - 1], unmarshal);
    }
  }

  /**
   * A message whose handling succeeded decodes to a reading that passes the
   * processor's validation, and all five of its results were stored.
   */
  lemma HandledMessageWasValid(env: StepEnv, unmarshal: Bytes -> Option<TrafficData>)
    requires env.fetched.Some? && StepErr(env, unmarshal).None?
    ensures unmarshal(env.fetched.value.value).Some?
    ensures ValidateReading(unmarshal(env.fetched.value.value)).Pass?
    ensures StepWritten(env, unmarshal) == Analysis(unmarshal(env.fetched.value.value).value)
  {
    HandleSucceedsIff(env.fetched.value.value, unmarshal, env.storeOk);
  }

  /**
   * Over any run, the loop never commits a message whose payload does not
   * decode to a valid reading: a poison message is never committed, however
   * many times it is fetched.
   */
  lemma {:induction false} CommittedMessagesWereValid(s: LoopState, envs: seq<StepEnv>, unmarshal: Bytes -> Option<TrafficData>)
    ensures var t := Run(s, envs, unmarshal);
      forall k :: |s.commitCalls| <= k < |t.commitCalls| ==>
        unmarshal(t.commitCalls[k].value).Some? && ValidateReading(unmarshal(t.commitCalls[k].value)).Pass?
    decreases |envs|
  {
    if envs != [] {
      var init := envs[..|envs| - 1];
      var last := envs[|envs| - 1];
      CommittedMessagesWereValid(s, init, unmarshal);
      RunAccounting(s, init, unmarshal);
      if StepErr(last, unmarshal).None? {
        HandledMessageWasValid(last, unmarshal);
      }
    }
  }

  /** Every message the log accepted a commit for during `envs` decodes to a valid reading. */
  lemma {:induction false} CommittedAreValid(envs: seq<StepEnv>, unmarshal: Bytes -> Option<TrafficData>)
    ensures forall m :: m in Committed(envs, unmarshal) ==>
      unmarshal(m.value).Some? && ValidateReading(unmarshal(m.value)).Pass?
    decreases |envs|
  {
    if envs != [] {
      var last := envs[|envs| - 1];
      CommittedAreValid(envs[..|envs| - 1], unmarshal);
      if StepErr(last, unmarshal).None? {
        HandledMessageWasValid(last, unmarshal);
      }
    }
  }

  /**
   * Over any run, the offset only ever advances past messages whose payload
   * decodes to a valid reading.
   */
  lemma OffsetAdvancesOnlyPastValid(s: LoopState, envs: seq<StepEnv>, unmarshal: Bytes -> Option<TrafficData>)
    ensures var t := Run(s, envs, unmarshal);
      forall k :: |s.committed| <= k < |t.committed| ==>
        unmarshal(t.committed[k].value).Some? && ValidateReading(unmarshal(t.committed[k].value)).Pass?
  {
    var t := Run(s, envs, unmarshal);
    RunLogs(s, envs, unmarshal);
    CommittedAreValid(envs, unmarshal);
    forall k | |s.committed| <= k < |t.committed|
      ensures unmarshal(t.committed[k].value).Some? && ValidateReading(unmarshal(t.committed[k].value)).Pass?
    {
      assert t.committed[k] == Committed(envs, unmarshal)[k - |s.committed|];
    }
  }

  /** The consumer loop, with the counters and histogram it reports and the log client it commits through. */
  class AnalyticsService {
    const handler: MessageHandler
    var processed: nat
    var failed: nat
    var latencies: seq<nat>
    var commitCalls: seq<Message>
    var committed: seq<Message>
    var sleeps: nat

    function State(): LoopState
      reads this
    {
      LoopState(processed, failed, latencies, commitCalls, committed, sleeps)
    }

    constructor (handler: MessageHandler)
      ensures this.handler == handler
      ensures State() == LoopState(0, 0, [], [], [], 0)
    {
      this.handler := handler;
      processed, failed, latencies := 0, 0, [];
      commitCalls, committed, sleeps := [], [], 0;
    }

    /** Asks the log to advance the group's offset past `msg`; `ok` is whether it does. */
    method CommitMessages(msg: Message, ok: bool) returns (succeeded: bool)
      modifies this
      ensures succeeded == ok
      ensures commitCalls == old(commitCalls) + [msg]
      ensures committed == if ok then old(committed) + [msg] else old(committed)
      ensures processed == old(processed) && failed == old(failed)
      ensures latencies == old(latencies) && sleeps == old(sleeps)
    {
      commitCalls := commitCalls + [msg];
      if ok {
        committed := committed + [msg];
      }
      succeeded := ok;
    }

    /**
     * Fetches, handles, counts and (on success only) commits one message. A
     * commit failure is only logged: the step still returns nil.
     */
    method ProcessNextMessage(env: StepEnv, unmarshal: Bytes -> Option<TrafficData>) returns (err: Option<StepError>)
      modifies this, handler.processor
      ensures State() == NextState(old(State()), env, unmarshal)
      ensures handler.processor.results == old(handler.processor.results) + StepWritten(env, unmarshal)
      ensures err == StepErr(env, unmarshal)
    {
      if env.fetched.None? {
        return Some(FetchFailed);
      }
      var msg := env.fetched.value;
      var handleErr := handler.HandleMessage(msg.value, unmarshal, env.storeOk);
      if handleErr.Some? {
        failed := failed + 1;
        return Some(HandlerFailed(handleErr.value));
      }
      processed := processed + 1;
      latencies := latencies + [env.latency];
      var _ := CommitMessages(msg, env.commitOk);
      return None;
    }

    /** One pass of Start's loop body: a step, and a one-second sleep when it returned an error. */
    method Iterate(env: StepEnv, unmarshal: Bytes -> Option<TrafficData>)
      modifies this, handler.processor
      ensures State() == Tick(old(State()), env, unmarshal)
      ensures handler.processor.results == old(handler.processor.results) + StepWritten(env, unmarshal)
    {
      var err := ProcessNextMessage(env, unmarshal);
      if err.Some? {
        sleeps := sleeps + 1;  // the one-second back-off sleep
      }
    }

    /**
     * Runs iterations until cancellation is observed. Cancellation is checked
     * only before each iteration; `envs[i]` is what happens in iteration i,
     * and the check before iteration |envs| is the one that sees it. Always
     * returns nil.
     */
    method Start(envs: seq<StepEnv>, unmarshal: Bytes -> Option<TrafficData>) returns (err: Option<StepError>)
      modifies this, handler.processor
      ensures State() == Run(old(State()), envs, unmarshal)
      ensures handler.processor.results == old(handler.processor.results) + RunWritten(envs, unmarshal)
      ensures err.None?
    {
      var i := 0;
      while i < |envs|
        invariant 0 <= i <= |envs|
        invariant State() == Run(old(State()), envs[..i], unmarshal)
        invariant handler.processor.results == old(handler.processor.results) + RunWritten(envs[..i], unmarshal)
      {
        RunExtends(old(State()), envs, i, unmarshal);
        Iterate(envs[i], unmarshal);
        assert old(handler.processor.results) + RunWritten(envs[..i], unmarshal) + StepWritten(envs[i], unmarshal)
          == old(handler.processor.results) + RunWritten(envs[..i + 1], unmarshal);
        i := i + 1;
      }
      assert envs[..|envs|] == envs;
      return None;
    }
  }
}
