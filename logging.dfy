/**
  What StartDataLoggingAsync does, as a function of the channel's answers. The loop's environment
  is a finite script with one Tick per loop head: whether the cancellation token is set by the
  time the head checks it, the answer to that iteration's read, and whether cancellation arrives
  during that iteration's delay (the delay then throws, which the loop swallows). Once set, the
  token stays set.
 */
module Logging {
  import opened Wrappers
  import opened Ua
  import opened Channel
  import opened Requests

  datatype Tick = Tick(cancelRequested: bool, read: ReadAnswer, delayCancelled: bool)

  /** Why StartDataLoggingAsync threw. */
  datatype LoggingError =
    | ArgumentNull       // Nodes is null: Select rejects a null source
    | NullReference      // there is no channel
    | BadNodeId          // NodeId.Parse rejected a node
    | Transport          // RegisterNodes or Read threw
    | InvalidOperation   // null registration response, or null RegisteredNodeIds

  /** How the run ended: the loop observed cancellation, an exception escaped, or the script ran out first. */
  datatype LoggingOutcome = Cancelled | Threw(error: LoggingError) | StillRunning

  /** The batches handed to Trigger, in order, and how the run ended. */
  datatype LoggingRun = LoggingRun(batches: seq<seq<Obj>>, outcome: LoggingOutcome)

  /** `Results.Select(x => x.Value)`: every value, bad status or not, in read order. */
  function Values(results: seq<DataValue>): (r: seq<Obj>)
    ensures |r| == |results|
    ensures forall i :: 0 <= i < |r| ==> r[i] == results[i].value
  {
    seq(|results|, i requires 0 <= i < |results| => results[i].value)
  }

  /** Whether the token is set when loop head `n` checks it. */
  predicate CancelledAtHead(cancelled: bool, script: seq<Tick>, n: nat)
    requires n <= |script|
  {
    (if n == 0 then cancelled else script[n - 1].delayCancelled)
    || (n < |script| && script[n].cancelRequested)
  }

  /** The loop, from a head where the token is `cancelled`. */
  function Loop(cancelled: bool, script: seq<Tick>): LoggingRun
    decreases |script|
  {
    if cancelled then LoggingRun([], Cancelled)
    else if script == [] then LoggingRun([], StillRunning)
    else if script[0].cancelRequested then LoggingRun([], Cancelled)
    else
      match script[0].read
      case ReadThrew => LoggingRun([], Threw(Transport))
      case ReadResults(results) =>
        var rest := Loop(script[0].delayCancelled, script[1..]);
        LoggingRun([Values(results)] + rest.batches, rest.outcome)
  }

  /** One turn of the loop at position `i`: how Loop over the rest of the script unfolds there. */
  lemma LoopStep(cancelled: bool, script: seq<Tick>, i: nat)
    requires i < |script|
    ensures cancelled || script[i].cancelRequested ==> Loop(cancelled, script[i..]) == LoggingRun([], Cancelled)
    ensures !cancelled && !script[i].cancelRequested && script[i].read.ReadThrew? ==>
      Loop(cancelled, script[i..]) == LoggingRun([], Threw(Transport))
    ensures !cancelled && !script[i].cancelRequested && script[i].read.ReadResults? ==>
      Loop(cancelled, script[i..]) ==
        var rest := Loop(script[i].delayCancelled, script[i + 1..]);
        LoggingRun([Values(script[i].read.results)] + rest.batches, rest.outcome)
  {
    assert script[i..][0] == script[i];
    assert script[i..][1..] == script[i + 1..];
  }

  /** At the end of the script the loop has nothing more to deliver. */
  lemma LoopEnd(cancelled: bool, script: seq<Tick>)
    ensures Loop(cancelled, script[|script|..]) == LoggingRun([], if cancelled then Cancelled else StillRunning)
  {
    assert script[|script|..] == [];
  }

  /**
    The whole of StartDataLoggingAsync. Everything before the loop that fails throws at once,
    with no read and no Trigger; a registration with an empty RegisteredNodeIds is not a failure.
   */
  function StartLogging(nodes: Option<seq<string>>, parse: string -> Option<NodeId>, hasChannel: bool,
                        register: RegisterAnswer, script: seq<Tick>): (r: LoggingRun)
    ensures (nodes.None? || ParseAll(nodes.value, parse).None? || !hasChannel || !register.Registered?
             || register.registeredNodeIds.None?) ==> r.batches == [] && r.outcome.Threw?
    ensures ((register == NullResponse || register == Registered(None))
             && nodes.Some? && ParseAll(nodes.value, parse).Some? && hasChannel)
            ==> r.outcome == Threw(InvalidOperation)
    ensures nodes.Some? && ParseAll(nodes.value, parse).Some? && hasChannel
            && register.Registered? && register.registeredNodeIds.Some?
            ==> r == Loop(false, script)
  {
    if nodes.None? then LoggingRun([], Threw(ArgumentNull))
    else if ParseAll(nodes.value, parse).None? then LoggingRun([], Threw(BadNodeId))
    else if !hasChannel then LoggingRun([], Threw(NullReference))
    else
      match register
      case RegisterThrew => LoggingRun([], Threw(Transport))
      case NullResponse => LoggingRun([], Threw(InvalidOperation))
      case Registered(None) => LoggingRun([], Threw(InvalidOperation))
      case Registered(Some(_)) => Loop(false, script)
  }

  /**
    A registration that returns an empty array of ids is not a failure: the loop runs, reading
    an empty batch each time, and it can only end by cancellation or a failed read.
   */
  lemma EmptyRegistrationDoesNotThrow(nodes: seq<string>, parse: string -> Option<NodeId>, script: seq<Tick>)
    requires ParseAll(nodes, parse).Some?
    ensures StartLogging(Some(nodes), parse, true, Registered(Some([])), script) == Loop(false, script)
    ensures StartLogging(Some(nodes), parse, true, Registered(Some([])), script).outcome != Threw(InvalidOperation)
  {
  }

  /**
    Each batch is one read: batch k comes from tick k, whose head saw the token unset and whose
    read answered; Trigger receives that read's values unfiltered and in order.
   */
  lemma {:induction false} LoopBatchesAreReads(cancelled: bool, script: seq<Tick>)
    ensures |Loop(cancelled, script).batches| <= |script|
    ensures forall k :: 0 <= k < |Loop(cancelled, script).batches| ==>
      && !CancelledAtHead(cancelled, script, k)
      && script[k].read.ReadResults?
      && Loop(cancelled, script).batches[k] == Values(script[k].read.results)
    decreases |script|
  {
    var run := Loop(cancelled, script);
    if !cancelled && script != [] && !script[0].cancelRequested && script[0].read.ReadResults? {
      var rest := Loop(script[0].delayCancelled, script[1..]);
      LoopBatchesAreReads(script[0].delayCancelled, script[1..]);
      forall k | 0 <= k < |run.batches|
        ensures !CancelledAtHead(cancelled, script, k)
        ensures script[k].read.ReadResults? && run.batches[k] == Values(script[k].read.results)
      {
        if k > 0 {
          assert run.batches[k] == rest.batches[k - 1];
          assert !CancelledAtHead(script[0].delayCancelled, script[1..], k - 1);
          assert script[1..][k - 1] == script[k];
          if k - 1 == 0 {
            assert CancelledAtHead(cancelled, script, k) == CancelledAtHead(script[0].delayCancelled, script[1..], 0);
          } else {
            assert script[1..][k - 2] == script[k - 1];
          }
        }
      }
    }
  }

  /** The loop ends with Cancelled exactly when the head after the last batch saw the token set. */
  lemma {:induction false} LoopCancelledIffObserved(cancelled: bool, script: seq<Tick>)
    ensures |Loop(cancelled, script).batches| <= |script|
    ensures Loop(cancelled, script).outcome == Cancelled <==>
      CancelledAtHead(cancelled, script, |Loop(cancelled, script).batches|)
    ensures Loop(cancelled, script).outcome == StillRunning ==> |Loop(cancelled, script).batches| == |script|
    ensures Loop(cancelled, script).outcome.Threw? ==>
      var n := |Loop(cancelled, script).batches|;
      Loop(cancelled, script).outcome == Threw(Transport) && n < |script| && script[n].read.ReadThrew?
    decreases |script|
  {
    if !cancelled && script != [] && !script[0].cancelRequested && script[0].read.ReadResults? {
      var rest := Loop(script[0].delayCancelled, script[1..]);
      LoopCancelledIffObserved(script[0].delayCancelled, script[1..]);
      var n := |rest.batches|;
      assert |Loop(cancelled, script).batches| == n + 1;
      if n + 1 < |script| {
        assert script[1..][n] == script[n + 1];
      }
      if n > 0 {
        assert script[1..][n - 1] == script[n];
      }
      assert CancelledAtHead(cancelled, script, n + 1) == CancelledAtHead(script[0].delayCancelled, script[1..], n);
    }
  }

  /**
    Cancellation stops the loop promptly: a token set before head k allows at most k batches,
    and one set during the delay of iteration k at most k + 1.
   */
  lemma PromptCancellation(cancelled: bool, script: seq<Tick>, k: nat)
    requires k < |script|
    ensures script[k].cancelRequested ==> |Loop(cancelled, script).batches| <= k
    ensures script[k].delayCancelled ==> |Loop(cancelled, script).batches| <= k + 1
  {
    LoopBatchesAreReads(cancelled, script);
    var n := |Loop(cancelled, script).batches|;
    if script[k].cancelRequested && n > k {
      assert CancelledAtHead(cancelled, script, k);
    }
    if script[k].delayCancelled && n > k + 1 {
      assert CancelledAtHead(cancelled, script, k + 1);
    }
  }
}
