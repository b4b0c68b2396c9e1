/** The DefaultWebSocketClient object: its lifecycle fields, the send loop and the
    receive loop, with the transport replaced by scripts of outcomes. */
module Client {
  import opened Common
  import opened Frames
  import opened Reassembly

  /** The steps the client takes on its transport, its send lock and its
      cancellation sources. */
  datatype Action =
    | CreateSource      // new CancellationTokenSource()
    | CancelSource      // _cancelTokenSource.Cancel()
    | CloseOutput       // _client.CloseOutputAsync(NormalClosure, "", None)
    | AwaitLoop         // await _task
    | ConnectTransport  // _client.ConnectAsync(uri, _cancelToken)
    | StartLoop         // _task = RunAsync(_cancelToken)
    | AcquireSendLock   // _sendLock.WaitAsync(_cancelToken) succeeded
    | ReleaseSendLock   // _sendLock.Release()
    | DisposeTransport  // _client.Dispose()

  /** DisconnectAsync's steps: cancel the internal source, try the close handshake only if
      the transport is open, then wait for the receive loop. */
  function DisconnectSteps(wasOpen: bool): (steps: seq<Action>)
    ensures |steps| >= 2 && steps[0] == CancelSource && steps[|steps| - 1] == AwaitLoop
    ensures CloseOutput in steps <==> wasOpen
    ensures forall k :: 0 <= k < |steps| && steps[k] == CloseOutput ==> 0 < k
  {
    [CancelSource] + (if wasOpen then [CloseOutput] else []) + [AwaitLoop]
  }

  /** Why a lifecycle call throws: the transport's connect fails, is cancelled, or is made
      on a disposed transport (ObjectDisposedException); or the awaited loop had faulted. */
  datatype ClientError = ConnectFailure | ConnectCanceled | TransportDisposed | LoopFault(error: ReceiveError)

  /** How a lifecycle call ends: normally, or with an exception. */
  datatype Completion = Done | Threw(error: ClientError)

  /** `await _task`: rethrows the error of a receive loop that faulted, and completes
      otherwise (also when no loop was ever started). */
  function AwaitResult(task: Option<RunOutcome>): (r: Completion)
    ensures r.Threw? <==> task.Some? && task.value.LoopFaulted?
    ensures r.Threw? ==> r.error == LoopFault(task.value.error)
  {
    match task
    case Some(LoopFaulted(e)) => Threw(LoopFault(e))
    case _ => Done
  }

  /** The receive task once awaited after its source was cancelled: the receive a loop is
      still waiting in is cancelled, and the loop swallows that and returns. */
  function Settled(task: Option<RunOutcome>): (t: Option<RunOutcome>)
    ensures t.Some? <==> task.Some?
    ensures t != Some(Pending)
    ensures task == Some(Pending) ==> t == Some(Aborted)
    ensures task != Some(Pending) ==> t == task
  {
    if task == Some(Pending) then Some(Aborted) else task
  }

  /** `_task` is never reset: once the receive loop has faulted, awaiting it again after
      any disconnect rethrows the same error, so every later DisconnectAsync, and every
      ConnectAsync, which disconnects first, fails with it. */
  lemma FaultPersists(task: Option<RunOutcome>, e: ReceiveError)
    requires task == Some(LoopFaulted(e))
    ensures Settled(task) == task
    ensures AwaitResult(Settled(task)) == Threw(LoopFault(e))
  {
  }

  /** Whether `_client.State` is still Open once the receive loop has ended this way: a
      receive that timed out, threw or was cancelled aborts the socket, and a close frame
      leaves it in CloseReceived. */
  predicate OpenAfter(outcome: RunOutcome)
  {
    !outcome.LoopFaulted? && !outcome.Aborted?
  }

  /** How a loop waiting in ReceiveAsync ends when the transport is disposed under it: the
      pending receive throws. Reported as an OperationCanceledException (`failure == None`)
      it is swallowed and the loop returns; any other exception faults the loop with the
      transport's error code. */
  function Interrupted(failure: Option<int>): (t: RunOutcome)
    ensures t != Pending && !OpenAfter(t)
    ensures t == Aborted <==> failure == None
    ensures t.LoopFaulted? <==> failure.Some?
    ensures t.LoopFaulted? ==> t.error == TransportError(failure.value)
  {
    match failure
    case None => Aborted
    case Some(code) => LoopFaulted(TransportError(code))
  }

  /** The two silent ends of the loop leave the socket differently: returning at a
      cancellation check leaves it open, a swallowed cancelled receive has aborted it. */
  lemma CancelOutcomesDiffer(decode: seq<byte> -> string)
    ensures Receive([false, true], [], decode).outcome == Exited
    ensures OpenAfter(Receive([false, true], [], decode).outcome)
    ensures Receive([false, false], [ReceiveCanceled], decode).outcome == Aborted
    ensures !OpenAfter(Receive([false, false], [ReceiveCanceled], decode).outcome)
    ensures AwaitResult(Some(Aborted)) == AwaitResult(Some(Exited)) == Done
  {
  }

  /** Whether `_client.State` is still Open at DisconnectAsync's test, just after the
      cancel: a loop still waiting has its pending receive cancelled, which aborts the
      socket. */
  predicate OpenAtClose(open: bool, task: Option<RunOutcome>)
  {
    open && task != Some(Pending)
  }

  /** A trace preceded by the dispatches already made. */
  function Join(log: seq<Dispatch>, t: RunTrace): RunTrace
  {
    RunTrace(log + t.dispatches, t.outcome)
  }

  class DefaultWebSocketClient {
    /** The SemaphoreSlim(1, 1) send lock, as a held flag. */
    var sendLockHeld: bool
    /** Whether the current `_cancelTokenSource` has been cancelled. */
    var sourceCanceled: bool
    /** Whether `_parentToken` is cancelled. */
    var parentCanceled: bool
    /** Whether `_cancelToken` is a token linked to `_parentToken` and the current source's
        token; false while it is still CancellationToken.None. */
    var tokenLinked: bool
    /** Whether `_client.State` is Open. */
    var transportOpen: bool
    /** `_task`: how the receive loop of the last successful connect ended. */
    var task: Option<RunOutcome>
    var isDisposed: bool
    /** What the client has done, in order. */
    var actions: seq<Action>
    /** Every `_client.SendAsync` call, in order. */
    var sent: seq<Frame>
    /** Every BinaryMessage and TextMessage event raised, in order. */
    var dispatched: seq<Dispatch>
    /** Whether `_client.Dispose()` has been called. */
    var transportDisposed: bool

    /** The send lock is free between calls; the transport is disposed only on the way to
        `_isDisposed`, and neither it nor a receive loop on it is still live then; while the
        transport is open, `_cancelToken` is linked to a live internal source, and so is a
        receive loop still waiting; a loop that ended by aborting the socket left it closed. */
    ghost predicate Valid()
      reads this
    {
      && !sendLockHeld
      && (transportDisposed ==> isDisposed && !transportOpen && task != Some(Pending))
      && (task.Some? && !OpenAfter(task.value) ==> !transportOpen)
      && (transportOpen ==> tokenLinked && !sourceCanceled)
      && (task == Some(Pending) ==> !sourceCanceled)
    }

    /** `_cancelToken.IsCancellationRequested`: a linked token is cancelled when either of
        its inputs is; CancellationToken.None never is. */
    predicate TokenCanceled()
      reads this
    {
      tokenLinked && (parentCanceled || sourceCanceled)
    }

    constructor ()
      ensures Valid()
      ensures !tokenLinked && !parentCanceled && !sourceCanceled && !TokenCanceled()
      ensures !transportOpen && task == None && !isDisposed && !transportDisposed
      ensures actions == [CreateSource] && sent == [] && dispatched == []
    {
      sendLockHeld := false;
      sourceCanceled := false;
      parentCanceled := false;
      tokenLinked := false;
      transportOpen := false;
      task := None;
      isDisposed := false;
      actions := [CreateSource];
      sent := [];
      dispatched := [];
      transportDisposed := false;
    }

    /** Dispose(bool disposing): does nothing once disposed; otherwise disposes the
        transport when `disposing`, which ends the receive a waiting loop is in (`failure`
        is how the disposed transport reports it, see Interrupted), and marks the client
        disposed. */
    method DisposeCore(disposing: bool, failure: Option<int>)
      requires Valid()
      modifies this`actions, this`transportDisposed, this`transportOpen, this`isDisposed, this`task
      ensures Valid() && isDisposed
      ensures actions == old(actions) + (if !old(isDisposed) && disposing then [DisposeTransport] else [])
      ensures transportOpen == (old(transportOpen) && (old(isDisposed) || !disposing))
      ensures transportDisposed == (old(transportDisposed) || (!old(isDisposed) && disposing))
      ensures task == (if !old(isDisposed) && disposing && old(task) == Some(Pending)
                       then Some(Interrupted(failure)) else old(task))
    {
      if !isDisposed {
        if disposing {
          actions := actions + [DisposeTransport];
          transportDisposed := true;
          transportOpen := false;
          if task == Some(Pending) {
            task := Some(Interrupted(failure));
          }
        }
        isDisposed := true;
      }
    }

    /** Dispose(): idempotent; the first call disposes the transport and ends a waiting
        loop's receive, a later call changes nothing. */
    method Dispose(failure: Option<int>)
      requires Valid()
      modifies this`actions, this`transportDisposed, this`transportOpen, this`isDisposed, this`task
      ensures Valid() && isDisposed
      ensures actions == old(actions) + (if old(isDisposed) then [] else [DisposeTransport])
      ensures transportOpen == (old(transportOpen) && old(isDisposed))
      ensures transportDisposed == (old(transportDisposed) || !old(isDisposed))
      ensures task == (if !old(isDisposed) && old(task) == Some(Pending)
                       then Some(Interrupted(failure)) else old(task))
    {
      DisposeCore(true, failure);
    }

    /** DisconnectAsync: cancels the internal source first, tries the close handshake only
        when the transport is open (whatever the handshake does is caught and dropped),
        then awaits the receive task, which rethrows the error of a loop that faulted. */
    method Disconnect() returns (r: Completion)
      requires Valid()
      modifies this`sourceCanceled, this`actions, this`transportOpen, this`task
      ensures Valid()
      ensures sourceCanceled && !transportOpen
      ensures actions == old(actions) + DisconnectSteps(OpenAtClose(old(transportOpen), old(task)))
      ensures r == AwaitResult(old(task)) && task == Settled(old(task))
    {
      sourceCanceled := true;
      actions := actions + [CancelSource];
      if task == Some(Pending) {
        // the cancel aborts the receive the loop is waiting in, and the socket with it
        transportOpen := false;
      }
      if transportOpen {
        // a failing handshake is caught and dropped
        actions := actions + [CloseOutput];
        transportOpen := false;
      }
      actions := actions + [AwaitLoop];
      r := AwaitResult(task);
      task := Settled(task);
    }

    /** ConnectAsync: disconnects first (a rethrown loop error ends the call there), then
        creates a fresh internal source and links it with the parent token, opens the
        transport with that token and starts the receive loop on it. `openSucceeds` is the
        outcome of the transport's own connect; `checks`, `results` script the loop. */
    method Connect(openSucceeds: bool, checks: seq<bool>, results: seq<ReceiveOutcome>, decode: seq<byte> -> string)
      returns (r: Completion)
      requires Valid() && WellFormedScript(results)
      modifies this`sourceCanceled, this`actions, this`transportOpen, this`task
      modifies this`tokenLinked, this`dispatched
      ensures Valid()
      ensures AwaitResult(old(task)).Threw? ==>
        && r == AwaitResult(old(task))
        && actions == old(actions) + DisconnectSteps(OpenAtClose(old(transportOpen), old(task)))
        && sourceCanceled && !transportOpen && tokenLinked == old(tokenLinked)
        && task == Settled(old(task)) && dispatched == old(dispatched)
      ensures AwaitResult(old(task)) == Done ==> !sourceCanceled && tokenLinked
      ensures AwaitResult(old(task)) == Done && (transportDisposed || parentCanceled || !openSucceeds) ==>
        && r == Threw(if transportDisposed then TransportDisposed
                      else if parentCanceled then ConnectCanceled else ConnectFailure)
        && actions == old(actions) + DisconnectSteps(OpenAtClose(old(transportOpen), old(task))) + [CreateSource, ConnectTransport]
        && !transportOpen && task == Settled(old(task)) && dispatched == old(dispatched)
      ensures AwaitResult(old(task)) == Done && !transportDisposed && !parentCanceled && openSucceeds ==>
        && r == Done
        && actions == old(actions) + DisconnectSteps(OpenAtClose(old(transportOpen), old(task))) + [CreateSource, ConnectTransport, StartLoop]
        && task == Some(Receive(checks, results, decode).outcome)
        && transportOpen == OpenAfter(Receive(checks, results, decode).outcome)
        && dispatched == old(dispatched) + Receive(checks, results, decode).dispatches
    {
      r := Disconnect();
      if r.Threw? {
        return;
      }
      r := Reopen(openSucceeds, checks, results, decode);
    }

    /** The part of ConnectAsync after a clean disconnect: a fresh internal source whose
        token is linked with the parent's, the transport's connect with that token (which
        throws on a disposed transport, then on a cancelled token), and the receive loop
        started on it when the connect succeeds. */
    method Reopen(openSucceeds: bool, checks: seq<bool>, results: seq<ReceiveOutcome>, decode: seq<byte> -> string)
      returns (r: Completion)
      requires Valid() && WellFormedScript(results) && !transportOpen && task != Some(Pending)
      modifies this`sourceCanceled, this`actions, this`tokenLinked, this`transportOpen
      modifies this`task, this`dispatched
      ensures Valid() && !sourceCanceled && tokenLinked
      ensures transportDisposed || parentCanceled || !openSucceeds ==>
        && r == Threw(if transportDisposed then TransportDisposed
                      else if parentCanceled then ConnectCanceled else ConnectFailure)
        && actions == old(actions) + [CreateSource, ConnectTransport]
        && !transportOpen && task == old(task) && dispatched == old(dispatched)
      ensures !transportDisposed && !parentCanceled && openSucceeds ==>
        && r == Done && actions == old(actions) + [CreateSource, ConnectTransport, StartLoop]
        && task == Some(Receive(checks, results, decode).outcome)
        && transportOpen == OpenAfter(Receive(checks, results, decode).outcome)
        && dispatched == old(dispatched) + Receive(checks, results, decode).dispatches
    {
      sourceCanceled := false;
      actions := actions + [CreateSource];
      tokenLinked := true;
      actions := actions + [ConnectTransport];
      if transportDisposed {
        r := Threw(TransportDisposed);
        return;
      }
      if TokenCanceled() {
        r := Threw(ConnectCanceled);
        return;
      }
      if !openSucceeds {
        r := Threw(ConnectFailure);
        return;
      }
      StartReceiving(checks, results, decode);
      r := Done;
    }

    /** The transport's connect has succeeded: `_task` is the receive loop on the current
        token, whose dispatches join the client's, and the transport is still open
        afterwards unless the loop ended on a receive error, a cancelled receive or a close
        frame. */
    method StartReceiving(checks: seq<bool>, results: seq<ReceiveOutcome>, decode: seq<byte> -> string)
      requires Valid() && WellFormedScript(results) && !transportOpen && !transportDisposed
      requires tokenLinked && !sourceCanceled
      modifies this`actions, this`transportOpen, this`task, this`dispatched
      ensures Valid() && actions == old(actions) + [StartLoop]
      ensures task == Some(Receive(checks, results, decode).outcome)
      ensures transportOpen == OpenAfter(Receive(checks, results, decode).outcome)
      ensures dispatched == old(dispatched) + Receive(checks, results, decode).dispatches
    {
      transportOpen := true;
      var outcome, log := Run(checks, results, decode);
      actions := actions + [StartLoop];
      task := Some(outcome);
      dispatched := dispatched + log;
      transportOpen := OpenAfter(outcome);
    }

    /** SetCancelToken: replaces the parent token and relinks `_cancelToken`, which from now
        on is cancelled exactly when the new parent or the current internal source is. */
    method SetCancelToken(parentIsCanceled: bool)
      requires Valid()
      modifies this`parentCanceled, this`tokenLinked
      ensures Valid()
      ensures parentCanceled == parentIsCanceled && tokenLinked
      ensures TokenCanceled() == (parentIsCanceled || sourceCanceled)
    {
      parentCanceled := parentIsCanceled;
      tokenLinked := true;
    }

    /** SendAsync: waits for the send lock (a cancelled token throws before the lock is
        taken), makes the transport calls of SendFrom under it and releases it on every
        way out of the frame loop. script[i] is the outcome of the i-th call. */
    method Send(data: seq<byte>, index: int, count: int, isText: bool, script: seq<SendOutcome>)
      returns (r: SendResult)
      requires Valid() && FrameCount(count) <= |script|
      modifies this`sendLockHeld, this`actions, this`sent
      ensures Valid()
      ensures old(TokenCanceled()) ==> r == Canceled && sent == old(sent) && actions == old(actions)
      ensures !old(TokenCanceled()) ==>
        (var t := SendFrom(|data|, index, count, isText, script, 0);
         && sent == old(sent) + t.frames && r == t.result
         && actions == old(actions) + [AcquireSendLock, ReleaseSendLock])
    {
      if TokenCanceled() {
        r := Canceled;
        return;
      }
      sendLockHeld := true;
      actions := actions + [AcquireSendLock];
      r := Transmit(data, index, count, isText, script);
      sendLockHeld := false;
      actions := actions + [ReleaseSendLock];
    }

    /** The frame loop of SendAsync, run while the send lock is held: frame i starts at
        index + i * 4096 and is marked final when it is the last one, but its segment is
        always (data, index + i * 4096, count); a segment that does not fit the buffer
        throws, and a timed-out or failed call ends the loop. */
    method Transmit(data: seq<byte>, index: int, count: int, isText: bool, script: seq<SendOutcome>)
      returns (r: SendResult)
      requires sendLockHeld && FrameCount(count) <= |script|
      modifies this`sent
      ensures var t := SendFrom(|data|, index, count, isText, script, 0);
        sent == old(sent) + t.frames && r == t.result
    {
      var frameCount := FrameCount(count);
      ghost var spec := SendFrom(|data|, index, count, isText, script, 0);
      var i := 0;
      var idx := index;
      r := Returned;
      while i < frameCount
        invariant 0 <= i && (frameCount > 0 ==> i <= frameCount)
        invariant idx == index + i * SendChunkSize
        invariant r == Returned
        invariant sent + SendFrom(|data|, index, count, isText, script, i).frames == old(sent) + spec.frames
        invariant SendFrom(|data|, index, count, isText, script, i).result == spec.result
        decreases frameCount - i
      {
        var isLast := i == frameCount - 1;
        // computed as planned, but the segment below is given `count`, not `frameSize`
        var frameSize := if isLast then count - i * SendChunkSize else SendChunkSize;
        assert frameSize == FrameSize(count, i);
        if !SegmentFits(|data|, idx, count) {
          r := Faulted(SegmentOutOfRange);
          break;
        }
        var frame := Frame(idx, count, MessageTypeOf(isText), isLast);
        ghost var next := SendFrom(|data|, index, count, isText, script, i + 1);
        assert script[i].Sent? ==>
          SendFrom(|data|, index, count, isText, script, i) == SendTrace([frame] + next.frames, next.result);
        assert (sent + [frame]) + next.frames == sent + ([frame] + next.frames);
        sent := sent + [frame];
        match script[i] {
          case Sent =>
          case TimedOut =>
            break;
          case Failed(code) =>
            r := Faulted(TransportFailure(code));
            break;
        }
        i, idx := i + 1, idx + SendChunkSize;
      }
    }

    /** RunAsync: reads chunks into one reusable 12 KB buffer, appends the first `Count`
        bytes of each to the accumulator until a chunk ends the message, dispatches the
        message by the final chunk's type and empties the accumulator; `checks[c]` is the
        cancellation flag read at the c-th check point. */
    method Run(checks: seq<bool>, results: seq<ReceiveOutcome>, decode: seq<byte> -> string)
      returns (outcome: RunOutcome, log: seq<Dispatch>)
      requires WellFormedScript(results)
      ensures RunTrace(log, outcome) == Receive(checks, results, decode)
    {
      var buffer := new byte[ReceiveChunkSize];
      var stream: seq<byte> := [];
      ghost var spec := Receive(checks, results, decode);
      var c, r := 0, 0;
      log := [];
      while true
        invariant c <= |checks| && r <= |results|
        invariant stream == []
        invariant spec == Join(log, ReceiveFrom(checks, results, decode, c, r, [], true))
        decreases |checks| - c
      {
        if c == |checks| {
          outcome := Pending;
          return;
        }
        var canceled := checks[c];
        c := c + 1;
        if canceled {
          outcome := Exited;
          return;
        }
        var result: Option<ReceiveResult> := None;
        while result.None? || !result.value.endOfMessage
          invariant c <= |checks| && r <= |results|
          invariant result.Some? ==> result.value.messageType != Close
          invariant result.Some? && result.value.endOfMessage ==>
            spec == Join(log + DispatchFor(result.value.messageType, stream, decode),
                         ReceiveFrom(checks, results, decode, c, r, [], true))
          invariant !(result.Some? && result.value.endOfMessage) ==>
            spec == Join(log, ReceiveFrom(checks, results, decode, c, r, stream, false))
          decreases |checks| - c
        {
          if c == |checks| {
            outcome := Pending;
            return;
          }
          canceled := checks[c];
          c := c + 1;
          if canceled {
            outcome := Exited;
            return;
          }
          if r == |results| {
            outcome := Pending;
            return;
          }
          var received := results[r];
          r := r + 1;
          match received
          case ReceiveTimedOut =>
            outcome := LoopFaulted(ConnectionTimedOut);
            return;
          case ReceiveCanceled =>
            outcome := Aborted;
            return;
          case ReceiveFailed(code) =>
            outcome := LoopFaulted(TransportError(code));
            return;
          case Received(res) =>
            if res.messageType == Close {
              match res.closeStatus
              case None =>
                outcome := LoopFaulted(MissingCloseStatus);
                return;
              case Some(status) =>
                outcome := LoopFaulted(RemoteClose(status, res.closeDesc));
                return;
            }
            // the transport fills the start of the reused buffer
            forall k | 0 <= k < |res.bytes| {
              buffer[k] := res.bytes[k];
            }
            assert buffer[..res.count] == Payload(res);
            stream := stream + buffer[..res.count];
            result := Some(res);
        }
        var message := stream;
        if result.value.messageType == Binary {
          log := log + [BinaryMessage(message, 0, |message|)];
        } else if result.value.messageType == Text {
          log := log + [TextMessage(decode(message))];
        }
        stream := [];
      }
    }
  }
}
