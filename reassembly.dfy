/** The receive loop of DefaultWebSocketClient.RunAsync as an automaton over a script:
    the cancellation flag read at each check point and the result of each receive call. */
module Reassembly {
  import opened Common

  /** Size of the reusable receive buffer (ReceiveChunkSize, 12 KB). */
  const ReceiveChunkSize: int := 12 * 1024

  /** A WebSocketReceiveResult together with the bytes the transport wrote at the start of
      the receive buffer. */
  datatype ReceiveResult = ReceiveResult(
    messageType: MessageType,
    count: int,
    bytes: seq<byte>,
    endOfMessage: bool,
    closeStatus: Option<int>,
    closeDesc: string)

  /** What one `_client.ReceiveAsync` call does: delivers a result, times out (the Win32
      timeout the source catches), is cancelled, or throws anything else. */
  datatype ReceiveOutcome =
    | Received(result: ReceiveResult)
    | ReceiveTimedOut
    | ReceiveCanceled
    | ReceiveFailed(code: int)

  /** The errors that end the loop with a faulted task. */
  datatype ReceiveError =
    | ConnectionTimedOut
    | RemoteClose(status: int, description: string)
    | MissingCloseStatus
    | TransportError(code: int)

  /** How the loop ends: it returns at a cancellation check (Exited), it returns because a
      cancelled receive's OperationCanceledException is swallowed, which also aborts the
      socket (Aborted), it throws, or the script ends while it is still waiting. */
  datatype RunOutcome = Exited | Aborted | LoopFaulted(error: ReceiveError) | Pending

  /** One raised event: BinaryMessage(array, 0, array.Length) or TextMessage(text). */
  datatype Dispatch = BinaryMessage(data: seq<byte>, offset: int, length: int) | TextMessage(text: string)

  datatype RunTrace = RunTrace(dispatches: seq<Dispatch>, outcome: RunOutcome)

  /** What the transport guarantees of a result: it reports no more bytes than it wrote,
      and it wrote no more than the buffer holds. */
  predicate WellFormed(r: ReceiveResult)
  {
    0 <= r.count <= |r.bytes| <= ReceiveChunkSize
  }

  predicate WellFormedScript(results: seq<ReceiveOutcome>)
  {
    forall k :: 0 <= k < |results| && results[k].Received? ==> WellFormed(results[k].result)
  }

  /** `buffer[0 .. result.Count)`, the bytes one chunk adds to the accumulator. */
  function Payload(r: ReceiveResult): seq<byte>
    requires WellFormed(r)
  {
    r.bytes[..r.count]
  }

  /** The dispatch of a completed message, chosen by the final chunk's type. */
  function DispatchFor(t: MessageType, message: seq<byte>, decode: seq<byte> -> string): seq<Dispatch>
  {
    match t
    case Binary => [BinaryMessage(message, 0, |message|)]
    case Text => [TextMessage(decode(message))]
    case Close => []
  }

  /** The loop from check point c and receive call r on, with `acc` accumulated so far;
      `atHead` is the outer `while` test, otherwise the inner `do` loop's test is next. */
  function ReceiveFrom(checks: seq<bool>, results: seq<ReceiveOutcome>, decode: seq<byte> -> string,
                       c: nat, r: nat, acc: seq<byte>, atHead: bool): RunTrace
    requires WellFormedScript(results)
    decreases |checks| - c
  {
    if c >= |checks| then RunTrace([], Pending)
    else if checks[c] then RunTrace([], Exited)
    else if atHead then ReceiveFrom(checks, results, decode, c + 1, r, [], false)
    else if r >= |results| then RunTrace([], Pending)
    else
      match results[r]
      case ReceiveTimedOut => RunTrace([], LoopFaulted(ConnectionTimedOut))
      case ReceiveCanceled => RunTrace([], Aborted)
      case ReceiveFailed(code) => RunTrace([], LoopFaulted(TransportError(code)))
      case Received(res) =>
        if res.messageType == Close then
          match res.closeStatus
          case None => RunTrace([], LoopFaulted(MissingCloseStatus))
          case Some(status) => RunTrace([], LoopFaulted(RemoteClose(status, res.closeDesc)))
        else
          var acc' := acc + Payload(res);
          if !res.endOfMessage then ReceiveFrom(checks, results, decode, c + 1, r + 1, acc', false)
          else
            var rest := ReceiveFrom(checks, results, decode, c + 1, r + 1, [], true);
            RunTrace(DispatchFor(res.messageType, acc', decode) + rest.dispatches, rest.outcome)
  }

  /** The whole run of the loop on a script. */
  function Receive(checks: seq<bool>, results: seq<ReceiveOutcome>, decode: seq<byte> -> string): RunTrace
    requires WellFormedScript(results)
  {
    ReceiveFrom(checks, results, decode, 0, 0, [], true)
  }

  /** A chunk that carries message data (not a close notification). */
  predicate DataChunk(o: ReceiveOutcome)
  {
    o.Received? && o.result.messageType != Close && WellFormed(o.result)
  }

  /** A run of data chunks none of which ends its message. */
  predicate Fragments(msg: seq<ReceiveOutcome>)
  {
    forall k :: 0 <= k < |msg| ==> DataChunk(msg[k]) && !msg[k].result.endOfMessage
  }

  /** The concatenated payloads of a run of data chunks. */
  function Payloads(chunks: seq<ReceiveOutcome>): seq<byte>
    requires forall k :: 0 <= k < |chunks| ==> DataChunk(chunks[k])
  {
    if |chunks| == 0 then []
    else
      assert DataChunk(chunks[0]);
      Payload(chunks[0].result) + Payloads(chunks[1..])
  }

  lemma {:induction false} PayloadsAppend(chunks: seq<ReceiveOutcome>, last: ReceiveOutcome)
    requires forall k :: 0 <= k < |chunks| ==> DataChunk(chunks[k])
    requires DataChunk(last)
    ensures forall k :: 0 <= k < |chunks + [last]| ==> DataChunk((chunks + [last])[k])
    ensures Payloads(chunks + [last]) == Payloads(chunks) + Payload(last.result)
  {
    if chunks != [] {
      assert (chunks + [last])[1..] == chunks[1..] + [last];
      PayloadsAppend(chunks[1..], last);
    }
  }

  /** No cancellation at the next n check points from c. */
  predicate Uncanceled(checks: seq<bool>, c: nat, n: nat)
  {
    c + n <= |checks| && forall j :: c <= j < c + n ==> !checks[j]
  }

  /** Reading fragments only appends their payloads to the accumulator: the loop, having
      read the fragments `msg` (each after an uncancelled check), is where it would be with
      `acc + Payloads(msg)` in hand, and has dispatched nothing. */
  lemma {:induction false} Accumulate(checks: seq<bool>, results: seq<ReceiveOutcome>, decode: seq<byte> -> string,
                                       c: nat, r: nat, acc: seq<byte>, msg: seq<ReceiveOutcome>)
    requires WellFormedScript(results)
    requires Uncanceled(checks, c, |msg|)
    requires r + |msg| <= |results| && results[r .. r + |msg|] == msg
    requires Fragments(msg)
    ensures ReceiveFrom(checks, results, decode, c, r, acc, false)
         == ReceiveFrom(checks, results, decode, c + |msg|, r + |msg|, acc + Payloads(msg), false)
    decreases |msg|
  {
    if msg != [] {
      var head := msg[0];
      assert results[r] == head && DataChunk(head) && !head.result.endOfMessage;
      assert !checks[c];
      var acc' := acc + Payload(head.result);
      assert ReceiveFrom(checks, results, decode, c, r, acc, false)
          == ReceiveFrom(checks, results, decode, c + 1, r + 1, acc', false);
      assert results[r + 1 .. r + |msg|] == msg[1..];
      Accumulate(checks, results, decode, c + 1, r + 1, acc', msg[1..]);
      assert acc' + Payloads(msg[1..]) == acc + Payloads(msg);
    } else {
      assert acc + Payloads(msg) == acc;
    }
  }

  /** A message of fragments `msg` closed by a final data chunk `last`, with no cancellation
      at its check points, produces exactly one dispatch: the concatenation of all its chunks'
      payloads, classified by the final chunk's type; the loop is then back at its head with
      an empty accumulator. */
  lemma CompleteMessage(checks: seq<bool>, results: seq<ReceiveOutcome>, decode: seq<byte> -> string,
                        c: nat, r: nat, msg: seq<ReceiveOutcome>, last: ReceiveOutcome)
    requires WellFormedScript(results)
    requires Uncanceled(checks, c, |msg| + 2)
    requires r + |msg| + 1 <= |results| && results[r .. r + |msg| + 1] == msg + [last]
    requires Fragments(msg)
    requires DataChunk(last) && last.result.endOfMessage
    ensures forall k :: 0 <= k < |msg + [last]| ==> DataChunk((msg + [last])[k])
    ensures var rest := ReceiveFrom(checks, results, decode, c + |msg| + 2, r + |msg| + 1, [], true);
      ReceiveFrom(checks, results, decode, c, r, [], true)
        == RunTrace(DispatchFor(last.result.messageType, Payloads(msg + [last]), decode) + rest.dispatches, rest.outcome)
  {
    PayloadsAppend(msg, last);
    assert results[r .. r + |msg|] == (msg + [last])[..|msg|] == msg;
    assert !checks[c];
    Accumulate(checks, results, decode, c + 1, r, [], msg);
    assert [] + Payloads(msg) == Payloads(msg);
    assert results[r + |msg|] == (msg + [last])[|msg|] == last;
    assert !checks[c + 1 + |msg|];
  }

  /** Cancellation seen after some fragments of a message ends the loop silently: no error
      and no dispatch of the partial message. */
  lemma CancelDropsPartial(checks: seq<bool>, results: seq<ReceiveOutcome>, decode: seq<byte> -> string,
                           c: nat, r: nat, msg: seq<ReceiveOutcome>)
    requires WellFormedScript(results)
    requires Uncanceled(checks, c, |msg| + 1)
    requires c + |msg| + 1 < |checks| && checks[c + |msg| + 1]
    requires r + |msg| <= |results| && results[r .. r + |msg|] == msg
    requires Fragments(msg)
    ensures ReceiveFrom(checks, results, decode, c, r, [], true) == RunTrace([], Exited)
  {
    Accumulate(checks, results, decode, c + 1, r, [], msg);
  }

  /** A receive call cancelled after some fragments ends the loop without an error too: the
      OperationCanceledException is swallowed and nothing is dispatched, but the loop ends
      Aborted, not at a check point. */
  lemma CanceledReceiveDropsPartial(checks: seq<bool>, results: seq<ReceiveOutcome>, decode: seq<byte> -> string,
                                    c: nat, r: nat, msg: seq<ReceiveOutcome>)
    requires WellFormedScript(results)
    requires Uncanceled(checks, c, |msg| + 2)
    requires r + |msg| < |results| && results[r .. r + |msg|] == msg && results[r + |msg|] == ReceiveCanceled
    requires Fragments(msg)
    ensures ReceiveFrom(checks, results, decode, c, r, [], true) == RunTrace([], Aborted)
  {
    Accumulate(checks, results, decode, c + 1, r, [], msg);
  }

  /** A close notification after some fragments ends the loop with an error carrying the
      close status and description; the partial message is never dispatched. */
  lemma CloseDropsPartial(checks: seq<bool>, results: seq<ReceiveOutcome>, decode: seq<byte> -> string,
                          c: nat, r: nat, msg: seq<ReceiveOutcome>, status: int)
    requires WellFormedScript(results)
    requires Uncanceled(checks, c, |msg| + 2)
    requires r + |msg| < |results| && results[r .. r + |msg|] == msg
    requires results[r + |msg|].Received? && results[r + |msg|].result.messageType == Close
    requires results[r + |msg|].result.closeStatus == Some(status)
    requires Fragments(msg)
    ensures ReceiveFrom(checks, results, decode, c, r, [], true)
         == RunTrace([], LoopFaulted(RemoteClose(status, results[r + |msg|].result.closeDesc)))
  {
    Accumulate(checks, results, decode, c + 1, r, [], msg);
  }

  /** A chunk of `bytes` with type t, as the transport reports it. */
  function Chunk(t: MessageType, bytes: seq<byte>, endOfMessage: bool): ReceiveOutcome
  {
    Received(ReceiveResult(t, |bytes|, bytes, endOfMessage, None, ""))
  }

  /** A payload as the peer would fragment it: chunks of `size` bytes, the last one final. */
  function Split(payload: seq<byte>, size: int, t: MessageType): seq<ReceiveOutcome>
    requires 1 <= size
    decreases |payload|
  {
    if |payload| <= size then [Chunk(t, payload, true)]
    else [Chunk(t, payload[..size], false)] + Split(payload[size..], size, t)
  }

  lemma {:induction false} SplitShape(payload: seq<byte>, size: int, t: MessageType)
    requires 1 <= size <= ReceiveChunkSize && t != Close
    ensures |Split(payload, size, t)| >= 1
    ensures forall k :: 0 <= k < |Split(payload, size, t)| ==>
      && DataChunk(Split(payload, size, t)[k])
      && Split(payload, size, t)[k].result.messageType == t
      && (Split(payload, size, t)[k].result.endOfMessage <==> k == |Split(payload, size, t)| - 1)
    ensures Payloads(Split(payload, size, t)) == payload
    decreases |payload|
  {
    var s := Split(payload, size, t);
    if |payload| > size {
      var rest := Split(payload[size..], size, t);
      SplitShape(payload[size..], size, t);
      var head := Chunk(t, payload[..size], false);
      assert s == [head] + rest;
      assert s[1..] == rest;
      forall k | 0 <= k < |s|
        ensures DataChunk(s[k]) && s[k].result.messageType == t && (s[k].result.endOfMessage <==> k == |s| - 1)
      {
        if k > 0 {
          assert s[k] == rest[k - 1];
        }
      }
      assert Payload(head.result) == payload[..size];
      assert payload == payload[..size] + payload[size..];
    }
  }

  /** The reassembly law: whatever chunk size the peer uses (up to the buffer size), a
      payload split into chunks and received with no cancellation is dispatched once, whole,
      as the message type it was sent with. */
  lemma ChunkRoundTrip(checks: seq<bool>, more: seq<ReceiveOutcome>, decode: seq<byte> -> string,
                       payload: seq<byte>, size: int, t: MessageType)
    requires 1 <= size <= ReceiveChunkSize && t != Close
    requires WellFormedScript(more)
    requires Uncanceled(checks, 0, |Split(payload, size, t)| + 1)
    ensures WellFormedScript(Split(payload, size, t) + more)
    ensures var run := Receive(checks, Split(payload, size, t) + more, decode);
      && |run.dispatches| >= 1
      && run.dispatches[0] == (if t == Binary then BinaryMessage(payload, 0, |payload|) else TextMessage(decode(payload)))
  {
    var s := Split(payload, size, t);
    SplitShape(payload, size, t);
    var msg, last := s[..|s| - 1], s[|s| - 1];
    assert s == msg + [last];
    assert Fragments(msg);
    var results := s + more;
    assert WellFormedScript(results) by {
      forall k | 0 <= k < |results| && results[k].Received?
        ensures WellFormed(results[k].result)
      {
        if k >= |s| {
          assert results[k] == more[k - |s|];
        }
      }
    }
    assert results[0 .. |msg| + 1] == msg + [last];
    CompleteMessage(checks, results, decode, 0, 0, msg, last);
    assert Payloads(msg + [last]) == payload;
  }
}
