# DefaultWebSocketClient, modelled in Dafny

The project models Discord.Net's `DefaultWebSocketClient`: the object that owns one
`ClientWebSocket`, its send lock and its cancellation sources. The model covers four parts:

- **Sending.** `SendAsync` plans 4 KB frames under a send lock. It then hands the transport
  the whole `count` from each frame's offset (see "## Findings").
- **Receiving.** `RunAsync` runs a background loop that reassembles 12 KB chunks into messages and
  raises `BinaryMessage` or `TextMessage` for each one.
- **Lifecycle.** `ConnectAsync`, `DisconnectAsync`, `SetCancelToken` and `Dispose` are modelled.
- **The transport.** The transport is replaced by scripts:
  - one outcome per `_client.SendAsync` call: sent, timed out, or failed;
  - on the receive side, one outcome per `_client.ReceiveAsync` call, plus the value of
    `IsCancellationRequested` at each check point of the loop.

Files:

- `common.dfy` (module `Common`): `byte`, `Option` and the transport's message types.
- `frames.dfy` (module `Frames`) covers the send side:
  - the frame-count and frame-size arithmetic of `SendAsync`;
  - the plan the loop's own variables describe;
  - `SendFrom`, the sequence of transport calls the loop makes as written;
  - `IntendedSendFrom`, the corrected loop.
- `reassembly.dfy` (module `Reassembly`) covers the receive side:
  - `ReceiveFrom`/`Receive`, the receive loop as an automaton over the two scripts;
  - the reassembly lemmas about them.
- `client.dfy` (module `Client`): the class `DefaultWebSocketClient`, with these fields:
  - the lock flag;
  - the source and parent cancellation flags;
  - whether `_cancelToken` is linked;
  - the transport state;
  - `_task`'s outcome;
  - `_isDisposed`;
  - a log of the steps the client takes;
  - the frames sent;
  - the messages dispatched.

  Two of its methods are loops proved against the functions above:
  - `Transmit`, SendAsync's frame loop, against `SendFrom`;
  - `Run`, RunAsync's nested loops over a 12 KB `array`, against `Receive`.

Two behaviours of the code shape the model:

- **Disconnect can raise.** `DisconnectAsync` awaits `_task` (line 80). So a faulted loop's error
  comes back out of `DisconnectAsync`, and so out of `ConnectAsync` (`AwaitResult`, `Connect`).
  `_task` is never reset (`Client.FaultPersists`), so after the loop has faulted once, every
  later `DisconnectAsync` and `ConnectAsync` on the same client rethrows that error. The client
  cannot connect again.
- **Decoding does not fail.** `Encoding.UTF8.GetString` (line 164) replaces malformed input
  instead of throwing. So decoding is a total function parameter `decode`, and the model has no
  decode error.

## Model

| member | source | states |
|---|---|---|
| `Frames.FrameCount` | src/Discord.Net/Net/WebSockets/DefaultWebsocketClient.cs:99 | the loop bound is the integer ceiling of count / 4096: (n-1)*4096 < count <= n*4096, and it is positive exactly when count is |
| `Frames.FrameSize` | src/Discord.Net/Net/WebSockets/DefaultWebsocketClient.cs:103-109 | frameSize is between 1 and 4096, a full chunk on every iteration but the last, never runs past count, and on the last iteration ends exactly at count |
| `Frames.PlanShape` | src/Discord.Net/Net/WebSockets/DefaultWebsocketClient.cs:99-109 | the plan the loop variables describe has ceil(count/4096) frames (none when count <= 0); frame k starts at index + 4096k, has size FrameSize(count, k), and only the last is end-of-message |
| `Frames.PlanSizesSum` | src/Discord.Net/Net/WebSockets/DefaultWebsocketClient.cs:99-109 | the planned frame sizes add up to count (0 when count <= 0) |
| `Frames.SentFramesLaidOut` | src/Discord.Net/Net/WebSockets/DefaultWebsocketClient.cs:99-120 | as written, count <= 0 makes no call and returns; otherwise the calls go out in order, at most ceil(count/4096) of them, call k at offset index + 4096k with length count and the message type of isText, and only the call of the final iteration is end-of-message |
| `Frames.TimeoutTruncatesSend` | src/Discord.Net/Net/WebSockets/DefaultWebsocketClient.cs:111-119 | a timeout on call k, after k successful calls, ends SendAsync normally with exactly k+1 calls made |
| `Frames.AllSentCompletes` | src/Discord.Net/Net/WebSockets/DefaultWebsocketClient.cs:99-120 | when every segment fits and every call succeeds, all ceil(count/4096) calls are made, the last is end-of-message, and SendAsync returns normally |
| `Frames.MultiFrameOverrun` | src/Discord.Net/Net/WebSockets/DefaultWebsocketClient.cs:114 | as written, a payload over 4096 bytes that fills its array from index goes out whole as one non-final frame, and then the next segment overruns the array and SendAsync throws |
| `Frames.MultiFrameOverrunExample` | src/Discord.Net/Net/WebSockets/DefaultWebsocketClient.cs:99-114 | for 5000 bytes, the code makes one non-final 5000-byte call and throws, where the plan is 4096 bytes then a final 904, and the corrected loop sends exactly those two frames |
| `Frames.IntendedDelivers` | src/Discord.Net/Net/WebSockets/DefaultWebsocketClient.cs:99-114 | the corrected loop, with every call succeeding, makes ceil(count/4096) in-bounds calls whose bytes concatenate to data[index..index+count], and returns normally |
| `Frames.IntendedNeverOverruns` | src/Discord.Net/Net/WebSockets/DefaultWebsocketClient.cs:103-114 | for any transport behaviour, the corrected loop on a valid caller segment never builds an out-of-range segment |
| `Frames.SingleFrameAgrees` | src/Discord.Net/Net/WebSockets/DefaultWebsocketClient.cs:103-114 | for count <= 4096, the code as written and the corrected loop make the same calls with the same result |
| `Reassembly.Accumulate` | src/Discord.Net/Net/WebSockets/DefaultWebsocketClient.cs:138-157 | reading non-final data chunks, each after an uncancelled check, only appends their Count-byte payloads to the accumulator and dispatches nothing |
| `Reassembly.CompleteMessage` | src/Discord.Net/Net/WebSockets/DefaultWebsocketClient.cs:135-169 | a run of fragments closed by a final data chunk produces exactly one dispatch of all the chunks' payloads concatenated, typed by the final chunk, and the loop resumes at its head with an empty accumulator |
| `Reassembly.CancelDropsPartial` | src/Discord.Net/Net/WebSockets/DefaultWebsocketClient.cs:135-140 | cancellation seen at a check point after some fragments ends the loop normally, with no error and no partial dispatch |
| `Reassembly.CanceledReceiveDropsPartial` | src/Discord.Net/Net/WebSockets/DefaultWebsocketClient.cs:142-145 | a receive call that is cancelled after some fragments ends the loop normally, with nothing dispatched, because the OperationCanceledException is caught at line 172; the loop ends Aborted, which is told apart from returning at a check point |
| `Reassembly.CloseDropsPartial` | src/Discord.Net/Net/WebSockets/DefaultWebsocketClient.cs:151-152 | a close notification after some fragments faults the loop with the close status and description, and the partial message is never dispatched |
| `Reassembly.SplitShape` | src/Discord.Net/Net/WebSockets/DefaultWebsocketClient.cs:138-157 | a payload cut into chunks of at most the buffer size gives data chunks of one type, only the last of them final, whose payloads concatenate back to the payload |
| `Reassembly.ChunkRoundTrip` | src/Discord.Net/Net/WebSockets/DefaultWebsocketClient.cs:128-169 | a payload fragmented at any chunk size up to 12 KB and received without cancellation is dispatched first and whole: BinaryMessage(payload, 0, len) or TextMessage(decode(payload)) |
| `Frames.SegmentFits` | src/Discord.Net/Net/WebSockets/DefaultWebsocketClient.cs:114 | `new ArraySegment<byte>(data, offset, count)` accepts its arguments exactly when offset and count are not negative and the segment ends within the array |
| `Frames.SendFrom` | src/Discord.Net/Net/WebSockets/DefaultWebsocketClient.cs:99-120 | the send loop as written, from iteration i: it throws when the segment `(data, index + 4096i, count)` does not fit; otherwise it makes that call, marked end-of-message on the last iteration, and a Win32 timeout returns normally, any other exception propagates, and success goes on to the next iteration |
| `Frames.IntendedSendFrom` | src/Discord.Net/Net/WebSockets/DefaultWebsocketClient.cs:103-114 | the same loop with the segment `(data, index + 4096i, frameSize)` evidently intended at line 114 |
| `Reassembly.DispatchFor` | src/Discord.Net/Net/WebSockets/DefaultWebsocketClient.cs:159-166 | a completed Binary message raises BinaryMessage(array, 0, array.Length), a Text message raises TextMessage of its UTF-8 decoding, and anything else raises nothing |
| `Reassembly.ReceiveFrom` | src/Discord.Net/Net/WebSockets/DefaultWebsocketClient.cs:128-173 | the receive loop from a check point on: the outer and inner cancellation checks return; a Win32 timeout faults with "Connection timed out."; a cancelled receive is swallowed, ending the loop Aborted rather than Exited; other exceptions fault; a close frame faults with its status (a missing status faults as `CloseStatus.Value` on null); a data chunk appends its Count bytes, and a final one dispatches the message by its type and empties the accumulator |
| `Reassembly.Receive` | src/Discord.Net/Net/WebSockets/DefaultWebsocketClient.cs:128-135 | a whole run of RunAsync starts at the outer check with an empty stream |
| `Client.DisconnectSteps` | src/Discord.Net/Net/WebSockets/DefaultWebsocketClient.cs:64-81 | disconnect cancels the internal source first and awaits the loop last, and it attempts the close handshake exactly when its argument (the State test of line 69, `Client.OpenAtClose`) says Open, never before the cancel |
| `Client.AwaitResult` | src/Discord.Net/Net/WebSockets/DefaultWebsocketClient.cs:80 | awaiting `_task` throws exactly when the loop faulted, with the loop's own error, and completes otherwise, including when no loop ever ran |
| `Client.Settled` | src/Discord.Net/Net/WebSockets/DefaultWebsocketClient.cs:80 | after the source is cancelled, a loop still waiting has had its receive cancelled and has ended silently (Aborted, the OperationCanceledException swallowed at line 172); a loop that already ended keeps its outcome |
| `Client.FaultPersists` | src/Discord.Net/Net/WebSockets/DefaultWebsocketClient.cs:56 | a faulted `_task` survives a disconnect unchanged, and awaiting it again rethrows the same error, so every later disconnect and connect fails with it |
| `Client.OpenAfter` | src/Discord.Net/Net/WebSockets/DefaultWebsocketClient.cs:69 | the model takes `_client.State` to stay Open after the loop ended unless the loop ended on a receive error, a close frame or a cancelled receive (Aborted); a loop that returned at a check point, or is still waiting, leaves it Open |
| `Client.Interrupted` | src/Discord.Net/Net/WebSockets/DefaultWebsocketClient.cs:142-145 | a loop whose pending receive is ended by disposing the transport is no longer waiting and leaves the socket not open; it ends silently (Aborted) exactly when the transport reports an OperationCanceledException, swallowed at line 172, and otherwise faults with the transport's error |
| `Client.CancelOutcomesDiffer` | src/Discord.Net/Net/WebSockets/DefaultWebsocketClient.cs:135-172 | a loop returning at a cancellation check ends Exited with the socket Open, a loop whose receive is cancelled ends Aborted with the socket not Open, and awaiting either completes normally |
| `Client.OpenAtClose` | src/Discord.Net/Net/WebSockets/DefaultWebsocketClient.cs:67-69 | at the State test, which comes just after the cancel, the socket is Open only if it was open and no loop was still waiting: the cancel aborts a pending receive, and the socket with it |
| `Client.DefaultWebSocketClient.TokenCanceled` | src/Discord.Net/Net/WebSockets/DefaultWebsocketClient.cs:59 | the linked `_cancelToken` is cancelled when the parent token or the internal source is; the initial CancellationToken.None never is |
| `Client.DefaultWebSocketClient.constructor` | src/Discord.Net/Net/WebSockets/DefaultWebsocketClient.cs:28-38 | a new client has one fresh internal source, an unlinked (None) token that is not cancelled, a free lock, no task, no transport open, and is not disposed |
| `Client.DefaultWebSocketClient.DisposeCore` | src/Discord.Net/Net/WebSockets/DefaultWebsocketClient.cs:39-47 | does nothing once disposed; otherwise it disposes the transport only when disposing, which ends a waiting loop's receive as `Client.Interrupted` says, and always marks the client disposed; a disposed transport has no loop still waiting (class invariant) |
| `Client.DefaultWebSocketClient.Dispose` | src/Discord.Net/Net/WebSockets/DefaultWebsocketClient.cs:48-51 | idempotent: the first call disposes the transport, leaves it not open and ends a waiting loop's receive (`Client.Interrupted`), so a later disconnect rethrows a fault it caused; a later call changes nothing; a disposed transport belongs to a disposed client (class invariant) |
| `Client.DefaultWebSocketClient.Disconnect` | src/Discord.Net/Net/WebSockets/DefaultWebsocketClient.cs:64-81 | cancels the source, which aborts the socket under a loop still waiting in a receive; then it attempts the close handshake only when the socket is still open (suppressing any failure), then awaits the loop; the result is the loop's fault, if any; nothing else changes |
| `Client.DefaultWebSocketClient.Connect` | src/Discord.Net/Net/WebSockets/DefaultWebsocketClient.cs:53-63 | disconnects first and stops with the loop's rethrown error; otherwise it makes a fresh source and a linked token, opens the transport, and on success starts the loop, whose outcome becomes `_task` and whose dispatches are raised; a disposed transport, a cancelled parent or a failed open throws with the transport closed; afterwards the transport is open exactly when the loop neither faulted nor ended on a cancelled receive |
| `Client.DefaultWebSocketClient.Reopen` | src/Discord.Net/Net/WebSockets/DefaultWebsocketClient.cs:58-62 | creates a fresh source and links the token before the transport's connect; the connect throws ObjectDisposedException on a disposed transport, then OperationCanceled on a cancelled token, then fails when the transport does; the loop starts only when the connect succeeds |
| `Client.DefaultWebSocketClient.StartReceiving` | src/Discord.Net/Net/WebSockets/DefaultWebsocketClient.cs:61-62 | after a successful open, `_task` is the outcome of the receive loop on the current token, its dispatches are appended in order, and the transport stays open only when the loop neither faulted nor ended on a cancelled receive |
| `Client.DefaultWebSocketClient.SetCancelToken` | src/Discord.Net/Net/WebSockets/DefaultWebsocketClient.cs:87-91 | after the call, the effective token is cancelled exactly when the new parent or the current internal source is |
| `Client.DefaultWebSocketClient.Send` | src/Discord.Net/Net/WebSockets/DefaultWebsocketClient.cs:93-126 | a cancelled token ends the wait for the lock with Canceled and nothing sent; otherwise the lock is taken, the calls of SendFrom are made, and the lock is released on every way out, whatever the loop's outcome |
| `Client.DefaultWebSocketClient.Transmit` | src/Discord.Net/Net/WebSockets/DefaultWebsocketClient.cs:99-120 | the frame loop makes exactly the calls of SendFrom and ends with its result |
| `Client.DefaultWebSocketClient.Run` | src/Discord.Net/Net/WebSockets/DefaultWebsocketClient.cs:128-173 | the nested receive loops over the reused 12 KB buffer produce exactly the dispatches and the outcome of the Receive automaton |

`SendFrom`, `IntendedSendFrom`, `ReceiveFrom` and `Receive` are the specification functions.
They have no contract of their own. The lemmas above and the methods' postconditions state their
properties.

## Left out

- Real I/O: the URI, proxy, keep-alive options and `SetHeader` (lines 30-32, 83-86) are not
  modelled, because they only configure `ClientWebSocket`.
- Asynchrony:
  - `Connect` runs the whole receive script to its end inside the call. The model is
    sequential, so sends interleaved with a running loop, and a second caller waiting on
    the send lock, are not modelled.
  - The lock is a flag that is free between calls.
- Client.DefaultWebSocketClient.Disconnect: does not model whether the close handshake would
  succeed or fail, since both are suppressed alike. A loop still waiting on the transport is
  taken to be waiting in `ReceiveAsync`, so the cancel aborts the socket (`OpenAtClose`) and
  the loop ends silently as Aborted (`Settled`). A loop waiting on an observer instead is not
  told apart.
- Client.DefaultWebSocketClient.Connect: does not model `ClientWebSocket`'s refusal of a
  second `ConnectAsync` on the same instance, which the transport, not this class, enforces.
  The connect on a disposed transport is modelled. Otherwise the transport's connect outcome
  and the receive scripts are parameters.
- Client.DefaultWebSocketClient.StartReceiving: the transport's state after the loop is
  only Open or not Open, as `Client.OpenAfter` derives it from the loop's outcome. The
  transport's finer states (CloseReceived, Aborted, Closed) are not modelled.
- Client.DefaultWebSocketClient.Dispose: how the disposed transport reports the receive it
  ends is the parameter `failure` (an OperationCanceledException or another exception with a
  code), because it depends on the `ClientWebSocket` implementation.
- Reassembly.ReceiveFrom: does not model how observers run (`RaiseAsync`) or the exceptions
  they throw.
- The HRESULT match: the catch `when (ex.HResult == HR_TIMEOUT)` becomes a distinct outcome
  (`TimedOut`, `ReceiveTimedOut`); every other exception is one failure outcome with a code.
- UTF-8 decoding is the abstract parameter `decode`.
- Frames.FrameCount: the double-precision ceiling is exact for every 32-bit count, so it is
  modelled as the integer ceiling.
- Frames.SendFrom: integers are unbounded here, and nothing in the loop needs 32-bit
  arithmetic. `ArraySegment` checks `array.Length - offset < count`, which cannot overflow for
  non-negative arguments. Iteration i >= 1 is reached only after segment i-1 fitted an array of
  at most 2^31-1 elements with count > 4096, so `index` stays in range there. Only the
  increment after the last iteration can wrap, and that value is never used.
- The `actions` log records the order of effects on the transport and the
  sources. They do not model the objects themselves, such as the `CancellationTokenSource`
  instances or the linked token.

## Findings

| source | as written | input that shows it | evidently intended | confidence | as-written member | corrected member |
|---|---|---|---|---|---|---|
| src/Discord.Net/Net/WebSockets/DefaultWebsocketClient.cs:114 | each frame's segment is `new ArraySegment<byte>(data, index, count)`; the computed `frameSize` is never used | `data` of 5000 bytes, `index` 0, `count` 5000, and the transport accepts the frame: the first call sends all 5000 bytes as a non-final frame, then `ArraySegment(data, 4096, 5000)` throws and the message is never finished | `new ArraySegment<byte>(data, index, frameSize)`, so that a 5000-byte message goes out as 4096 bytes then a final 904 | not executed | `Frames.MultiFrameOverrun` | `Frames.IntendedDelivers` |

`Client.DefaultWebSocketClient.Send` keeps the call as written, because it models the code.
`Frames.IntendedSendFrom` is the corrected loop:

- `Frames.IntendedDelivers` and `Frames.IntendedNeverOverruns` prove what the corrected loop
  delivers.
- `Frames.SingleFrameAgrees` shows that the two loops differ only for messages longer than
  one chunk.
