/** The frame arithmetic of DefaultWebSocketClient.SendAsync and the sequence of
    transport calls its loop makes, given a script of transport outcomes. */
module Frames {
  import opened Common

  /** Largest frame the send loop means to hand to the transport (SendChunkSize). */
  const SendChunkSize: int := 4 * 1024

  /** The loop bound `(int)Math.Ceiling((double)count / SendChunkSize)`.
      Dividing a 32-bit integer by a power of two is exact in double precision,
      so this is the integer ceiling; it is zero or negative when count <= 0. */
  function FrameCount(count: int): (n: int)
    ensures (n - 1) * SendChunkSize < count <= n * SendChunkSize
    ensures count > 0 <==> n > 0
  {
    -((-count) / SendChunkSize)
  }

  /** `frameSize` in loop iteration i: a full chunk, or what is left on the last one. */
  function FrameSize(count: int, i: int): (size: int)
    requires 0 <= i < FrameCount(count)
    ensures 1 <= size <= SendChunkSize
    ensures i < FrameCount(count) - 1 ==> size == SendChunkSize
    ensures i * SendChunkSize + size <= count
    ensures i == FrameCount(count) - 1 ==> i * SendChunkSize + size == count
  {
    if i == FrameCount(count) - 1 then count - i * SendChunkSize else SendChunkSize
  }

  /** The frame the loop's own variables describe in one iteration:
      `index`, `frameSize` and `isLast`. */
  datatype PlannedFrame = PlannedFrame(offset: int, size: int, endOfMessage: bool)

  /** The planned frames of iterations i, i+1, ... of the loop. */
  function PlanFrom(index: int, count: int, i: nat): seq<PlannedFrame>
    decreases FrameCount(count) - i
  {
    if i >= FrameCount(count) then []
    else [PlannedFrame(index + i * SendChunkSize, FrameSize(count, i), i == FrameCount(count) - 1)]
         + PlanFrom(index, count, i + 1)
  }

  /** The frame plan of a whole call: what `(data, index, frameSize)` segments would be. */
  function FramePlan(index: int, count: int): seq<PlannedFrame>
  {
    PlanFrom(index, count, 0)
  }

  lemma {:induction false} PlanFromLength(index: int, count: int, i: nat)
    ensures |PlanFrom(index, count, i)| == if i < FrameCount(count) then FrameCount(count) - i else 0
    decreases FrameCount(count) - i
  {
    if i < FrameCount(count) {
      PlanFromLength(index, count, i + 1);
    }
  }

  lemma {:induction false} PlanFromAt(index: int, count: int, i: nat, k: nat)
    requires i + k < FrameCount(count)
    ensures |PlanFrom(index, count, i)| == FrameCount(count) - i
    ensures PlanFrom(index, count, i)[k]
         == PlannedFrame(index + (i + k) * SendChunkSize, FrameSize(count, i + k), i + k == FrameCount(count) - 1)
    decreases k
  {
    PlanFromLength(index, count, i);
    if k > 0 {
      PlanFromAt(index, count, i + 1, k - 1);
    }
  }

  /** There are ceil(count / SendChunkSize) frames; frame k starts SendChunkSize * k bytes
      after `index`, every frame but the last is a full chunk, and only the last is final. */
  lemma PlanShape(index: int, count: int)
    ensures |FramePlan(index, count)| == if count > 0 then FrameCount(count) else 0
    ensures forall k :: 0 <= k < |FramePlan(index, count)| ==>
      FramePlan(index, count)[k]
        == PlannedFrame(index + k * SendChunkSize, FrameSize(count, k), k == |FramePlan(index, count)| - 1)
  {
    PlanFromLength(index, count, 0);
    forall k | 0 <= k < |FramePlan(index, count)|
      ensures FramePlan(index, count)[k]
        == PlannedFrame(index + k * SendChunkSize, FrameSize(count, k), k == |FramePlan(index, count)| - 1)
    {
      PlanFromAt(index, count, 0, k);
    }
  }

  /** Sum of the sizes of a list of planned frames. */
  function TotalSize(plan: seq<PlannedFrame>): int
  {
    if plan == [] then 0 else plan[0].size + TotalSize(plan[1..])
  }

  lemma {:induction false} PlanFromTotal(index: int, count: int, i: nat)
    requires i < FrameCount(count)
    ensures TotalSize(PlanFrom(index, count, i)) == count - i * SendChunkSize
    decreases FrameCount(count) - i
  {
    var plan := PlanFrom(index, count, i);
    assert plan[1..] == PlanFrom(index, count, i + 1);
    if i + 1 < FrameCount(count) {
      PlanFromTotal(index, count, i + 1);
    }
  }

  /** The frame sizes add up to `count` (nothing is planned when count <= 0). */
  lemma PlanSizesSum(index: int, count: int)
    ensures TotalSize(FramePlan(index, count)) == if count > 0 then count else 0
  {
    if count > 0 {
      PlanFromTotal(index, count, 0);
    }
  }

  /** `new ArraySegment<byte>(data, offset, count)` succeeds: no negative offset or count,
      and the segment lies within the array. */
  predicate SegmentFits(dataLength: int, offset: int, count: int)
  {
    0 <= offset && 0 <= count && count <= dataLength - offset
  }

  /** One `_client.SendAsync` call: the ArraySegment's offset and length, the message type
      and the end-of-message flag. */
  datatype Frame = Frame(offset: int, length: int, messageType: MessageType, endOfMessage: bool)

  /** What one transport send call does: completes, times out (the Win32 timeout the
      source catches), or throws anything else. */
  datatype SendOutcome = Sent | TimedOut | Failed(code: int)

  datatype SendError = SegmentOutOfRange | TransportFailure(code: int)

  /** How SendAsync ends: returns normally, is cancelled while waiting for the send lock,
      or throws. */
  datatype SendResult = Returned | Canceled | Faulted(error: SendError)

  datatype SendTrace = SendTrace(frames: seq<Frame>, result: SendResult)

  function MessageTypeOf(isText: bool): MessageType
  {
    if isText then Text else Binary
  }

  /** The loop of SendAsync from iteration i on, as written: each call passes the segment
      `(data, index, count)`, not `(data, index, frameSize)`; script[i] is the outcome of the
      i-th transport call. */
  function SendFrom(dataLength: int, index: int, count: int, isText: bool, script: seq<SendOutcome>, i: nat): SendTrace
    requires FrameCount(count) <= |script|
    decreases FrameCount(count) - i
  {
    if i >= FrameCount(count) then SendTrace([], Returned)
    else
      var offset := index + i * SendChunkSize;
      if !SegmentFits(dataLength, offset, count) then SendTrace([], Faulted(SegmentOutOfRange))
      else
        var frame := Frame(offset, count, MessageTypeOf(isText), i == FrameCount(count) - 1);
        match script[i]
        case Sent =>
          var rest := SendFrom(dataLength, index, count, isText, script, i + 1);
          SendTrace([frame] + rest.frames, rest.result)
        case TimedOut => SendTrace([frame], Returned)
        case Failed(code) => SendTrace([frame], Faulted(TransportFailure(code)))
  }

  lemma {:induction false} SendFromShape(dataLength: int, index: int, count: int, isText: bool, script: seq<SendOutcome>, i: nat)
    requires FrameCount(count) <= |script|
    ensures |SendFrom(dataLength, index, count, isText, script, i).frames|
         <= if i < FrameCount(count) then FrameCount(count) - i else 0
    ensures forall k :: 0 <= k < |SendFrom(dataLength, index, count, isText, script, i).frames| ==>
      SendFrom(dataLength, index, count, isText, script, i).frames[k]
        == Frame(index + (i + k) * SendChunkSize, count, MessageTypeOf(isText), i + k == FrameCount(count) - 1)
    decreases FrameCount(count) - i
  {
    if i < FrameCount(count) && SegmentFits(dataLength, index + i * SendChunkSize, count) && script[i].Sent? {
      SendFromShape(dataLength, index, count, isText, script, i + 1);
      var t := SendFrom(dataLength, index, count, isText, script, i);
      var rest := SendFrom(dataLength, index, count, isText, script, i + 1);
      assert t.frames[1..] == rest.frames;
      forall k | 0 <= k < |t.frames|
        ensures t.frames[k]
          == Frame(index + (i + k) * SendChunkSize, count, MessageTypeOf(isText), i + k == FrameCount(count) - 1)
      {
        if k > 0 {
          assert t.frames[k] == rest.frames[k - 1];
        }
      }
    }
  }

  /** The transport calls go out in order, the k-th at offset index + k * SendChunkSize, each
      with the whole `count` as its length; at most ceil(count / SendChunkSize) of them, only
      the call of the final iteration is marked end-of-message, and count <= 0 sends nothing. */
  lemma SentFramesLaidOut(dataLength: int, index: int, count: int, isText: bool, script: seq<SendOutcome>)
    requires FrameCount(count) <= |script|
    ensures var t := SendFrom(dataLength, index, count, isText, script, 0);
      && (count <= 0 ==> t == SendTrace([], Returned))
      && |t.frames| <= (if count > 0 then FrameCount(count) else 0)
      && (forall k :: 0 <= k < |t.frames| ==>
            t.frames[k] == Frame(index + k * SendChunkSize, count, MessageTypeOf(isText), k == FrameCount(count) - 1))
      && (forall k :: 0 <= k < |t.frames| && t.frames[k].endOfMessage ==> k == |t.frames| - 1)
  {
    SendFromShape(dataLength, index, count, isText, script, 0);
  }

  lemma {:induction false} SendFromSentRun(dataLength: int, index: int, count: int, isText: bool, script: seq<SendOutcome>, i: nat, k: nat)
    requires FrameCount(count) <= |script|
    requires i <= k <= FrameCount(count)
    requires forall j :: i <= j < k ==> script[j] == Sent
    requires 0 <= index && 0 <= count && (i < k ==> index + (k - 1) * SendChunkSize + count <= dataLength)
    ensures |SendFrom(dataLength, index, count, isText, script, i).frames|
         == (k - i) + |SendFrom(dataLength, index, count, isText, script, k).frames|
    ensures SendFrom(dataLength, index, count, isText, script, i).result
         == SendFrom(dataLength, index, count, isText, script, k).result
    decreases k - i
  {
    if i < k {
      assert SegmentFits(dataLength, index + i * SendChunkSize, count);
      SendFromSentRun(dataLength, index, count, isText, script, i + 1, k);
    }
  }

  /** A timeout on the k-th transport call ends SendAsync normally, with no later call made. */
  lemma TimeoutTruncatesSend(dataLength: int, index: int, count: int, isText: bool, script: seq<SendOutcome>, k: nat)
    requires FrameCount(count) <= |script|
    requires k < FrameCount(count)
    requires 0 <= index && index + k * SendChunkSize + count <= dataLength
    requires forall j :: 0 <= j < k ==> script[j] == Sent
    requires script[k] == TimedOut
    ensures SendFrom(dataLength, index, count, isText, script, 0).result == Returned
    ensures |SendFrom(dataLength, index, count, isText, script, 0).frames| == k + 1
  {
    SendFromSentRun(dataLength, index, count, isText, script, 0, k);
    assert SegmentFits(dataLength, index + k * SendChunkSize, count);
  }

  /** When every call succeeds and every segment fits, all ceil(count / SendChunkSize) calls
      are made, the last one alone marked end-of-message, and SendAsync returns normally. */
  lemma AllSentCompletes(dataLength: int, index: int, count: int, isText: bool, script: seq<SendOutcome>)
    requires FrameCount(count) <= |script|
    requires count > 0 && 0 <= index && index + (FrameCount(count) - 1) * SendChunkSize + count <= dataLength
    requires forall j :: 0 <= j < FrameCount(count) ==> script[j] == Sent
    ensures SendFrom(dataLength, index, count, isText, script, 0).result == Returned
    ensures |SendFrom(dataLength, index, count, isText, script, 0).frames| == FrameCount(count)
    ensures SendFrom(dataLength, index, count, isText, script, 0).frames[FrameCount(count) - 1].endOfMessage
  {
    SendFromSentRun(dataLength, index, count, isText, script, 0, FrameCount(count));
    SendFromShape(dataLength, index, count, isText, script, 0);
  }

  /** The consequence of passing `count` instead of `frameSize`: a payload longer than one
      chunk, filling its array from `index` to the end, goes out whole as a NON-final
      fragment, and the next iteration's segment `(data, index + SendChunkSize, count)` runs
      past the array, so SendAsync throws and the message is never finished. */
  lemma MultiFrameOverrun(dataLength: int, index: int, count: int, isText: bool, script: seq<SendOutcome>)
    requires FrameCount(count) <= |script|
    requires 0 <= index && SendChunkSize < count && dataLength == index + count
    requires script[0] == Sent
    ensures SendFrom(dataLength, index, count, isText, script, 0)
         == SendTrace([Frame(index, count, MessageTypeOf(isText), false)], Faulted(SegmentOutOfRange))
  {
  }

  /** The loop as evidently intended: iteration i hands the transport the segment
      `(data, index + i * SendChunkSize, frameSize)`. */
  function IntendedSendFrom(dataLength: int, index: int, count: int, isText: bool, script: seq<SendOutcome>, i: nat): SendTrace
    requires FrameCount(count) <= |script|
    decreases FrameCount(count) - i
  {
    if i >= FrameCount(count) then SendTrace([], Returned)
    else
      var offset := index + i * SendChunkSize;
      var size := FrameSize(count, i);
      if !SegmentFits(dataLength, offset, size) then SendTrace([], Faulted(SegmentOutOfRange))
      else
        var frame := Frame(offset, size, MessageTypeOf(isText), i == FrameCount(count) - 1);
        match script[i]
        case Sent =>
          var rest := IntendedSendFrom(dataLength, index, count, isText, script, i + 1);
          SendTrace([frame] + rest.frames, rest.result)
        case TimedOut => SendTrace([frame], Returned)
        case Failed(code) => SendTrace([frame], Faulted(TransportFailure(code)))
  }

  /** Every frame's segment lies within an array of `dataLength` bytes. */
  predicate FramesInBounds(dataLength: int, frames: seq<Frame>)
  {
    forall k :: 0 <= k < |frames| ==> SegmentFits(dataLength, frames[k].offset, frames[k].length)
  }

  /** The bytes a series of transport calls carries, in order. */
  function Carried(data: seq<byte>, frames: seq<Frame>): seq<byte>
    requires FramesInBounds(|data|, frames)
  {
    if frames == [] then []
    else data[frames[0].offset .. frames[0].offset + frames[0].length] + Carried(data, frames[1..])
  }

  lemma {:induction false} IntendedFromDelivers(data: seq<byte>, index: int, count: int, isText: bool,
                                                script: seq<SendOutcome>, i: nat)
    requires FrameCount(count) <= |script|
    requires SegmentFits(|data|, index, count) && i < FrameCount(count)
    requires forall j :: i <= j < FrameCount(count) ==> script[j] == Sent
    ensures var t := IntendedSendFrom(|data|, index, count, isText, script, i);
      && t.result == Returned
      && |t.frames| == FrameCount(count) - i
      && FramesInBounds(|data|, t.frames)
      && Carried(data, t.frames) == data[index + i * SendChunkSize .. index + count]
    decreases FrameCount(count) - i
  {
    var t := IntendedSendFrom(|data|, index, count, isText, script, i);
    var start := index + i * SendChunkSize;
    var size := FrameSize(count, i);
    assert SegmentFits(|data|, start, size);
    var frame := Frame(start, size, MessageTypeOf(isText), i == FrameCount(count) - 1);
    var rest := IntendedSendFrom(|data|, index, count, isText, script, i + 1);
    assert t == SendTrace([frame] + rest.frames, rest.result);
    if i + 1 < FrameCount(count) {
      IntendedFromDelivers(data, index, count, isText, script, i + 1);
      assert t.frames[1..] == rest.frames;
      forall k | 0 <= k < |t.frames|
        ensures SegmentFits(|data|, t.frames[k].offset, t.frames[k].length)
      {
        if k > 0 {
          assert t.frames[k] == rest.frames[k - 1];
        }
      }
      assert data[start .. index + count] == data[start .. start + size] + data[start + size .. index + count];
    } else {
      assert rest == SendTrace([], Returned);
      assert t.frames[1..] == [];
    }
  }

  /** The corrected loop, with every transport call succeeding on a segment that fits,
      delivers exactly the caller's bytes `data[index .. index + count]`, in
      ceil(count / SendChunkSize) calls, and returns normally. */
  lemma IntendedDelivers(data: seq<byte>, index: int, count: int, isText: bool, script: seq<SendOutcome>)
    requires FrameCount(count) <= |script|
    requires SegmentFits(|data|, index, count)
    requires forall j :: 0 <= j < FrameCount(count) ==> script[j] == Sent
    ensures var t := IntendedSendFrom(|data|, index, count, isText, script, 0);
      && t.result == Returned
      && |t.frames| == (if count > 0 then FrameCount(count) else 0)
      && FramesInBounds(|data|, t.frames)
      && Carried(data, t.frames) == data[index .. index + count]
  {
    if count > 0 {
      IntendedFromDelivers(data, index, count, isText, script, 0);
    } else {
      assert data[index .. index + count] == [];
    }
  }

  lemma {:induction false} IntendedFromFits(dataLength: int, index: int, count: int, isText: bool,
                                            script: seq<SendOutcome>, i: nat)
    requires FrameCount(count) <= |script|
    requires SegmentFits(dataLength, index, count)
    ensures IntendedSendFrom(dataLength, index, count, isText, script, i).result != Faulted(SegmentOutOfRange)
    decreases FrameCount(count) - i
  {
    if i < FrameCount(count) {
      assert SegmentFits(dataLength, index + i * SendChunkSize, FrameSize(count, i));
      if script[i].Sent? {
        IntendedFromFits(dataLength, index, count, isText, script, i + 1);
      }
    }
  }

  /** Whatever the transport does, the corrected loop never builds a segment outside a
      caller's segment that fits its array. */
  lemma IntendedNeverOverruns(dataLength: int, index: int, count: int, isText: bool, script: seq<SendOutcome>)
    requires FrameCount(count) <= |script|
    requires SegmentFits(dataLength, index, count)
    ensures IntendedSendFrom(dataLength, index, count, isText, script, 0).result != Faulted(SegmentOutOfRange)
  {
    IntendedFromFits(dataLength, index, count, isText, script, 0);
  }

  /** A message that fits one chunk is sent the same way by the code as written and by the
      corrected loop: the quirk only shows on multi-frame messages. */
  lemma SingleFrameAgrees(dataLength: int, index: int, count: int, isText: bool, script: seq<SendOutcome>)
    requires FrameCount(count) <= |script|
    requires count <= SendChunkSize
    ensures SendFrom(dataLength, index, count, isText, script, 0)
         == IntendedSendFrom(dataLength, index, count, isText, script, 0)
  {
  }

  /** The 5000-byte instance: the code sends one 5000-byte non-final frame and throws,
      where the plan it computes is a 4096-byte frame followed by a final 904-byte one. */
  lemma MultiFrameOverrunExample()
    ensures SendFrom(5000, 0, 5000, false, [Sent, Sent], 0)
         == SendTrace([Frame(0, 5000, Binary, false)], Faulted(SegmentOutOfRange))
    ensures FramePlan(0, 5000) == [PlannedFrame(0, 4096, false), PlannedFrame(4096, 904, true)]
    ensures IntendedSendFrom(5000, 0, 5000, false, [Sent, Sent], 0)
         == SendTrace([Frame(0, 4096, Binary, false), Frame(4096, 904, Binary, true)], Returned)
  {
  }
}
