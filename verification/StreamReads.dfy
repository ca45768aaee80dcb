/**
 * Reads with a bounded buffer: a frame that does not fit is stashed for the next call. A call that finds a stash keeps
 * its lock to the end of the branch that serves it, and asks for the lock again there when the frame does not fit.
 */
module StreamReads {
  import opened Basics
  import opened Framing

  /** A stream between two calls, or one whose lock is held for ever by a call that keeps a frame and waits for it. */
  datatype Handle = Handle(queue: seq<ReadEvent>, pending: Option<Frame>) | Stuck(queue: seq<ReadEvent>, held: Frame)

  /** How big the caller's buffer is, and whether the queue yields before the timeout. */
  datatype Call = Call(bufLen: nat, inTime: bool)

  /** `Hangs`: the call does not return. */
  datatype Outcome = Read(frame: Frame) | BufferTooSmall | StreamClosed | TimedOut | Hangs

  function StreamRead(h: Handle, call: Call): (Handle, Outcome) {
    if h.Stuck? then (h, Hangs)
    else if h.pending.Some? then
      if |h.pending.value| > call.bufLen then (Stuck(h.queue, h.pending.value), Hangs)
      else (Handle(h.queue, None), Read(h.pending.value))
    else if !call.inTime then (h, TimedOut)
    else if h.queue == [] then (h, StreamClosed)
    else if !h.queue[0].FrameEvent? then (Handle(h.queue[1..], None), StreamClosed)
    else if |h.queue[0].frame| > call.bufLen then (Handle(h.queue[1..], Some(h.queue[0].frame)), BufferTooSmall)
    else (Handle(h.queue[1..], None), Read(h.queue[0].frame))
  }

  // ---- one read ---------------------------------------------------------------------------

  /** The frames queued before the closing event. */
  function Queued(queue: seq<ReadEvent>): seq<Frame> {
    if queue == [] || !queue[0].FrameEvent? then [] else [queue[0].frame] + Queued(queue[1..])
  }

  /** The frame in the stash or in the hands of a stuck call. */
  function Kept(h: Handle): seq<Frame> {
    match h
    case Handle(_, pending) => if pending.Some? then [pending.value] else []
    case Stuck(_, held) => [held]
  }

  /** The frames not handed over, in order. */
  function Undelivered(h: Handle): seq<Frame> { Kept(h) + Queued(h.queue) }

  /** Nothing but a closing event, at most one, after the frames. */
  predicate Ends(queue: seq<ReadEvent>) {
    forall i :: 0 <= i < |queue| - 1 ==> queue[i].FrameEvent?
  }

  /** The next frame is there for this call: stashed, or queued in time. */
  predicate Offers(h: Handle, call: Call) {
    h.Handle? && Undelivered(h) != [] && (h.pending.Some? || call.inTime)
  }

  /**
   * One read hands over the next frame whole or keeps everything in order. It delivers exactly when the frame is there
   * and fits; it hangs exactly when the stash holds a frame longer than the buffer, or a call hangs already; it reports
   * the end exactly when nothing is left, and a timeout exactly when it is late and nothing is stashed.
   */
  lemma ReadTakesNext(h: Handle, call: Call)
    requires Ends(h.queue)
    ensures var r := StreamRead(h, call);
            && Ends(r.0.queue)
            && Undelivered(h) == (if r.1.Read? then [r.1.frame] else []) + Undelivered(r.0)
            && (r.1.Read? <==> Offers(h, call) && |Undelivered(h)[0]| <= call.bufLen)
            && (r.1.Hangs? <==> h.Stuck? || (h.pending.Some? && |h.pending.value| > call.bufLen))
            && (r.0.Stuck? <==> r.1.Hangs?)
            && (r.1.BufferTooSmall? <==> Offers(h, call) && h.pending.None? && |Undelivered(h)[0]| > call.bufLen)
            && (r.0.Handle? && r.0.pending.Some? <==> r.1.BufferTooSmall?)
            && (r.1.StreamClosed? <==> h.Handle? && Undelivered(h) == [] && call.inTime)
            && (r.1.TimedOut? <==> h.Handle? && h.pending.None? && !call.inTime)
  {
  }

  lemma StashIsNext(h: Handle)
    requires h.Handle? && h.pending.Some?
    ensures Undelivered(h) != [] && Undelivered(h)[0] == h.pending.value
  {
  }

  // ---- sequences of reads -------------------------------------------------------------------

  function ReadAll(h: Handle, calls: seq<Call>): Handle
    decreases |calls|
  {
    if calls == [] then h else ReadAll(StreamRead(h, calls[0]).0, calls[1..])
  }

  function Collected(h: Handle, calls: seq<Call>): seq<Frame>
    decreases |calls|
  {
    if calls == [] then []
    else
      var r := StreamRead(h, calls[0]);
      (if r.1.Read? then [r.1.frame] else []) + Collected(r.0, calls[1..])
  }

  /** After a call that hangs no call returns: nothing is collected and nothing changes. */
  lemma {:induction false} StuckForGood(h: Handle, calls: seq<Call>)
    requires h.Stuck?
    ensures ReadAll(h, calls) == h && Collected(h, calls) == []
    decreases |calls|
  {
    if calls != [] { StuckForGood(h, calls[1..]); }
  }

  /**
   * Over any buffer sizes and timeouts, hanging or not: what was read and what is not handed over are the frames, in
   * order.
   */
  lemma {:induction false} ReadsConserve(h: Handle, calls: seq<Call>)
    requires Ends(h.queue)
    ensures Collected(h, calls) + Undelivered(ReadAll(h, calls)) == Undelivered(h)
    decreases |calls|
  {
    if calls != [] {
      hide Undelivered, StreamRead, Ends;
      ReadTakesNext(h, calls[0]);
      var r := StreamRead(h, calls[0]);
      ReadsConserve(r.0, calls[1..]);
      Joins(if r.1.Read? then [r.1.frame] else [], Collected(r.0, calls[1..]), Undelivered(ReadAll(r.0, calls[1..])));
    }
  }

  lemma Joins(a: seq<Frame>, b: seq<Frame>, c: seq<Frame>)
    ensures a + b + c == a + (b + c)
  {
  }

  // ---- which sequences hang -------------------------------------------------------------------

  /** Two calls in a row, the first in time, both with too little room for the frame that is next when they come. */
  predicate TwiceTooSmall(h: Handle, calls: seq<Call>, i: nat) {
    && i < |calls| - 1 && calls[i].inTime
    && var k := |Collected(h, calls[..i])|;
       k < |Undelivered(h)| && |Undelivered(h)[k]| > calls[i].bufLen && |Undelivered(h)[k]| > calls[i + 1].bufLen
  }

  /** The stash holds a frame the first call has no room for. */
  predicate StashTooLong(h: Handle, calls: seq<Call>) {
    h.Handle? && h.pending.Some? && calls != [] && |h.pending.value| > calls[0].bufLen
  }

  lemma LaterTooSmall(h: Handle, calls: seq<Call>, i: nat)
    requires Ends(h.queue) && calls != []
    ensures TwiceTooSmall(h, calls, i + 1) <==> TwiceTooSmall(StreamRead(h, calls[0]).0, calls[1..], i)
  {
    hide StreamRead, Undelivered, Ends;
    ReadTakesNext(h, calls[0]);
    var r := StreamRead(h, calls[0]);
    if i < |calls| - 2 {
      assert calls[..i + 1][0] == calls[0] && calls[..i + 1][1..] == calls[1..][..i];
      var k := |Collected(r.0, calls[1..][..i])|;
      assert |Collected(h, calls[..i + 1])| == (if r.1.Read? then 1 else 0) + k;
      assert k < |Undelivered(r.0)| ==> Undelivered(h)[(if r.1.Read? then 1 else 0) + k] == Undelivered(r.0)[k];
    }
  }

  lemma FirstTooSmall(h: Handle, calls: seq<Call>)
    requires Ends(h.queue) && h.Handle? && calls != [] && !StashTooLong(h, calls)
    ensures TwiceTooSmall(h, calls, 0) <==> StashTooLong(StreamRead(h, calls[0]).0, calls[1..])
  {
    hide StreamRead, Ends;
    ReadTakesNext(h, calls[0]);
    var r := StreamRead(h, calls[0]);
    assert calls[..0] == [];
    assert Collected(h, calls[..0]) == [];
    if r.0.Handle? && r.0.pending.Some? { assert Undelivered(h)[0] == Undelivered(r.0)[0] == r.0.pending.value; }
  }

  lemma {:induction false} HangsFrom(h: Handle, calls: seq<Call>)
    requires Ends(h.queue) && h.Handle?
    ensures ReadAll(h, calls).Stuck? <==> StashTooLong(h, calls) || exists i: nat :: TwiceTooSmall(h, calls, i)
    decreases |calls|
  {
    if calls != [] {
      hide StreamRead, Undelivered, Ends, TwiceTooSmall;
      ReadTakesNext(h, calls[0]);
      var h' := StreamRead(h, calls[0]).0;
      if StashTooLong(h, calls) {
        StuckForGood(h', calls[1..]);
      } else {
        FirstTooSmall(h, calls);
        HangsFrom(h', calls[1..]);
        if i: nat :| TwiceTooSmall(h, calls, i) {
          if i > 0 { LaterTooSmall(h, calls, i - 1); }
        }
        if i: nat :| TwiceTooSmall(h', calls[1..], i) { LaterTooSmall(h, calls, i); }
      }
    }
  }

  /**
   * Which sequences of calls hang on a stream nobody has read from: exactly those with two successive calls, the first
   * in time, that both lack the room for the frame that is next.
   */
  lemma HangsExactly(h: Handle, calls: seq<Call>)
    requires Ends(h.queue) && h.Handle? && h.pending.None?
    ensures ReadAll(h, calls).Stuck? <==> exists i: nat :: TwiceTooSmall(h, calls, i)
  {
    hide TwiceTooSmall, Ends, ReadAll;
    HangsFrom(h, calls);
  }

  predicate AtMost(fs: seq<Frame>, size: nat) { forall i :: 0 <= i < |fs| ==> |fs[i]| <= size }

  /** A call in time with room for less than `size` is the last one or followed by one with room for `size`. */
  predicate Recovers(calls: seq<Call>, size: nat, i: nat) {
    i < |calls| - 1 && calls[i].inTime && calls[i].bufLen < size ==> calls[i + 1].bufLen >= size
  }

  ghost predicate Patient(calls: seq<Call>, size: nat) { forall i: nat :: Recovers(calls, size, i) }

  lemma PatientReturns(h: Handle, calls: seq<Call>, size: nat)
    requires Ends(h.queue) && h.Handle? && h.pending.None? && AtMost(Undelivered(h), size) && Patient(calls, size)
    ensures !ReadAll(h, calls).Stuck?
  {
    hide Ends, ReadAll, Undelivered, Collected;
    HangsExactly(h, calls);
    forall i: nat ensures !TwiceTooSmall(h, calls, i) { assert Recovers(calls, size, i); }
  }

  /** A stream with these frames and its end in the queue. */
  function Fed(fs: seq<Frame>, last: ReadEvent): Handle { Handle(Events(fs) + [last], None) }

  lemma {:induction false} FedFrames(fs: seq<Frame>, last: ReadEvent)
    requires !last.FrameEvent?
    ensures Undelivered(Fed(fs, last)) == fs && Ends(Fed(fs, last).queue)
    decreases |fs|
  {
    if fs != [] {
      FedFrames(fs[1..], last);
      assert Fed(fs, last).queue[1..] == Fed(fs[1..], last).queue;
    }
  }

  /** Empty frames for the calls in time before the `i`-th, then one of `size` bytes. */
  function Trap(calls: seq<Call>, size: nat, i: nat): seq<Frame>
    requires i < |calls|
  {
    if i == 0 then [seq(size, j => 0)]
    else (if calls[0].inTime then [[]] else []) + Trap(calls[1..], size, i - 1)
  }

  lemma {:induction false} TrapHangs(calls: seq<Call>, size: nat, i: nat)
    requires !Recovers(calls, size, i)
    ensures AtMost(Trap(calls, size, i), size) && ReadAll(Fed(Trap(calls, size, i), Closed), calls).Stuck?
    decreases i
  {
    var h := Fed(Trap(calls, size, i), Closed);
    if i == 0 {
      var h1 := StreamRead(h, calls[0]).0;
      assert h1.pending == Some(seq(size, j => 0));
      var h2 := StreamRead(h1, calls[1]).0;
      assert calls[1..][0] == calls[1];
      assert ReadAll(h, calls) == ReadAll(h1, calls[1..]) == ReadAll(h2, calls[1..][1..]);
      StuckForGood(h2, calls[1..][1..]);
    } else {
      assert calls[1..][i - 1] == calls[i] && calls[1..][i] == calls[i + 1];
      TrapHangs(calls[1..], size, i - 1);
      var rest := Trap(calls[1..], size, i - 1);
      if calls[0].inTime { assert h.queue[0] == FrameEvent([]) && h.queue[1..] == Fed(rest, Closed).queue; }
      assert StreamRead(h, calls[0]).0 == Fed(rest, Closed);
    }
  }

  /**
   * Which sequences of calls are safe whatever the stream carries: they hang on no stream of frames up to `size`
   * exactly when every call in time with less room than that is the last or followed by one with that much.
   */
  lemma SafeCallsExactly(calls: seq<Call>, size: nat)
    ensures Patient(calls, size) <==>
              forall fs :: AtMost(fs, size) ==> !ReadAll(Fed(fs, Closed), calls).Stuck?
  {
    hide ReadAll, Recovers, Trap, Fed;
    if Patient(calls, size) {
      forall fs | AtMost(fs, size) ensures !ReadAll(Fed(fs, Closed), calls).Stuck? {
        FedFrames(fs, Closed);
        FedFresh(fs, Closed);
        PatientReturns(Fed(fs, Closed), calls, size);
      }
    } else {
      var i: nat :| !Recovers(calls, size, i);
      assert i < |calls| by { Reached(calls, size, i); }
      TrapHangs(calls, size, i);
    }
  }

  lemma Reached(calls: seq<Call>, size: nat, i: nat)
    requires !Recovers(calls, size, i)
    ensures i < |calls| - 1
  {
  }

  lemma FedFresh(fs: seq<Frame>, last: ReadEvent)
    ensures Fed(fs, last).Handle? && Fed(fs, last).pending.None?
  {
  }

  // ---- from one end to the other ------------------------------------------------------------------

  /** The handle of a stream once the reader task has been through its bytes. */
  function Opened(bytes: seq<byte>, breaks: bool): Handle {
    Fed(Frames(bytes), if breaks then ErrorEvent else Closed)
  }

  lemma OpenedFrames(fs: seq<Frame>, half: seq<byte>, breaks: bool)
    requires Writable(fs) && !Complete(half)
    ensures var h := Opened(EncodeAll(fs) + half, breaks);
            Undelivered(h) == fs && Ends(h.queue) && h.Handle? && h.pending.None?
  {
    FramesOfEncoded(fs, half);
    assert fs + [] == fs;
    FedFrames(fs, if breaks then ErrorEvent else Closed);
  }

  /**
   * End to end: frames written by one side, cut up by the transport in any way, then read with any buffers and
   * timeouts, come out once each, in order and unchanged. What has not come out is still there, unless a call hangs,
   * which happens exactly when two calls in a row are too small for the frame at hand.
   */
  lemma EndToEnd(fs: seq<Frame>, half: seq<byte>, breaks: bool, calls: seq<Call>)
    requires Writable(fs) && !Complete(half)
    ensures var h := Opened(EncodeAll(fs) + half, breaks);
            && Collected(h, calls) + Undelivered(ReadAll(h, calls)) == fs
            && (ReadAll(h, calls).Stuck? <==> exists i: nat :: TwiceTooSmall(h, calls, i))
  {
    hide Opened, TwiceTooSmall, ReadAll, Collected;
    var h := Opened(EncodeAll(fs) + half, breaks);
    OpenedFrames(fs, half, breaks);
    ReadsConserve(h, calls);
    HangsExactly(h, calls);
  }

  /** How many of the calls have a buffer of at least `size` and are answered in time. */
  function Roomy(calls: seq<Call>, size: nat): nat {
    if calls == [] then 0 else (if calls[0].inTime && calls[0].bufLen >= size then 1 else 0) + Roomy(calls[1..], size)
  }

  /** When no call hangs, as many roomy calls as there are frames, among whatever others, collect every one of them. */
  lemma {:induction false} EnoughReads(h: Handle, calls: seq<Call>, size: nat)
    requires Ends(h.queue) && AtMost(Undelivered(h), size) && Roomy(calls, size) >= |Undelivered(h)|
    requires !ReadAll(h, calls).Stuck?
    ensures Collected(h, calls) == Undelivered(h) && Undelivered(ReadAll(h, calls)) == []
    decreases |calls|
  {
    hide StreamRead, Ends, Undelivered;
    if h.Stuck? { StuckForGood(h, calls); }
    if calls != [] {
      ReadTakesNext(h, calls[0]);
      var r := StreamRead(h, calls[0]);
      assert AtMost(Undelivered(r.0), size) by {
        forall i | 0 <= i < |Undelivered(r.0)| ensures |Undelivered(r.0)[i]| <= size {
          assert Undelivered(r.0)[i] == Undelivered(h)[|Undelivered(h)| - |Undelivered(r.0)| + i];
        }
      }
      EnoughReads(r.0, calls[1..], size);
    }
  }

  /**
   * End to end, with as many roomy calls as frames were sent and never two calls in a row too small for the frame at
   * hand: exactly the frames sent, in order.
   */
  lemma EveryFrameArrives(fs: seq<Frame>, half: seq<byte>, breaks: bool, calls: seq<Call>, size: nat)
    requires Writable(fs) && !Complete(half) && AtMost(fs, size) && Roomy(calls, size) >= |fs|
    requires forall i: nat :: !TwiceTooSmall(Opened(EncodeAll(fs) + half, breaks), calls, i)
    ensures Collected(Opened(EncodeAll(fs) + half, breaks), calls) == fs
  {
    hide Opened, TwiceTooSmall, ReadAll, Collected, Undelivered;
    EndToEnd(fs, half, breaks, calls);
    OpenedFrames(fs, half, breaks);
    EnoughReads(Opened(EncodeAll(fs) + half, breaks), calls, size);
  }

  // ---- the caller that doubles its buffer --------------------------------------------------------

  const FIRST_BUFFER: nat := 0x1_0000
  const LAST_BUFFER: nat := 0x100_0000

  /** What the worker answers; `Failed` is a read that was closed or late, `Never` no answer at all. */
  datatype Fetched = Data(frame: Frame) | TooLarge | Failed | Never

  /** Which reads of one fetch are in time, by the size of their buffer. */
  datatype Clock = Clock(inTime: nat -> bool)

  /** Read with `bufSize`, and with twice that as long as the frame does not fit. */
  function Fetch(h: Handle, bufSize: nat, clock: Clock): (Handle, Fetched)
    requires bufSize > 0
    decreases LAST_BUFFER - bufSize
  {
    var r := StreamRead(h, Call(bufSize, clock.inTime(bufSize)));
    match r.1
    case Read(frame) => (r.0, Data(frame))
    case BufferTooSmall => if bufSize * 2 > LAST_BUFFER then (r.0, TooLarge) else Fetch(r.0, bufSize * 2, clock)
    case Hangs => (r.0, Never)
    case _ => (r.0, Failed)
  }

  /**
   * A frame is fetched exactly when it comes in time and has at most 128 KiB; a longer one is never answered, and the
   * refusal of frames above 16 MiB is never reached. The stash is empty again whenever there is an answer.
   */
  lemma FetchExactly(h: Handle, clock: Clock)
    requires Ends(h.queue) && h.Handle? && h.pending.None?
    ensures var r := Fetch(h, FIRST_BUFFER, clock);
            var fs := Undelivered(h);
            && (r.1.Data? <==> clock.inTime(FIRST_BUFFER) && fs != [] && |fs[0]| <= 2 * FIRST_BUFFER)
            && (r.1.Never? <==> clock.inTime(FIRST_BUFFER) && fs != [] && |fs[0]| > 2 * FIRST_BUFFER)
            && !r.1.TooLarge?
            && fs == (if r.1.Data? then [r.1.frame] else []) + Undelivered(r.0)
            && Ends(r.0.queue) && (if r.1.Never? then r.0.Stuck? else r.0.Handle? && r.0.pending.None?)
  {
    hide Ends, Undelivered, StreamRead;
    var call := Call(FIRST_BUFFER, clock.inTime(FIRST_BUFFER));
    ReadTakesNext(h, call);
    var r := StreamRead(h, call);
    if r.1.BufferTooSmall? {
      ReadTakesNext(r.0, Call(2 * FIRST_BUFFER, clock.inTime(2 * FIRST_BUFFER)));
      assert r.0.pending.value == Undelivered(r.0)[0] == Undelivered(h)[0] by { StashIsNext(r.0); }
      assert Fetch(h, FIRST_BUFFER, clock) == Fetch(r.0, 2 * FIRST_BUFFER, clock);
    }
  }

  /** Fetches one after another, and the frames they give. */
  function FetchAll(h: Handle, fetches: seq<Clock>): Handle
    decreases |fetches|
  {
    if fetches == [] then h else FetchAll(Fetch(h, FIRST_BUFFER, fetches[0]).0, fetches[1..])
  }

  function Delivered(h: Handle, fetches: seq<Clock>): seq<Frame>
    decreases |fetches|
  {
    if fetches == [] then []
    else
      var r := Fetch(h, FIRST_BUFFER, fetches[0]);
      (if r.1.Data? then [r.1.frame] else []) + Delivered(r.0, fetches[1..])
  }

  /** How many fetches find their frame in time. */
  function Timely(fetches: seq<Clock>): nat {
    if fetches == [] then 0 else (if fetches[0].inTime(FIRST_BUFFER) then 1 else 0) + Timely(fetches[1..])
  }

  /** The frames before the first one of more than 128 KiB. */
  function Fetchable(fs: seq<Frame>): seq<Frame> {
    if fs == [] || |fs[0]| > 2 * FIRST_BUFFER then [] else [fs[0]] + Fetchable(fs[1..])
  }

  lemma {:induction false} FetchablePrefix(fs: seq<Frame>)
    ensures var r := Fetchable(fs);
            r <= fs && AtMost(r, 2 * FIRST_BUFFER) && (r == fs || |fs[|r|]| > 2 * FIRST_BUFFER)
  {
    if fs != [] { FetchablePrefix(fs[1..]); }
  }

  function Least(a: nat, b: nat): nat { if a < b then a else b }

  lemma OneMore(f: Frame, fs: seq<Frame>, n: nat)
    requires |f| <= 2 * FIRST_BUFFER
    ensures var (all, rest) := (Fetchable([f] + fs), Fetchable(fs));
            && |all| == |rest| + 1 && all[..Least(n + 1, |all|)] == [f] + rest[..Least(n, |rest|)]
            && (all == [f] + fs <==> rest == fs)
  {
    assert ([f] + fs)[1..] == fs;
    assert Fetchable([f] + fs) == [f] + Fetchable(fs);
  }

  lemma {:induction false} FetchStuck(h: Handle, fetches: seq<Clock>)
    requires h.Stuck?
    ensures FetchAll(h, fetches) == h && Delivered(h, fetches) == []
    decreases |fetches|
  {
    if fetches != [] {
      assert Fetch(h, FIRST_BUFFER, fetches[0]) == (h, Never);
      FetchStuck(h, fetches[1..]);
    }
  }

  /**
   * What any number of fetches gives: one frame for each that is in time, up to the first frame of more than 128 KiB;
   * the fetch that meets that one is the last.
   */
  lemma {:induction false} FetchedExactly(h: Handle, fetches: seq<Clock>)
    requires Ends(h.queue) && h.Handle? && h.pending.None?
    ensures var fs := Fetchable(Undelivered(h));
            && Delivered(h, fetches) == fs[..Least(Timely(fetches), |fs|)]
            && (FetchAll(h, fetches).Stuck? <==> fs != Undelivered(h) && Timely(fetches) > |fs|)
    decreases |fetches|
  {
    hide Ends, Undelivered, Fetch;
    if fetches != [] {
      FetchExactly(h, fetches[0]);
      var r := Fetch(h, FIRST_BUFFER, fetches[0]);
      if r.1.Never? {
        FetchStuck(r.0, fetches[1..]);
      } else {
        FetchedExactly(r.0, fetches[1..]);
        if r.1.Data? {
          OneMore(r.1.frame, Undelivered(r.0), Timely(fetches[1..]));
        } else {
          assert Undelivered(h) == Undelivered(r.0);
        }
      }
    }
  }

  /** End to end, with a fetch in time for every frame sent: all of them arrive exactly when none exceeds 128 KiB. */
  lemma AllFetchedExactly(fs: seq<Frame>, half: seq<byte>, breaks: bool, fetches: seq<Clock>)
    requires Writable(fs) && !Complete(half) && Timely(fetches) >= |fs|
    ensures Delivered(Opened(EncodeAll(fs) + half, breaks), fetches) == fs <==> AtMost(fs, 2 * FIRST_BUFFER)
  {
    hide Opened, FetchAll, Delivered, Timely, Undelivered;
    OpenedFrames(fs, half, breaks);
    FetchablePrefix(fs);
    FetchedExactly(Opened(EncodeAll(fs) + half, breaks), fetches);
  }

  /** The smallest frame that is never answered, with the buffers it meets. */
  lemma SecondRetryHangs(clock: Clock)
    requires clock.inTime(FIRST_BUFFER)
    ensures var f: Frame := seq(131073, i => 0);
            && ReadAll(Fed([f], Closed), [Call(65536, true), Call(131072, true)]) == Stuck([Closed], f)
            && Fetch(Fed([f], Closed), FIRST_BUFFER, clock) == (Stuck([Closed], f), Never)
  {
    var f: Frame := seq(131073, i => 0);
    var h, h1 := Fed([f], Closed), Handle([Closed], Some(f));
    var a, b := Call(65536, true), Call(131072, true);
    assert h.queue == [FrameEvent(f), Closed] && h.queue[1..] == [Closed];
    assert StreamRead(h, a) == (h1, BufferTooSmall) && StreamRead(h1, b) == (Stuck([Closed], f), Hangs);
    assert [a, b][1..] == [b] && [b][1..] == [];
    assert ReadAll(h, [a, b]) == ReadAll(h1, [b]) == ReadAll(Stuck([Closed], f), []);
    assert Fetch(h, FIRST_BUFFER, clock) == Fetch(h1, 2 * FIRST_BUFFER, clock);
  }

  // ---- as the source has it -----------------------------------------------------------------------

  class Stream {
    var queue: seq<ReadEvent>
    var pending: Option<Frame>
    /** The lock of `pending`. Calls come one at a time, so one that finds it taken waits for a call that hangs. */
    var locked: bool
    /** What the call that hangs has taken out of `pending`. */
    ghost var held: Frame

    constructor (queue: seq<ReadEvent>)
      ensures Model() == Handle(queue, None)
    {
      this.queue, pending, locked, held := queue, None, false, [];
    }

    ghost function Model(): Handle
      reads this
    {
      if locked then Stuck(queue, held) else Handle(queue, pending)
    }

    /** Not granted means not ever: the lock is not reentrant, and whoever has it does not return. */
    method Lock() returns (granted: bool)
      modifies `locked
      ensures locked && granted == !old(locked)
    {
      granted, locked := !locked, true;
    }

    /**
     * The stash is served before the queue, with its lock held; a queued frame that does not fit goes into it, a
     * stashed one that does not fit cannot go back.
     */
    method ReadInto(call: Call) returns (r: Outcome)
      modifies this
      ensures (Model(), r) == StreamRead(old(Model()), call)
    {
      var granted := Lock();
      if !granted { return Hangs; }
      var taken := pending;
      pending := None;
      if taken.Some? {
        if |taken.value| > call.bufLen {
          held := taken.value;
          granted := Lock();
          assert !granted;
          return Hangs;
        }
        locked := false;
        return Read(taken.value);
      }
      locked := false;
      if !call.inTime { return TimedOut; }
      if queue == [] { return StreamClosed; }
      var event := queue[0];
      queue := queue[1..];
      match event
      case FrameEvent(bytes) =>
        if |bytes| > call.bufLen {
          granted := Lock();
          pending := Some(bytes);
          locked := false;
          return BufferTooSmall;
        }
        return Read(bytes);
      case Closed => return StreamClosed;
      case ErrorEvent => return StreamClosed;
    }
  }

  /** The worker's loop; a read that hangs is where it stays. */
  method FetchFrame(s: Stream, clock: Clock) returns (r: Fetched)
    modifies s
    ensures (s.Model(), r) == Fetch(old(s.Model()), FIRST_BUFFER, clock)
  {
    var bufSize := FIRST_BUFFER;
    while true
      invariant bufSize > 0 && Fetch(s.Model(), bufSize, clock) == Fetch(old(s.Model()), FIRST_BUFFER, clock)
      decreases LAST_BUFFER - bufSize
    {
      var n := s.ReadInto(Call(bufSize, clock.inTime(bufSize)));
      match n
      case Read(frame) => return Data(frame);
      case BufferTooSmall =>
        bufSize := bufSize * 2;
        if bufSize > LAST_BUFFER { return TooLarge; }
      case Hangs => return Never;
      case StreamClosed => return Failed;
      case TimedOut => return Failed;
    }
  }
}
