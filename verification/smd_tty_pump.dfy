/**
 * The drain pump (smd_tty_work_func): the deferred work that moves inbound runs from
 * the channel through the slot's receive buffer into the tty's line discipline.
 */
module SmdTtyPump {
  import opened Wrappers
  import opened SmdChannel
  import opened SmdTtyState

  /** Why the pump stopped. */
  datatype StopReason =
    | NoTty      // info->tty was null at entry: nothing ran, no wakeup
    | Throttled  // the tty is throttled
    | NoChannel  // the channel pointer is null
    | Drained    // smd_read_avail reported 0
    | NoBuffer   // rx_buffer was never allocated: the read would write through a null pointer
    | Overrun    // the reported run is longer than rx_buffer: the read would write past it

  /**
   * The pump's working state: the slot, its tty, how many "buffer mismatch" reports
   * were printed, and how many runs were moved.
   */
  datatype PumpState = PumpState(info: Info, tty: Tty, oopses: nat, passes: nat)

  datatype PumpResult = PumpResult(s: PumpState, stop: StopReason)

  /**
   * What running the slot's work item comes to: the slot and its tty as the work queue
   * leaves them, or the fault of calling the handler of an item INIT_WORK never set up
   * (its function pointer is null), with the slot and tty as they were.
   */
  datatype WorkRun = Ran(info: Info, tty: Tty) | NullHandler(info: Info, tty: Tty)

  /** The receive buffer after a read, and what is handed to the line discipline. */
  datatype Received = Received(buffer: seq<byte>, delivered: seq<byte>)

  /**
   * One read-and-deliver on the receive buffer: smd_read copies `got` (at most `avail`
   * bytes) to the front of the buffer, and the line discipline is then handed the first
   * `avail` bytes of the buffer, whatever the read returned.
   */
  function ReadIntoBuffer(rx: seq<byte>, got: seq<byte>, avail: nat): (r: Received)
    requires |got| <= avail <= |rx|
    ensures |r.buffer| == |rx|
    ensures r.buffer[..|got|] == got && r.buffer[|got|..] == rx[|got|..]
    ensures |r.delivered| == avail && r.delivered[..|got|] == got
    ensures r.delivered[|got|..] == rx[|got|..avail]
  {
    var buffer := got + rx[|got|..];
    Received(buffer, buffer[..avail])
  }

  /** Inbound bytes still queued in the slot's channel: the pump's termination measure. */
  function ChannelBytes(info: Info): (n: nat)
    ensures info.ch.Some? ==> n == Pending(info.ch.value)
  {
    if info.ch.None? then 0 else Pending(info.ch.value)
  }

  /** `after` extends `before` by exactly the bytes that left the queue, in queue order. */
  predicate MovedInOrder(before: seq<byte>, after: seq<byte>, queuedBefore: seq<byte>, queuedAfter: seq<byte>) {
    && |before| <= |after|
    && after[..|before|] == before
    && after[|before|..] + queuedAfter == queuedBefore
  }

  /**
   * What the pump may change between two of its states: only the channel's inbound queue
   * and read script, the receive buffer's contents, the wake-lock timeouts (one per pass)
   * and the tty's receive state. The tty receives exactly as many bytes as leave the
   * queue, which keeps its tail; when every read is complete they are those bytes, in order.
   */
  predicate PumpFrame(s: PumpState, r: PumpState) {
    && r.info == s.info.(ch := r.info.ch, rxBuffer := r.info.rxBuffer, wakeLock := r.info.wakeLock)
    && (r.info.ch.Some? <==> s.info.ch.Some?)
    && (s.info.ch.Some? ==> QueueFrame(s.info.ch.value, r.info.ch.value, s.tty.received, r.tty.received))
    && |r.info.rxBuffer| == |s.info.rxBuffer|
    && r.passes >= s.passes
    && r.info.wakeLock == (match s.info.wakeLock
         case NoWakeLock => NoWakeLock
         case WakeLock(name, n) => WakeLock(name, n + (r.passes - s.passes)))
    && r.tty == s.tty.(received := r.tty.received, throttled := r.tty.throttled, room := r.tty.room)
  }

  /** How the channel and the received bytes relate between two pump states. */
  predicate QueueFrame(c: Channel, d: Channel, before: seq<byte>, after: seq<byte>) {
    && d == c.(inbound := d.inbound, shortReads := d.shortReads)
    && Pending(d) <= Pending(c)
    && Flatten(d.inbound) == Flatten(c.inbound)[Pending(c) - Pending(d)..]
    && |before| <= |after| && after[..|before|] == before
    && |after| - |before| == Pending(c) - Pending(d)
    && (CompleteReads(c) ==>
          CompleteReads(d) && MovedInOrder(before, after, Flatten(c.inbound), Flatten(d.inbound)))
  }

  lemma PumpFrameTrans(a: PumpState, b: PumpState, c: PumpState)
    requires PumpFrame(a, b) && PumpFrame(b, c)
    ensures PumpFrame(a, c)
  {
    if a.info.ch.Some? {
      QueueFrameTrans(a.info.ch.value, b.info.ch.value, c.info.ch.value,
                      a.tty.received, b.tty.received, c.tty.received);
    }
  }

  lemma QueueFrameTrans(c: Channel, d: Channel, e: Channel, x: seq<byte>, y: seq<byte>, z: seq<byte>)
    requires QueueFrame(c, d, x, y) && QueueFrame(d, e, y, z)
    ensures QueueFrame(c, e, x, z)
  {
    SuffixTrans(Flatten(c.inbound), Flatten(d.inbound), Flatten(e.inbound));
    PrefixTrans(x, y, z);
    if CompleteReads(c) {
      MovedInOrderTrans(x, y, z, Flatten(c.inbound), Flatten(d.inbound), Flatten(e.inbound));
    }
  }

  lemma SuffixTrans(a: seq<byte>, b: seq<byte>, c: seq<byte>)
    requires |b| <= |a| && b == a[|a| - |b|..]
    requires |c| <= |b| && c == b[|b| - |c|..]
    ensures c == a[|a| - |c|..]
  {
  }

  lemma PrefixTrans(a: seq<byte>, b: seq<byte>, c: seq<byte>)
    requires |a| <= |b| && b[..|a|] == a
    requires |b| <= |c| && c[..|b|] == b
    ensures c[..|a|] == a
  {
    assert c[..|a|] == b[..|a|];
  }

  lemma MovedInOrderTrans(a: seq<byte>, b: seq<byte>, c: seq<byte>,
                          qa: seq<byte>, qb: seq<byte>, qc: seq<byte>)
    requires MovedInOrder(a, b, qa, qb) && MovedInOrder(b, c, qb, qc)
    ensures MovedInOrder(a, c, qa, qc)
  {
    assert c[|a|..] == b[|a|..] + c[|b|..] by {
      assert c == b + c[|b|..];
    }
  }

  /**
   * The reads the pump made between two states: each pass consumes one answer of the
   * channel's read script, and the mismatch count grows by the short answers among them.
   */
  predicate ReadsCounted(s: PumpState, r: PumpState) {
    if s.info.ch.None? then r.oopses == s.oopses && r.passes == s.passes
    else
      && r.passes >= s.passes && r.info.ch.Some?
      && r.info.ch.value.shortReads == ScriptAfter(s.info.ch.value.shortReads, r.passes - s.passes)
      && r.oopses == s.oopses + ShortsIn(s.info.ch.value.shortReads, r.passes - s.passes)
  }

  lemma {:induction false} ShortsAppend(p: seq<nat>, q: seq<nat>)
    ensures Shorts(p + q) == Shorts(p) + Shorts(q)
    decreases |p|
  {
    if |p| > 0 {
      assert (p + q)[0] == p[0] && (p + q)[1..] == p[1..] + q;
      ShortsAppend(p[1..], q);
    } else {
      assert p + q == q;
    }
  }

  lemma ShortsInSplit(script: seq<nat>, i: nat, j: nat)
    ensures ScriptAfter(ScriptAfter(script, i), j) == ScriptAfter(script, i + j)
    ensures ShortsIn(script, i + j) == ShortsIn(script, i) + ShortsIn(ScriptAfter(script, i), j)
  {
    var rest := ScriptAfter(script, i);
    assert script[..Min(i + j, |script|)] == script[..Min(i, |script|)] + rest[..Min(j, |rest|)];
    ShortsAppend(script[..Min(i, |script|)], rest[..Min(j, |rest|)]);
  }

  lemma ReadsCountedTrans(a: PumpState, b: PumpState, c: PumpState)
    requires ReadsCounted(a, b) && ReadsCounted(b, c)
    requires b.info.ch.Some? <==> a.info.ch.Some?
    ensures ReadsCounted(a, c)
  {
    if a.info.ch.Some? {
      var x := a.info.ch.value.shortReads;
      var i := b.passes - a.passes;
      var j := c.passes - b.passes;
      assert b.info.ch.value.shortReads == ScriptAfter(x, i);
      assert c.info.ch.value.shortReads == ScriptAfter(ScriptAfter(x, i), j);
      ShortsInSplit(x, i, j);
      assert c.passes - a.passes == i + j;
    }
  }

  /** The loop keeps going: not throttled, a channel, a non-empty run that fits the buffer. */
  predicate Continues(s: PumpState) {
    && !s.tty.throttled
    && s.info.ch.Some?
    && 0 < ReadAvail(s.info.ch.value) <= |s.info.rxBuffer|
  }

  /**
   * One pass of the loop (lines 113-130): read the reported run into the buffer, report a
   * mismatch if the read came up short, hand `avail` bytes to the line discipline and
   * re-arm the wake lock. A short read delivers the bytes it got followed by whatever the
   * buffer held beyond them, up to `avail`.
   */
  function Pass(s: PumpState): (n: PumpState)
    requires Continues(s)
    ensures n.passes == s.passes + 1
    ensures ChannelBytes(n.info) < ChannelBytes(s.info)
    ensures n.info.ch.Some? && n.info.ch.value.inbound == s.info.ch.value.inbound[1..]
    ensures var run := s.info.ch.value.inbound[0];
      var got := |run| - Min(NextShortfall(s.info.ch.value), |run|);
      && n.oopses == s.oopses + (if got < |run| then 1 else 0)
      && n.info.rxBuffer == run[..got] + s.info.rxBuffer[got..]
      && n.tty == Deliver(s.tty, run[..got] + s.info.rxBuffer[got..|run|])
    ensures NextShortfall(s.info.ch.value) == 0 ==> n.tty == Deliver(s.tty, s.info.ch.value.inbound[0])
  {
    var ch := s.info.ch.value;
    var avail := ReadAvail(ch);
    var rd := Read(ch, avail);
    var rcv := ReadIntoBuffer(s.info.rxBuffer, rd.got, avail);
    var oops := if |rd.got| != avail then 1 else 0;
    var info' := s.info.(ch := Some(rd.ch), rxBuffer := rcv.buffer,
                         wakeLock := Rearm(s.info.wakeLock));
    assert rcv.delivered == rd.got + s.info.rxBuffer[|rd.got|..avail];
    PumpState(info', Deliver(s.tty, rcv.delivered), s.oopses + oops, s.passes + 1)
  }

  /** One pass stays inside the pump's frame and consumes one answer of the read script. */
  lemma PassFrame(s: PumpState)
    requires Continues(s)
    ensures PumpFrame(s, Pass(s)) && ReadsCounted(s, Pass(s))
  {
    var ch := s.info.ch.value;
    PassQueue(ch, s.info.rxBuffer, s.tty.received);
    if |ch.shortReads| > 0 {
      assert ch.shortReads[..1] == [ch.shortReads[0]];
    }
  }

  /** The channel side of one pass: the run leaves the queue and `avail` bytes reach the tty. */
  lemma PassQueue(ch: Channel, rx: seq<byte>, before: seq<byte>)
    requires 0 < ReadAvail(ch) <= |rx|
    ensures var avail := ReadAvail(ch);
      var rd := Read(ch, avail);
      var rcv := ReadIntoBuffer(rx, rd.got, avail);
      && rd.ch.inbound == ch.inbound[1..]
      && rcv.delivered == rd.got + rx[|rd.got|..avail]
      && QueueFrame(ch, rd.ch, before, before + rcv.delivered)
  {
    var avail := ReadAvail(ch);
    var rd := Read(ch, avail);
    var rcv := ReadIntoBuffer(rx, rd.got, avail);
    var after := before + rcv.delivered;
    assert rcv.delivered == rd.got + rx[|rd.got|..avail];
    assert after[..|before|] == before && after[|before|..] == rcv.delivered;
    if CompleteReads(ch) {
      assert NextShortfall(ch) == 0;
      assert rd.got == Flatten(ch.inbound)[..avail];
      assert Flatten(ch.inbound) == rd.got + Flatten(rd.ch.inbound);
    }
  }

  /** The for(;;) loop of smd_tty_work_func, from state `s` until it breaks. */
  function PumpLoop(s: PumpState): (r: PumpResult)
    ensures r.stop != NoTty
    ensures r.stop == Throttled ==> r.s.tty.throttled
    ensures r.stop == NoChannel ==> r.s.info.ch.None?
    ensures r.stop == Drained ==> r.s.info.ch.Some? && ReadAvail(r.s.info.ch.value) == 0
    ensures r.stop == NoBuffer ==>
      r.s.info.ch.Some? && ReadAvail(r.s.info.ch.value) > 0 && r.s.info.rxBuffer == []
    ensures r.stop == Overrun ==>
      r.s.info.ch.Some? && ReadAvail(r.s.info.ch.value) > |r.s.info.rxBuffer| > 0
    ensures !Continues(s) ==> r.s == s
    ensures !s.tty.throttled && s.info.ch.Some? && ReadAvail(s.info.ch.value) > 0 && s.info.rxBuffer == [] ==>
      r == PumpResult(s, NoBuffer)
    ensures s.tty.throttled ==> r == PumpResult(s, Throttled)
    decreases ChannelBytes(s.info)
  {
    if s.tty.throttled then PumpResult(s, Throttled)
    else if s.info.ch.None? then PumpResult(s, NoChannel)
    else if ReadAvail(s.info.ch.value) == 0 then PumpResult(s, Drained)
    else if |s.info.rxBuffer| == 0 then PumpResult(s, NoBuffer)
    else if ReadAvail(s.info.ch.value) > |s.info.rxBuffer| then PumpResult(s, Overrun)
    else
      PumpLoop(Pass(s))
  }

  /**
   * Whatever way the loop ends, it stays inside the pump's frame, and its mismatch count
   * grows by the short reads among the passes it made.
   */
  lemma {:induction false} PumpLoopFrame(s: PumpState)
    ensures PumpFrame(s, PumpLoop(s).s) && ReadsCounted(s, PumpLoop(s).s)
    decreases ChannelBytes(s.info)
  {
    if Continues(s) {
      var n := Pass(s);
      assert PumpLoop(s) == PumpLoop(n);
      PassFrame(s);
      PumpLoopFrame(n);
      PumpFrameTrans(s, n, PumpLoop(n).s);
      ReadsCountedTrans(s, n, PumpLoop(n).s);
    }
  }

  /**
   * smd_tty_work_func: nothing happens while the slot has no tty; otherwise the loop
   * runs and the tty is sent exactly one wakeup afterwards.
   */
  function Pump(info: Info, tty: Tty): (r: PumpResult)
    ensures !info.ttyAttached ==> r == PumpResult(PumpState(info, tty, 0, 0), NoTty)
    ensures info.ttyAttached ==> r.stop != NoTty && r.s.tty.wakeups == tty.wakeups + 1
    ensures info.ttyAttached && tty.throttled ==>
      r == PumpResult(PumpState(info, tty.(wakeups := tty.wakeups + 1), 0, 0), Throttled)
    ensures info.ttyAttached && info.ch.None? ==>
      r == PumpResult(PumpState(info, tty.(wakeups := tty.wakeups + 1), 0, 0),
                      if tty.throttled then Throttled else NoChannel)
    ensures info.ch.Some? ==>
      && r.s.info.ch.Some?
      && r.s.oopses == ShortsIn(info.ch.value.shortReads, r.s.passes)
      && Pending(r.s.info.ch.value) <= Pending(info.ch.value)
      && |r.s.tty.received| == |tty.received| + Pending(info.ch.value) - Pending(r.s.info.ch.value)
      && r.s.tty.received[..|tty.received|] == tty.received
      && (CompleteReads(info.ch.value) ==>
            MovedInOrder(tty.received, r.s.tty.received,
                         Flatten(info.ch.value.inbound), Flatten(r.s.info.ch.value.inbound)))
    ensures info.ch.None? ==> r.s.oopses == 0
    ensures info.wakeLock.WakeLock? ==>
      r.s.info.wakeLock == WakeLock(info.wakeLock.name, info.wakeLock.timeouts + r.s.passes)
    ensures r.s.info.openCount == info.openCount && r.s.info.ttyAttached == info.ttyAttached
    ensures r.s.info.workPending == info.workPending && r.s.info.workReady == info.workReady
    ensures r.s.info.ch.Some? <==> info.ch.Some?
    ensures r.s.info.wakeLock.WakeLock? <==> info.wakeLock.WakeLock?
    ensures r.s.tty.index == tty.index && r.s.tty.driverData == tty.driverData
    ensures r.s.tty.hangups == tty.hangups
  {
    if !info.ttyAttached then PumpResult(PumpState(info, tty, 0, 0), NoTty)
    else
      var s := PumpState(info, tty, 0, 0);
      var r := PumpLoop(s);
      PumpLoopFrame(s);
      PumpResult(r.s.(tty := r.s.tty.(wakeups := r.s.tty.wakeups + 1)), r.stop)
  }

  /**
   * With an unthrottled tty that has room for everything queued, and runs that fit the
   * buffer, the loop drains the channel, one pass (and one wake-lock re-arm) per run, and
   * the tty receives as many bytes as were queued. When every read is complete they are
   * the channel's bytes in channel order.
   */
  lemma PumpLoopDrains(s: PumpState)
    requires s.info.ch.Some? && WellFormed(s.info.ch.value)
    requires RunsFit(s.info.ch.value, |s.info.rxBuffer|)
    requires !s.tty.throttled && s.tty.room > ChannelBytes(s.info)
    ensures PumpLoop(s).stop == Drained
    ensures PumpLoop(s).s.info.ch.Some? && PumpLoop(s).s.info.ch.value.inbound == []
    ensures |PumpLoop(s).s.tty.received| == |s.tty.received| + ChannelBytes(s.info)
    ensures CompleteReads(s.info.ch.value) ==>
      PumpLoop(s).s.tty.received == s.tty.received + Flatten(s.info.ch.value.inbound)
    ensures PumpLoop(s).s.passes == s.passes + |s.info.ch.value.inbound|
  {
    DrainsAll(s);
    PumpLoopFrame(s);
    var r := PumpLoop(s).s;
    var c, d := s.info.ch.value, r.info.ch.value;
    assert QueueFrame(c, d, s.tty.received, r.tty.received);
    assert Flatten(d.inbound) == [];
    if CompleteReads(c) {
      InOrderDrained(s.tty.received, r.tty.received, Flatten(c.inbound));
    }
  }

  /** Moving everything that was queued, in order, appends exactly the queue. */
  lemma InOrderDrained(before: seq<byte>, after: seq<byte>, queued: seq<byte>)
    requires MovedInOrder(before, after, queued, [])
    ensures after == before + queued
  {
    assert after == after[..|before|] + after[|before|..];
  }

  /** The induction behind a drain: one pass per run, ending with an empty channel. */
  lemma {:induction false} DrainsAll(s: PumpState)
    requires s.info.ch.Some? && WellFormed(s.info.ch.value)
    requires RunsFit(s.info.ch.value, |s.info.rxBuffer|)
    requires !s.tty.throttled && s.tty.room > ChannelBytes(s.info)
    ensures PumpLoop(s).stop == Drained
    ensures PumpLoop(s).s.info.ch.Some? && PumpLoop(s).s.info.ch.value.inbound == []
    ensures PumpLoop(s).s.passes == s.passes + |s.info.ch.value.inbound|
    decreases ChannelBytes(s.info)
  {
    var ch := s.info.ch.value;
    if |ch.inbound| == 0 {
      assert ReadAvail(ch) == 0;
    } else {
      DrainStep(s);
      var n := Pass(s);
      assert PumpLoop(s) == PumpLoop(n);
      DrainsAll(n);
    }
  }

  /** One pass of a drain: the next state meets the drain's hypotheses again. */
  lemma DrainStep(s: PumpState)
    requires s.info.ch.Some? && WellFormed(s.info.ch.value) && |s.info.ch.value.inbound| > 0
    requires RunsFit(s.info.ch.value, |s.info.rxBuffer|)
    requires !s.tty.throttled && s.tty.room > ChannelBytes(s.info)
    ensures Continues(s)
    ensures var n := Pass(s);
      && n.info.ch.Some? && WellFormed(n.info.ch.value)
      && RunsFit(n.info.ch.value, |n.info.rxBuffer|)
      && !n.tty.throttled && n.tty.room > ChannelBytes(n.info)
      && |n.info.ch.value.inbound| + 1 == |s.info.ch.value.inbound|
  {
    var ch := s.info.ch.value;
    assert Continues(s);
    var n := Pass(s);
    PassFrame(s);
    assert ch.inbound[1..] == n.info.ch.value.inbound;
    assert Flatten(ch.inbound) == ch.inbound[0] + Flatten(n.info.ch.value.inbound);
    assert RunsFit(n.info.ch.value, |n.info.rxBuffer|) by {
      forall i | 0 <= i < |n.info.ch.value.inbound|
        ensures |n.info.ch.value.inbound[i]| <= |n.info.rxBuffer|
      {
        assert n.info.ch.value.inbound[i] == ch.inbound[i + 1];
      }
    }
  }

  /**
   * A short read corrupts what the line discipline sees. On a channel holding one run
   * whose read comes up `k` bytes short, the pump reports one mismatch and delivers the
   * bytes it got followed by the buffer's stale bytes up to the run's length; the tty
   * receives the run itself only when those stale bytes happen to equal the lost ones.
   */
  lemma ShortReadDeliversStaleBytes(info: Info, tty: Tty, run: seq<byte>)
    requires info.ttyAttached && !tty.throttled && tty.room > |run|
    requires info.ch.Some? && info.ch.value.inbound == [run]
    requires 0 < |run| <= |info.rxBuffer|
    requires 0 < NextShortfall(info.ch.value) <= |run|
    ensures var got := |run| - NextShortfall(info.ch.value);
      && Pump(info, tty).stop == Drained
      && Pump(info, tty).s.oopses == 1
      && Pump(info, tty).s.tty.received == tty.received + run[..got] + info.rxBuffer[got..|run|]
      && (Pump(info, tty).s.tty.received == tty.received + run
          <==> info.rxBuffer[got..|run|] == run[got..])
  {
    var got := |run| - NextShortfall(info.ch.value);
    var s := PumpState(info, tty, 0, 0);
    assert Continues(s);
    var n := Pass(s);
    assert n.info.ch.value.inbound == [];
    assert PumpLoop(s) == PumpLoop(n);
    var front := tty.received + run[..got];
    assert tty.received + run == front + run[got..] by {
      assert run == run[..got] + run[got..];
    }
    AppendCancel(front, info.rxBuffer[got..|run|], run[got..]);
  }

  lemma AppendCancel(a: seq<byte>, x: seq<byte>, y: seq<byte>)
    ensures a + x == a + y <==> x == y
  {
    if a + x == a + y {
      assert x == (a + x)[|a|..] && y == (a + y)[|a|..];
    }
  }

  /**
   * The work function as written, with the mutex as a held flag: the lock is taken
   * after the throttle test and dropped on every way out of the loop and at the end of
   * every pass.
   */
  method WorkFunc(info: Info, tty: Tty) returns (r: PumpResult, lockHeld: bool)
    ensures r == Pump(info, tty)
    ensures !lockHeld
  {
    lockHeld := false;
    if !info.ttyAttached {
      r := PumpResult(PumpState(info, tty, 0, 0), NoTty);
      return;
    }
    var s := PumpState(info, tty, 0, 0);
    var stop := Drained;
    while true
      invariant !lockHeld
      invariant PumpLoop(s) == PumpLoop(PumpState(info, tty, 0, 0))
      decreases ChannelBytes(s.info)
    {
      if s.tty.throttled {
        stop := Throttled;
        assert PumpLoop(s) == PumpResult(s, stop);
        break;
      }
      lockHeld := true;
      if s.info.ch.None? {
        lockHeld := false;
        stop := NoChannel;
        assert PumpLoop(s) == PumpResult(s, stop);
        break;
      }
      var ch := s.info.ch.value;
      var avail := ReadAvail(ch);
      if avail == 0 {
        lockHeld := false;
        stop := Drained;
        assert PumpLoop(s) == PumpResult(s, stop);
        break;
      }
      if |s.info.rxBuffer| == 0 {
        lockHeld := false;
        stop := NoBuffer;
        assert PumpLoop(s) == PumpResult(s, stop);
        break;
      }
      if avail > |s.info.rxBuffer| {
        lockHeld := false;
        stop := Overrun;
        assert PumpLoop(s) == PumpResult(s, stop);
        break;
      }
      assert PumpLoop(s) == PumpLoop(Pass(s));
      s := Pass(s);
      lockHeld := false;
    }
    r := PumpResult(s.(tty := s.tty.(wakeups := s.tty.wakeups + 1)), stop);
    assert PumpLoop(s) == PumpResult(s, stop);
    assert Pump(info, tty) == PumpResult(s.(tty := s.tty.(wakeups := s.tty.wakeups + 1)), stop);
  }

  /**
   * The work queue running the slot's work item: a queued pump is dequeued and run; an
   * idle work item does nothing. A queued item that INIT_WORK never set up (its slot was
   * not in the channel list at initialisation) faults instead of running.
   */
  function RunWork(info: Info, tty: Tty): (r: WorkRun)
    ensures r.NullHandler? <==> info.workPending && !info.workReady
    ensures r.NullHandler? ==> r.info == info && r.tty == tty
    ensures !info.workPending ==> r == Ran(info, tty)
    ensures r.Ran? ==> !r.info.workPending
    ensures info.workPending && info.workReady ==>
      r == Ran(Pump(info.(workPending := false), tty).s.info,
               Pump(info.(workPending := false), tty).s.tty)
  {
    if !info.workPending then Ran(info, tty)
    else if !info.workReady then NullHandler(info, tty)
    else
      var p := Pump(info.(workPending := false), tty);
      Ran(p.s.info, p.s.tty)
  }
}
