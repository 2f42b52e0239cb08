/**
 * Properties that relate several operations of the bridge: the reference-counting
 * invariant over any sequence of calls on one tty, open/close round trips, the behaviour
 * of a failed first open, and draining after a throttle is lifted.
 */
module SmdTtyProperties {
  import opened Wrappers
  import opened SmdChannel
  import opened SmdTtyState
  import opened SmdTtyRegistry
  import opened SmdTtyPump
  import opened SmdTtyIo
  import opened SmdTtyLifecycle

  /** The bridge together with the tty of the index being exercised. */
  datatype Session = Session(bridge: Bridge, tty: Tty)

  /** A call arriving at the bridge for the session's tty. */
  datatype Op =
    | OpenOp(reply: OpenReply)
    | CloseOp
    | NotifyOp(event: Event)
    | UnthrottleOp
    | RunWorkOp

  /**
   * One call. Events come only from an open channel; a CLOSE event's hangup reaches the
   * tty; the work queue runs the slot's item when it gets to it.
   */
  function Step(s: Session, op: Op): (r: Session)
    requires Wf(s.bridge) && s.tty.index < MAX_SMD_TTYS
    ensures Wf(r.bridge) && r.tty.index == s.tty.index
    ensures r.bridge.channels == s.bridge.channels
    ensures r.bridge.slots == s.bridge.slots[s.tty.index := r.bridge.slots[s.tty.index]]
  {
    var n := s.tty.index;
    var info := s.bridge.slots[n];
    match op
    case OpenOp(reply) =>
      var o := Open(s.bridge, s.tty, reply);
      Session(o.bridge, o.tty)
    case CloseOp =>
      var c := Close(s.bridge, s.tty);
      Session(c.bridge, c.tty)
    case NotifyOp(event) =>
      if info.ch.None? then s
      else
        var e := Notify(info, event);
        Session(Bridge(s.bridge.channels, s.bridge.slots[n := e.info]),
                if e.hangup then Hangup(s.tty) else s.tty)
    case UnthrottleOp =>
      Session(Bridge(s.bridge.channels, s.bridge.slots[n := Unthrottle(info)]), s.tty)
    case RunWorkOp =>
      var w := RunWork(info, s.tty);
      Session(Bridge(s.bridge.channels, s.bridge.slots[n := w.info]), w.tty)
  }

  /** A sequence of calls, in order. */
  function Run(s: Session, ops: seq<Op>): (r: Session)
    requires Wf(s.bridge) && s.tty.index < MAX_SMD_TTYS
    ensures Wf(r.bridge) && r.tty.index == s.tty.index
    decreases |ops|
  {
    if |ops| == 0 then s else Run(Step(s, ops[0]), ops[1..])
  }

  /** The slot of the session's tty satisfies the reference-counting invariant. */
  predicate SessionInv(s: Session) {
    Wf(s.bridge) && s.tty.index < MAX_SMD_TTYS && SlotInv(s.bridge.slots[s.tty.index], s.tty)
  }

  /** Running queued work never disturbs the reference-counting invariant. */
  lemma RunWorkPreservesInv(info: Info, tty: Tty)
    requires SlotInv(info, tty)
    ensures SlotInv(RunWork(info, tty).info, RunWork(info, tty).tty)
  {
  }

  lemma OpenPreservesInv(b: Bridge, tty: Tty, reply: OpenReply)
    requires Wf(b) && tty.index < MAX_SMD_TTYS && SlotInv(b.slots[tty.index], tty)
    ensures SlotInv(Open(b, tty, reply).bridge.slots[tty.index], Open(b, tty, reply).tty)
  {
  }

  lemma ClosePreservesInv(b: Bridge, tty: Tty)
    requires Wf(b) && tty.index < MAX_SMD_TTYS && SlotInv(b.slots[tty.index], tty)
    ensures SlotInv(Close(b, tty).bridge.slots[tty.index], Close(b, tty).tty)
  {
  }

  /**
   * Every sequence of opens, closes, events, unthrottles and work-queue runs on one tty
   * keeps the invariant: the count never goes negative, and an unopened slot holds no
   * channel, tty, wake lock or driver data.
   */
  lemma {:induction false} RunPreservesInv(s: Session, ops: seq<Op>)
    requires SessionInv(s)
    ensures SessionInv(Run(s, ops))
    decreases |ops|
  {
    if |ops| > 0 {
      var n := s.tty.index;
      match ops[0] {
        case OpenOp(reply) => OpenPreservesInv(s.bridge, s.tty, reply);
        case CloseOp => ClosePreservesInv(s.bridge, s.tty);
        case NotifyOp(_) =>
        case UnthrottleOp =>
        case RunWorkOp => RunWorkPreservesInv(s.bridge.slots[n], s.tty);
      }
      RunPreservesInv(Step(s, ops[0]), ops[1..]);
    }
  }

  /**
   * Under the invariant the kick branch of open is dead: a last close always closes the
   * channel, so a first open never finds one to kick.
   */
  lemma FirstOpenNeverKicks(info: Info, tty: Tty, name: string, reply: OpenReply)
    requires SlotInv(info, tty) && info.openCount == 0
    ensures OpenSlot(info, name, reply).info.ch == (if reply.Opened? then Some(reply.ch) else None)
  {
  }

  /**
   * A first open whose smd_open fails returns the failure but leaves the slot counted
   * as open, with its tty and wake lock and without a channel.
   */
  lemma FailedOpenStaysCounted(b: Bridge, tty: Tty, err: Errno)
    requires Wf(b) && tty.index < MAX_SMD_TTYS
    requires LookupName(b.channels, tty.index).Some?
    requires SlotInv(b.slots[tty.index], tty) && b.slots[tty.index].openCount == 0
    ensures Open(b, tty, Refused(err)).res == err
    ensures Open(b, tty, Refused(err)).bridge.slots[tty.index].openCount == 1
    ensures Open(b, tty, Refused(err)).bridge.slots[tty.index].ch.None?
    ensures Open(b, tty, Refused(err)).tty.driverData
  {
  }

  /**
   * A second open after a failed first one succeeds: it returns 0 and leaves the slot open
   * twice with no channel, so write, write_room and chars_in_buffer on the tty would hand
   * a null channel to the transport.
   */
  lemma SecondOpenAfterFailureSucceedsWithoutChannel(b: Bridge, tty: Tty, err: Errno, reply: OpenReply)
    requires Wf(b) && tty.index < MAX_SMD_TTYS
    requires LookupName(b.channels, tty.index).Some?
    requires SlotInv(b.slots[tty.index], tty) && b.slots[tty.index].openCount == 0
    ensures var first := Open(b, tty, Refused(err));
      var second := Open(first.bridge, first.tty, reply);
      var info := second.bridge.slots[tty.index];
      && second.res == 0
      && info.openCount == 2 && info.ch.None? && second.tty.driverData
      && WriteRoom(info).NullChannel? && CharsInBuffer(info).NullChannel?
      && (forall buf :: SmdTtyIo.Write(info, buf).NullChannel?)
  {
  }

  /**
   * Swapping the channel list decides what open does next: without a descriptor for the
   * index in the new list open fails with -ENODEV and changes nothing; otherwise it opens
   * the slot of that index under the first matching descriptor's name and leaves every
   * other slot alone.
   */
  lemma SetChannelListThenOpen(b: Bridge, channels: seq<ChannelDesc>, tty: Tty, reply: OpenReply)
    requires Wf(b) && tty.index < MAX_SMD_TTYS
    ensures var swapped := SetChannelList(b, channels).bridge;
      var o := Open(swapped, tty, reply);
      (o.res == -ENODEV && o.bridge == swapped && o.tty == tty)
      <==> (forall i :: 0 <= i < |channels| ==> channels[i].id != tty.index)
    ensures var swapped := SetChannelList(b, channels).bridge;
      var o := Open(swapped, tty, reply);
      forall i | 0 <= i < |channels| && channels[i].id == tty.index
                 && (forall j :: 0 <= j < i ==> channels[j].id != tty.index) ::
        var slot := OpenSlot(b.slots[tty.index], channels[i].name, reply);
        && o.bridge == Bridge(channels, b.slots[tty.index := slot.info])
        && o.res == slot.res && o.tty == tty.(driverData := true)
  {
    var swapped := SetChannelList(b, channels).bridge;
    var o := Open(swapped, tty, reply);
    if LookupName(channels, tty.index).Some? {
      var name := LookupName(channels, tty.index).value;
      var slot := OpenSlot(b.slots[tty.index], name, reply);
      assert o.bridge.slots[tty.index].openCount == b.slots[tty.index].openCount + 1;
      assert o.bridge != swapped by {
        assert o.bridge.slots[tty.index] != swapped.slots[tty.index];
      }
      forall i | 0 <= i < |channels| && channels[i].id == tty.index
                 && (forall j :: 0 <= j < i ==> channels[j].id != tty.index)
        ensures channels[i].name == name
      {
        var k := Find(channels, tty.index).value;
        assert !(k < i) && !(i < k);
      }
    }
  }

  /**
   * Open followed by close on an idle slot with no queued work puts the bridge and the
   * tty back exactly as they were, and closes the channel the open obtained.
   */
  lemma OpenThenCloseRestores(b: Bridge, tty: Tty, reply: OpenReply)
    requires Wf(b) && tty.index < MAX_SMD_TTYS
    requires LookupName(b.channels, tty.index).Some?
    requires SlotInv(b.slots[tty.index], tty) && b.slots[tty.index].openCount == 0
    requires !b.slots[tty.index].workPending
    ensures Close(Open(b, tty, reply).bridge, Open(b, tty, reply).tty).bridge == b
    ensures Close(Open(b, tty, reply).bridge, Open(b, tty, reply).tty).tty == tty
    ensures Close(Open(b, tty, reply).bridge, Open(b, tty, reply).tty).closed
            == (if reply.Opened? then Some(reply.ch) else None)
  {
  }

  /** One open per reply, in order. */
  function OpenEach(s: Session, replies: seq<OpenReply>): (r: Session)
    requires Wf(s.bridge) && s.tty.index < MAX_SMD_TTYS
    ensures Wf(r.bridge) && r.tty.index == s.tty.index
    decreases |replies|
  {
    if |replies| == 0 then s else OpenEach(Step(s, OpenOp(replies[0])), replies[1..])
  }

  /** `k` closes in a row. */
  function CloseTimes(s: Session, k: nat): (r: Session)
    requires Wf(s.bridge) && s.tty.index < MAX_SMD_TTYS
    ensures Wf(r.bridge) && r.tty.index == s.tty.index
    decreases k
  {
    if k == 0 then s else CloseTimes(Step(s, CloseOp), k - 1)
  }

  /** What the opens may change: only the count, tty, wake lock and channel of the slot, and the driver data. */
  predicate OnlyOpenState(s: Session, r: Session) {
    && Wf(s.bridge) && Wf(r.bridge) && s.tty.index < MAX_SMD_TTYS
    && r.bridge.channels == s.bridge.channels
    && r.bridge.slots == s.bridge.slots[s.tty.index := r.bridge.slots[s.tty.index]]
    && r.bridge.slots[s.tty.index] == s.bridge.slots[s.tty.index].(
         openCount := r.bridge.slots[s.tty.index].openCount,
         ttyAttached := r.bridge.slots[s.tty.index].ttyAttached,
         wakeLock := r.bridge.slots[s.tty.index].wakeLock,
         ch := r.bridge.slots[s.tty.index].ch)
    && r.tty == s.tty.(driverData := r.tty.driverData)
  }

  lemma {:induction false} OpenEachCounts(s: Session, replies: seq<OpenReply>)
    requires SessionInv(s) && LookupName(s.bridge.channels, s.tty.index).Some?
    ensures SessionInv(OpenEach(s, replies))
    ensures OnlyOpenState(s, OpenEach(s, replies))
    ensures OpenEach(s, replies).bridge.slots[s.tty.index].openCount
            == s.bridge.slots[s.tty.index].openCount + |replies|
    decreases |replies|
  {
    if |replies| > 0 {
      var s' := Step(s, OpenOp(replies[0]));
      OpenPreservesInv(s.bridge, s.tty, replies[0]);
      OpenEachCounts(s', replies[1..]);
    }
  }

  lemma {:induction false} CloseTimesReleases(s: Session, k: nat)
    requires SessionInv(s) && s.bridge.slots[s.tty.index].openCount == k
    requires !s.bridge.slots[s.tty.index].workPending
    ensures OnlyOpenState(s, CloseTimes(s, k))
    ensures var info := CloseTimes(s, k).bridge.slots[s.tty.index];
      info.openCount == 0 && info.ch.None? && !info.ttyAttached && info.wakeLock.NoWakeLock?
    ensures !CloseTimes(s, k).tty.driverData
    decreases k
  {
    if k > 0 {
      var n := s.tty.index;
      var s' := Step(s, CloseOp);
      assert RunWork(s.bridge.slots[n], s.tty) == Ran(s.bridge.slots[n], s.tty);
      ClosePreservesInv(s.bridge, s.tty);
      CloseTimesReleases(s', k - 1);
    }
  }

  /**
   * N opens followed by N closes on an idle slot with no queued work restore the bridge
   * and the tty exactly, whatever smd_open answered each time.
   */
  lemma OpensThenClosesRestore(s: Session, replies: seq<OpenReply>)
    requires SessionInv(s) && LookupName(s.bridge.channels, s.tty.index).Some?
    requires s.bridge.slots[s.tty.index].openCount == 0
    requires !s.bridge.slots[s.tty.index].workPending
    ensures CloseTimes(OpenEach(s, replies), |replies|) == s
  {
    var n := s.tty.index;
    var o := OpenEach(s, replies);
    OpenEachCounts(s, replies);
    CloseTimesReleases(o, |replies|);
    var c := CloseTimes(o, |replies|);
    assert c.bridge.slots[n] == s.bridge.slots[n];
    assert c.bridge.slots == s.bridge.slots;
  }

  /**
   * Data held back by a throttled tty is not lost: the pump stops without reading, and
   * once the line discipline lifts the throttle with room for it all, the unthrottle
   * queues the pump and the next run delivers every queued byte in channel order
   * (provided every read comes back complete).
   */
  lemma ThrottledDataDrainsAfterUnthrottle(info: Info, tty: Tty, room: nat)
    requires info.ttyAttached && info.workPending && info.workReady && info.ch.Some?
    requires WellFormed(info.ch.value) && RunsFit(info.ch.value, |info.rxBuffer|)
    requires CompleteReads(info.ch.value)
    requires tty.throttled && room > Pending(info.ch.value)
    ensures RunWork(info, tty).info.ch == info.ch
    ensures RunWork(info, tty).tty.received == tty.received
    ensures var first := RunWork(info, tty);
      var second := RunWork(Unthrottle(first.info), first.tty.(throttled := false, room := room));
      && second.info.ch.Some? && second.info.ch.value.inbound == []
      && second.tty.received == tty.received + Flatten(info.ch.value.inbound)
  {
    var first := RunWork(info, tty);
    var t := first.tty.(throttled := false, room := room);
    var queued := Unthrottle(first.info).(workPending := false);
    assert queued.ch == info.ch && queued.ttyAttached;
    PumpLoopDrains(PumpState(queued, t, 0, 0));
  }

  /**
   * A pump over an attached, unthrottled tty with room for everything drains the channel,
   * re-arms the wake lock once per run, reports one mismatch per short read and wakes the
   * tty once. The tty receives one byte per queued byte; they are the queued bytes, in
   * order, when every read is complete.
   */
  lemma PumpDrainsChannel(info: Info, tty: Tty)
    requires info.ttyAttached && info.ch.Some? && info.wakeLock.WakeLock?
    requires WellFormed(info.ch.value) && RunsFit(info.ch.value, |info.rxBuffer|)
    requires !tty.throttled && tty.room > Pending(info.ch.value)
    ensures Pump(info, tty).stop == Drained
    ensures Pump(info, tty).s.info.ch.value.inbound == []
    ensures |Pump(info, tty).s.tty.received| == |tty.received| + Pending(info.ch.value)
    ensures Pump(info, tty).s.oopses == ShortsIn(info.ch.value.shortReads, |info.ch.value.inbound|)
    ensures CompleteReads(info.ch.value) ==>
      Pump(info, tty).s.tty.received == tty.received + Flatten(info.ch.value.inbound)
    ensures Pump(info, tty).s.tty.wakeups == tty.wakeups + 1
    ensures Pump(info, tty).s.info.wakeLock.timeouts
            == info.wakeLock.timeouts + |info.ch.value.inbound|
  {
    PumpLoopDrains(PumpState(info, tty, 0, 0));
  }

  /** A CLOSE event from an open channel hangs the tty up exactly once and queues nothing. */
  lemma CloseEventHangsUpOnce(s: Session)
    requires Wf(s.bridge) && s.tty.index < MAX_SMD_TTYS
    requires s.bridge.slots[s.tty.index].ch.Some?
    ensures Step(s, NotifyOp(CloseEvent)).tty == s.tty.(hangups := s.tty.hangups + 1)
    ensures Step(s, NotifyOp(CloseEvent)).bridge == s.bridge
  {
  }

  /**
   * The read length is never clamped to the receive buffer: on a slot set up by init, a
   * run one byte longer than SMD_BUF_SIZE stops the pump at the read that would overrun
   * the buffer, before anything is delivered.
   */
  lemma OversizedRunOverruns(info: Info, tty: Tty, run: seq<byte>, rest: seq<seq<byte>>)
    requires info.ttyAttached && !tty.throttled
    requires |info.rxBuffer| == SMD_BUF_SIZE && |run| == SMD_BUF_SIZE + 1
    requires info.ch.Some? && info.ch.value.inbound == [run] + rest
    ensures Pump(info, tty).stop == Overrun
    ensures Pump(info, tty).s.tty.received == tty.received
  {
  }

  /**
   * chars_in_buffer reports what the next pass of the pump moves: the bytes that pass
   * takes off the channel, and the bytes it hands to the line discipline.
   */
  lemma CharsInBufferIsNextPass(s: PumpState)
    requires Continues(s)
    ensures CharsInBuffer(s.info).Done?
    ensures CharsInBuffer(s.info).value == ChannelBytes(s.info) - ChannelBytes(Pass(s).info)
    ensures CharsInBuffer(s.info).value == |Pass(s).tty.received| - |s.tty.received|
  {
    var inbound := s.info.ch.value.inbound;
    assert Flatten(inbound) == inbound[0] + Flatten(inbound[1..]);
  }

  /**
   * A channel added to the list after initialisation can be opened, but its slot never
   * went through the set-up loop: it has no receive buffer and an uninitialised work
   * item, so the first pump the tty queues on it faults instead of running.
   */
  lemma AddedChannelFaultsOnFirstRun(wince: bool, channels: seq<ChannelDesc>, tty: Tty,
                                      reply: OpenReply)
    requires tty.index < MAX_SMD_TTYS && tty.index !in IdSet(DefaultChannels(wince))
    requires LookupName(channels, tty.index).Some?
    ensures InitSlots(DefaultChannels(wince), InitialBridge(wince).slots).Initialized?
    ensures
      var boot := Bridge(DefaultChannels(wince),
                         InitSlots(DefaultChannels(wince), InitialBridge(wince).slots).slots);
      var o := Open(SetChannelList(boot, channels).bridge, tty, reply);
      var info := o.bridge.slots[tty.index];
      && !info.workReady && info.rxBuffer == []
      && (reply.Opened? ==> o.res == 0 && info.ch == Some(reply.ch))
      && RunWork(Unthrottle(info), o.tty).NullHandler?
  {
    var init := InitSlots(DefaultChannels(wince), InitialBridge(wince).slots);
    assert init.slots[tty.index] == IdleInfo;
  }
}
