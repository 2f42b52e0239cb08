/**
 * Opening and closing a tty: the descriptor lookup, the reference count, and the
 * channel, tty and wake lock taken on the first open and released on the last close.
 */
module SmdTtyLifecycle {
  import opened Wrappers
  import opened SmdChannel
  import opened SmdTtyState
  import opened SmdTtyRegistry
  import opened SmdTtyPump

  /** A failure code as the kernel returns it: a negated errno. */
  type Errno = e: int | e < 0 witness -1

  /** What smd_open answers when it is called: the new channel, or a failure code. */
  datatype OpenReply = Opened(ch: Channel) | Refused(err: Errno)

  /** A slot after the locked part of open, and the value open returns. */
  datatype SlotOpen = SlotOpen(info: Info, res: int)

  /**
   * The locked part of smd_tty_open on the slot found for the tty, under the
   * descriptor's `name`. The count goes up whatever happens; only the 0-to-1 step
   * attaches the tty, initialises the wake lock, and kicks the surviving channel or
   * opens a new one, whose answer becomes the result (and a failure is not rolled back).
   */
  function OpenSlot(info: Info, name: string, reply: OpenReply): (r: SlotOpen)
    ensures r.info.openCount == info.openCount + 1
    ensures r.info.workPending == info.workPending && r.info.workReady == info.workReady
    ensures r.info.rxBuffer == info.rxBuffer
    ensures info.openCount != 0 ==> r == SlotOpen(info.(openCount := info.openCount + 1), 0)
    ensures info.openCount == 0 ==>
      && r.info.ttyAttached
      && r.info.wakeLock == WakeLock(name, 0)
      && (info.ch.Some? ==> r.info.ch == Some(Kick(info.ch.value)) && r.res == 0)
      && (info.ch.None? && reply.Opened? ==> r.info.ch == Some(reply.ch) && r.res == 0)
      && (info.ch.None? && reply.Refused? ==> r.info.ch.None? && r.res == reply.err)
  {
    if info.openCount != 0 then SlotOpen(info.(openCount := info.openCount + 1), 0)
    else
      var first := info.(openCount := 1, wakeLock := WakeLock(name, 0), ttyAttached := true);
      if info.ch.Some? then SlotOpen(first.(ch := Some(Kick(info.ch.value))), 0)
      else
        match reply
        case Opened(ch) => SlotOpen(first.(ch := Some(ch)), 0)
        case Refused(err) => SlotOpen(first, err)
  }

  /** The bridge and tty after open, and the value open returns. */
  datatype OpenResult = OpenResult(bridge: Bridge, tty: Tty, res: int)

  /**
   * smd_tty_open: without a descriptor for the tty's index it fails with -ENODEV and
   * changes nothing; otherwise the tty's driver data is pointed at the slot of that
   * index and the slot is opened under the first matching descriptor's name.
   */
  function Open(b: Bridge, tty: Tty, reply: OpenReply): (r: OpenResult)
    requires Wf(b) && tty.index < MAX_SMD_TTYS
    ensures Wf(r.bridge) && r.bridge.channels == b.channels
    ensures LookupName(b.channels, tty.index).None? ==> r == OpenResult(b, tty, -ENODEV)
    ensures LookupName(b.channels, tty.index).Some? ==>
      && r.bridge.slots == b.slots[tty.index := r.bridge.slots[tty.index]]
      && r.tty == tty.(driverData := true)
      && SlotOpen(r.bridge.slots[tty.index], r.res)
         == OpenSlot(b.slots[tty.index], LookupName(b.channels, tty.index).value, reply)
  {
    match LookupName(b.channels, tty.index)
    case None => OpenResult(b, tty, -ENODEV)
    case Some(name) =>
      var o := OpenSlot(b.slots[tty.index], name, reply);
      OpenResult(Bridge(b.channels, b.slots[tty.index := o.info]), tty.(driverData := true), o.res)
  }

  /** A slot and tty after the locked part of close, and the channel handed to smd_close. */
  datatype SlotClose = SlotClose(info: Info, tty: Tty, closed: Option<Channel>)

  /**
   * The locked part of smd_tty_close: the count goes down, and when it reaches zero the
   * tty and driver data are cleared, the wake lock destroyed and any channel closed.
   */
  function CloseSlot(info: Info, tty: Tty): (r: SlotClose)
    ensures r.info.openCount == info.openCount - 1
    ensures info.openCount == 1 ==>
      && r.info == info.(openCount := 0, ttyAttached := false, wakeLock := NoWakeLock, ch := None)
      && r.tty == tty.(driverData := false)
      && r.closed == info.ch
    ensures info.openCount != 1 ==>
      r == SlotClose(info.(openCount := info.openCount - 1), tty, None)
  {
    var info' := info.(openCount := info.openCount - 1);
    if info'.openCount != 0 then SlotClose(info', tty, None)
    else
      SlotClose(info'.(ttyAttached := false, wakeLock := NoWakeLock, ch := None),
                tty.(driverData := false), info.ch)
  }

  /** The bridge and tty after close, and the channel handed to smd_close, if any. */
  datatype CloseResult = CloseResult(bridge: Bridge, tty: Tty, closed: Option<Channel>)

  /**
   * smd_tty_close: a tty without driver data is left alone; otherwise flush_work first
   * lets a queued pump run to completion, and then the slot is closed once.
   */
  function Close(b: Bridge, tty: Tty): (r: CloseResult)
    requires Wf(b) && tty.index < MAX_SMD_TTYS
    ensures Wf(r.bridge) && r.bridge.channels == b.channels
    ensures r.bridge.slots == b.slots[tty.index := r.bridge.slots[tty.index]]
    ensures !tty.driverData ==> r == CloseResult(b, tty, None)
    ensures tty.driverData ==>
      SlotClose(r.bridge.slots[tty.index], r.tty, r.closed)
      == CloseSlot(RunWork(b.slots[tty.index], tty).info, RunWork(b.slots[tty.index], tty).tty)
  {
    if !tty.driverData then CloseResult(b, tty, None)
    else
      var flushed := RunWork(b.slots[tty.index], tty);
      var c := CloseSlot(flushed.info, flushed.tty);
      CloseResult(Bridge(b.channels, b.slots[tty.index := c.info]), c.tty, c.closed)
  }
}
