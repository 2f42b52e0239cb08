/**
 * The tty operations that do not change the open count: write, write_room,
 * chars_in_buffer, unthrottle, and the channel's event callback.
 */
module SmdTtyIo {
  import opened Wrappers
  import opened SmdChannel
  import opened SmdTtyState

  /** queue_work on the single-threaded work queue: queuing an already queued item is a no-op. */
  function QueueWork(info: Info): (r: Info)
    ensures r.workPending
    ensures r == info.(workPending := r.workPending)
  {
    info.(workPending := true)
  }

  /**
   * What a call that dereferences the slot's channel comes to: an answer, or the fault
   * of passing a null channel pointer to the transport. A slot whose first smd_open
   * failed is open without a channel, so the tty layer can make these calls on it.
   */
  datatype Outcome<T> = Done(value: T) | NullChannel

  /** write_room: the channel's free outbound space. */
  function WriteRoom(info: Info): (r: Outcome<nat>)
    ensures r.NullChannel? <==> info.ch.None?
    ensures r.Done? ==> r.value == info.ch.value.writeCap
  {
    if info.ch.None? then NullChannel else Done(WriteAvail(info.ch.value))
  }

  /** chars_in_buffer: the length of the next inbound run, zero exactly when nothing is queued. */
  function CharsInBuffer(info: Info): (r: Outcome<nat>)
    ensures r.NullChannel? <==> info.ch.None?
    ensures r.Done? ==> r.value == ReadAvail(info.ch.value)
    ensures r.Done? ==> r.value <= Pending(info.ch.value)
    ensures r.Done? && WellFormed(info.ch.value) ==>
      (r.value == 0 <==> Pending(info.ch.value) == 0)
  {
    if info.ch.None? then NullChannel else Done(ReadAvail(info.ch.value))
  }

  /**
   * The result of a write: the slot afterwards, the bytes handed to smd_write, and
   * smd_write's answer, which is the call's return value.
   */
  datatype WriteResult = WriteResult(info: Info, forwarded: seq<byte>, res: int)

  /**
   * smd_tty_write: the length is clamped to the channel's free space and the first
   * that-many bytes of the buffer are handed to smd_write.
   */
  function Write(info: Info, buf: seq<byte>): (r: Outcome<WriteResult>)
    ensures r.NullChannel? <==> info.ch.None?
    ensures r.Done? ==>
      var room := info.ch.value.writeCap;
      var w := r.value;
      && |w.forwarded| <= room && |w.forwarded| <= |buf|
      && w.forwarded == buf[..|w.forwarded|]
      && (|buf| <= room ==> w.forwarded == buf)
      && (|buf| > room ==> |w.forwarded| == room)
      && w.res == |w.forwarded|
      && w.info.ch.Some? && w.info.ch.value.sent == info.ch.value.sent + w.forwarded
      && w.info.ch.value
         == info.ch.value.(sent := w.info.ch.value.sent, writeCap := w.info.ch.value.writeCap)
      && w.info.ch.value.writeCap == room - w.res
      && w.info == info.(ch := w.info.ch)
  {
    if info.ch.None? then NullChannel
    else
      var ch := info.ch.value;
      var avail := WriteAvail(ch);
      var len := if |buf| > avail then avail else |buf|;
      var w := SmdChannel.Write(ch, buf[..len]);
      assert buf[..len][..w.count] == buf[..len];
      Done(WriteResult(info.(ch := Some(w.ch)), buf[..len], w.count))
  }

  /**
   * write_room is what a write can place: a write of at most that many bytes goes through
   * whole, a longer one is cut to it, and the room shrinks by what was written. On a slot
   * without a channel both calls fault.
   */
  lemma WriteRoomBoundsWrite(info: Info, buf: seq<byte>)
    ensures WriteRoom(info).NullChannel? <==> Write(info, buf).NullChannel?
    ensures Write(info, buf).Done? ==>
      && Write(info, buf).value.res
         == (if |buf| <= WriteRoom(info).value then |buf| else WriteRoom(info).value)
      && WriteRoom(Write(info, buf).value.info).value + Write(info, buf).value.res
         == WriteRoom(info).value
  {
  }

  /** smd_tty_unthrottle: the pump is queued, whether or not new data has been signalled. */
  function Unthrottle(info: Info): (r: Info)
    ensures r.workPending
    ensures r == info.(workPending := r.workPending)
  {
    QueueWork(info)
  }

  /** The events the channel delivers to smd_tty_notify. */
  datatype Event = DataEvent | CloseEvent | OtherEvent(code: nat)

  /** The callback's effect: the slot afterwards, and whether tty_hangup was called. */
  datatype NotifyResult = NotifyResult(info: Info, hangup: bool)

  /**
   * smd_tty_notify: CLOSE hangs the tty up, DATA queues the pump, and nothing else
   * happens; the slot itself is never touched beyond the work item.
   */
  function Notify(info: Info, event: Event): (r: NotifyResult)
    ensures r.hangup <==> event == CloseEvent
    ensures r.info.workPending <==> info.workPending || event == DataEvent
    ensures r.info == info.(workPending := r.info.workPending)
  {
    var hangup := event == CloseEvent;
    if event != DataEvent then NotifyResult(info, hangup)
    else NotifyResult(QueueWork(info), hangup)
  }

  /** tty_hangup as seen by the sink. */
  function Hangup(tty: Tty): (t: Tty)
    ensures t.hangups == tty.hangups + 1
    ensures t == tty.(hangups := t.hangups)
  {
    tty.(hangups := tty.hangups + 1)
  }

  /** Queuing is idempotent: unthrottling twice leaves the same slot as unthrottling once. */
  lemma UnthrottleIdempotent(info: Info)
    ensures Unthrottle(Unthrottle(info)) == Unthrottle(info)
  {
  }

  /** A DATA event and an unthrottle leave the slot in the same state. */
  lemma DataEventIsUnthrottle(info: Info)
    ensures Notify(info, DataEvent).info == Unthrottle(info)
    ensures !Notify(info, DataEvent).hangup
  {
  }
}
