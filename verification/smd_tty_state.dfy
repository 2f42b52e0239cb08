/**
 * State of the SMD tty bridge: the compile-time limits, the channel descriptor list,
 * one `Info` record per tty index (struct smd_tty_info) and the tty seen as a sink.
 */
module SmdTtyState {
  import opened Wrappers
  import opened SmdChannel

  /** Number of tty indices the driver allocates (MAX_SMD_TTYS). */
  const MAX_SMD_TTYS: nat := 32

  /** Size of each slot's receive buffer (SMD_BUF_SIZE, 16 KiB). */
  const SMD_BUF_SIZE: nat := 16 * 1024

  /** The errno `open` negates when no descriptor names the tty index. */
  const ENODEV: int := 19

  /** One entry of the channel list: a tty index and the SMD channel name behind it. */
  datatype ChannelDesc = ChannelDesc(id: int, name: string)

  /** The built-in channel list; `wince` selects the extra WinCE-modem entries. */
  function DefaultChannels(wince: bool): (r: seq<ChannelDesc>)
    ensures |r| > 0 && r[0] == ChannelDesc(0, "SMD_DS")
    ensures forall i :: 0 <= i < |r| ==> 0 <= r[i].id < MAX_SMD_TTYS
    ensures forall i, j :: 0 <= i < j < |r| ==> r[i].id < r[j].id
  {
    if wince then
      [ChannelDesc(0, "SMD_DS"), ChannelDesc(1, "SMD_DIAG"),
       ChannelDesc(7, "SMD_DATA1"), ChannelDesc(27, "SMD_GPSNMEA")]
    else
      [ChannelDesc(0, "SMD_DS"), ChannelDesc(27, "SMD_GPSNMEA")]
  }

  /**
   * The slot's suspend wake lock: absent (never initialised, or destroyed), or
   * initialised under a channel name, with the number of HZ/2 timeouts armed on it.
   */
  datatype WakeLock = NoWakeLock | WakeLock(name: string, timeouts: nat)

  /** wake_lock_timeout: re-arm the auto-expiring hold. */
  function Rearm(w: WakeLock): (r: WakeLock)
    ensures r.WakeLock? <==> w.WakeLock?
    ensures w.WakeLock? ==> r.name == w.name && r.timeouts == w.timeouts + 1
  {
    match w
    case NoWakeLock => NoWakeLock
    case WakeLock(name, n) => WakeLock(name, n + 1)
  }

  /**
   * struct smd_tty_info. `ch` is the channel pointer, `ttyAttached` says whether `tty`
   * is non-null (it can only ever point at the tty of the slot's own index), `workPending`
   * says the pump is queued, `workReady` that INIT_WORK has run, and `rxBuffer` is the
   * receive buffer (empty while not allocated).
   */
  datatype Info = Info(
    ch: Option<Channel>,
    ttyAttached: bool,
    wakeLock: WakeLock,
    openCount: int,
    workPending: bool,
    workReady: bool,
    rxBuffer: seq<byte>)

  /** A slot before initialisation: zero-filled static storage. */
  const IdleInfo: Info := Info(None, false, NoWakeLock, 0, false, false, [])

  /**
   * The tty of one index, as the bridge sees it: `driverData` says whether
   * tty->driver_data points at the slot; the line discipline is abstracted as a sink
   * with a receive `room` (it throttles once the room is used up), the bytes it
   * has received, and counts of hangups and wakeups it was sent.
   */
  datatype Tty = Tty(
    index: nat,
    driverData: bool,
    throttled: bool,
    room: nat,
    received: seq<byte>,
    hangups: nat,
    wakeups: nat)

  /** ldisc_receive_buf on a non-null tty: the line discipline takes the bytes. */
  function Deliver(tty: Tty, data: seq<byte>): (t: Tty)
    ensures t.received == tty.received + data
    ensures t.throttled <==> tty.throttled || |data| >= tty.room
    ensures t == tty.(received := t.received, throttled := t.throttled, room := t.room)
  {
    if |data| >= tty.room then tty.(received := tty.received + data, room := 0, throttled := true)
    else tty.(received := tty.received + data, room := tty.room - |data|)
  }

  /** The bridge: the active channel list and the static slot table smd_tty[]. */
  datatype Bridge = Bridge(channels: seq<ChannelDesc>, slots: seq<Info>)

  predicate Wf(b: Bridge) {
    |b.slots| == MAX_SMD_TTYS
  }

  /** The bridge at boot: the built-in list and every slot zeroed. */
  function InitialBridge(wince: bool): (b: Bridge)
    ensures Wf(b) && b.channels == DefaultChannels(wince)
    ensures forall k :: 0 <= k < MAX_SMD_TTYS ==> b.slots[k] == IdleInfo
  {
    Bridge(DefaultChannels(wince), seq(MAX_SMD_TTYS, _ => IdleInfo))
  }

  /**
   * The reference-counting invariant of a slot and its tty: an unopened slot holds no
   * channel, no tty and no wake lock, and an opened one holds its tty and wake lock.
   * (A slot can be open without a channel: a failed smd_open keeps its count.)
   */
  predicate SlotInv(info: Info, tty: Tty) {
    && info.openCount >= 0
    && (info.openCount == 0 ==>
          info.ch.None? && !info.ttyAttached && info.wakeLock.NoWakeLock? && !tty.driverData)
    && (info.openCount > 0 ==> info.ttyAttached && info.wakeLock.WakeLock? && tty.driverData)
  }
}
