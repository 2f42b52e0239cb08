# SMD tty bridge — a Dafny model

This project models the bridge in `arch/arm/mach-msm/smd_tty.c`, which exposes shared-memory
(SMD) channels to a peer processor as tty devices. The model covers these parts:

- **The channel list.** `smd_set_channel_list` replaces it. `smd_tty_open` searches it for the
  tty's index.
- **The slot table.** `smd_tty[MAX_SMD_TTYS]` holds one `Info` record per index (struct
  `smd_tty_info`). It has the channel pointer, the tty pointer, the wake lock, the open count,
  the work item and the 16 KiB receive buffer.
- **Open and close.** These are reference counted. The first open attaches the tty,
  initialises the wake lock, and kicks a surviving channel or opens a new one. The last close
  detaches the tty, destroys the wake lock and closes the channel.
- **Write and the queries.** Write clamps the length to the channel's free space. `write_room`
  and `chars_in_buffer` ask the channel.
- **Events and unthrottle.** The event callback hangs the tty up on CLOSE and queues the pump on
  DATA. Unthrottle always queues the pump.
- **The drain pump.** `smd_tty_work_func` moves one reported run per pass from the channel,
  through the receive buffer, into the line discipline. It re-arms the wake lock on every pass
  and wakes the tty once at the end.
- **The init loop.** The slot set-up loop of `smd_tty_init` runs once per descriptor.

The model is a sequential, functional state machine. Every operation is a pure function from
the bridge (or one slot) and the tty to their next state. Some things the driver cannot see are
inputs instead:
- `OpenReply` is what `smd_open` answers.
- `Event` is the event the channel delivers.

The channel (`SmdChannel.Channel`) is an abstract transport:
- its queued inbound data, as the runs `smd_read_avail` reports one at a time;
- a script of how its coming reads answer: complete, or short by some bytes;
- its free outbound space;
- what has been written to it;
- how often it was kicked.

The tty (`SmdTtyState.Tty`) is a sink. It holds the driver-data pointer and the bytes its line
discipline received. It also holds a receive room (it throttles once that room is used up) and
counts of hangups and wakeups.

Modules, in dependency order:
- `Wrappers`
- `SmdChannel`
- `SmdTtyState`: limits, descriptors, the slot, the sink, the bridge, and `SlotInv`
- `SmdTtyRegistry`: the list, the lookup and the init loop
- `SmdTtyPump`
- `SmdTtyIo`
- `SmdTtyLifecycle`
- `SmdTtyProperties`: lemmas that relate several operations

## Model

| member | source | states |
|---|---|---|
| SmdTtyState.DefaultChannels | arch/arm/mach-msm/smd_tty.c:48-59 | The built-in list starts with SMD_DS at index 0. Its ids are strictly increasing and all lie inside the slot table, with or without the WinCE entries. |
| SmdTtyState.InitialBridge | arch/arm/mach-msm/smd_tty.c:45-59 | At boot the bridge has the built-in list and MAX_SMD_TTYS zeroed slots. |
| SmdTtyState.Deliver | arch/arm/mach-msm/smd_tty.c:77-89 | The line discipline of a non-null tty appends exactly the delivered bytes. It throttles once its room is used up. No other tty state changes. |
| SmdTtyRegistry.SetChannelList | arch/arm/mach-msm/smd_tty.c:61-66 | The list and its length are replaced wholesale, the slots are untouched, and the call returns 0. |
| SmdTtyRegistry.FindFrom | arch/arm/mach-msm/smd_tty.c:157-162 | The search from a position returns the first position at or after it whose id matches, or None when no later descriptor matches. |
| SmdTtyRegistry.Find | arch/arm/mach-msm/smd_tty.c:157-162 | It returns the first descriptor whose id equals the index. It returns None exactly when no descriptor has that id. |
| SmdTtyRegistry.LookupName | arch/arm/mach-msm/smd_tty.c:157-164 | There is no name exactly when no descriptor has the index as its id. Otherwise the name is that of the first descriptor with that id. |
| SmdTtyRegistry.SearchChannel | arch/arm/mach-msm/smd_tty.c:157-164 | The loop as written finds a name iff some descriptor has the index as its id, and the name is the first match's. |
| SmdTtyRegistry.FirstDescriptorWins | arch/arm/mach-msm/smd_tty.c:157-162 | With a duplicate id, open always uses the earlier descriptor's name. |
| SmdTtyRegistry.SetUpSlot | arch/arm/mach-msm/smd_tty.c:289-290 | Set-up readies the work item and allocates a buffer of SMD_BUF_SIZE bytes. It leaves the channel, count and tty alone. |
| SmdTtyRegistry.InitSlots | arch/arm/mach-msm/smd_tty.c:287-291 | The loop fails exactly when some id lies outside the slot table, and it reports the first such descriptor. Otherwise every named slot is set up, every other slot is unchanged, one device is registered per descriptor in order, and one buffer is allocated per descriptor. |
| SmdTtyRegistry.IdSetSize | arch/arm/mach-msm/smd_tty.c:287-291 | A list names at most as many slots as it has descriptors. It names strictly fewer when an id repeats. |
| SmdTtyRegistry.DuplicateIdLeaksBuffer | arch/arm/mach-msm/smd_tty.c:287-291 | A repeated id makes init allocate more buffers than it sets up slots, so the first buffer for that slot is leaked. |
| SmdTtyPump.ReadIntoBuffer | arch/arm/mach-msm/smd_tty.c:119-127 | The read lands at the front of the buffer. The line discipline gets `avail` bytes: the bytes read, then stale buffer bytes up to `avail`. |
| SmdTtyPump.ShortReadDeliversStaleBytes | arch/arm/mach-msm/smd_tty.c:113-131 | For any one-run channel whose read comes up k bytes short, the pump reports one mismatch. It delivers the bytes read followed by the buffer's stale bytes up to the reported length. The tty receives the run itself iff those stale bytes equal the lost ones. |
| SmdTtyPump.Pass | arch/arm/mach-msm/smd_tty.c:113-130 | One pass removes the next run from the channel, so the queued byte count strictly falls. It counts one mismatch exactly when the read came up short. It delivers the bytes read followed by the buffer's stale bytes up to the reported length, and that is exactly the run when the read is complete. |
| SmdTtyPump.PassFrame | arch/arm/mach-msm/smd_tty.c:113-130 | A pass changes only the channel's queue and read script, the buffer's contents, the tty's receive state, and the wake lock, which it re-arms once. The tty receives as many bytes as leave the queue, and these are the run when the read is complete. One script answer is consumed. |
| SmdTtyPump.PumpLoop | arch/arm/mach-msm/smd_tty.c:103-131 | The loop stops only when the tty is throttled, the channel is null, read_avail is 0, the buffer was never allocated, or the run does not fit the buffer. A throttled tty, a null channel or an empty channel stops it before any read, with nothing changed. A pending run with no buffer is the `NoBuffer` fault, before any read. |
| SmdTtyPump.PumpLoopFrame | arch/arm/mach-msm/smd_tty.c:103-131 | However the loop ends, the tty receives exactly as many bytes as left the channel, and what stays queued is the tail of what was queued. The mismatch count grows by the short reads among the passes made. When every read is complete, bytes move from channel to tty in order, with nothing lost, duplicated or reordered. The wake lock is re-armed once per pass, and nothing outside the pump's frame changes. |
| SmdTtyPump.Pump | arch/arm/mach-msm/smd_tty.c:91-135 | A slot with a null tty is left untouched and gets no wakeup. Otherwise the tty gets exactly one wakeup. A throttled tty or a null channel leaves everything else unchanged. One mismatch is reported per short read among the passes made, and the wake lock is re-armed once per pass. The tty receives one byte per byte that left the channel. Those bytes are the channel's, in order, when every read is complete. Count, tty pointer, work item and driver data are preserved. |
| SmdTtyPump.WorkFunc | arch/arm/mach-msm/smd_tty.c:103-131 | The loop as written computes the pump. The mutex is released on every exit. |
| SmdTtyPump.PumpLoopDrains | arch/arm/mach-msm/smd_tty.c:103-131 | On an unthrottled tty with room for all queued bytes, when the runs fit the buffer, the loop drains the channel with one pass per run. The tty receives as many bytes as were queued, even with short reads. With complete reads these are the channel's bytes in order. |
| SmdTtyPump.RunWork | arch/arm/mach-msm/smd_tty.c:91-101 | The work queue runs the pump exactly when the item is queued and was set up by INIT_WORK, and dequeues it. A queued item that was never set up is the `NullHandler` fault, exactly in that case. An idle item changes nothing. |
| SmdTtyIo.CharsInBuffer | arch/arm/mach-msm/smd_tty.c:229-233 | A null channel is a fault. Otherwise chars_in_buffer is smd_read_avail, the length of the next run. It never exceeds the queued bytes, and on a well-formed channel it is zero exactly when nothing is queued. |
| SmdTtyIo.WriteRoom | arch/arm/mach-msm/smd_tty.c:223-227 | A null channel is a fault. Otherwise write_room is the channel's free outbound space. |
| SmdTtyIo.Write | arch/arm/mach-msm/smd_tty.c:206-221 | A null channel is a fault. Otherwise exactly the first min(len, write_avail) bytes go to smd_write, never more than write_avail, and all of them go when they fit. The result is smd_write's count. Only the channel's sent bytes and free space change. The inbound queue, read script, kick count and name stay as they were, and so does the rest of the slot. |
| SmdTtyIo.WriteRoomBoundsWrite | arch/arm/mach-msm/smd_tty.c:206-227 | Write and write_room fault on the same slots. Otherwise a write places min(len, write_room) bytes, and write_room shrinks by the bytes written. |
| SmdTtyIo.QueueWork | arch/arm/mach-msm/smd_tty.c:146 | queue_work leaves the work item queued and touches nothing else. |
| SmdTtyIo.Unthrottle | arch/arm/mach-msm/smd_tty.c:235-240 | Unthrottle always queues the pump and changes nothing else. |
| SmdTtyIo.UnthrottleIdempotent | arch/arm/mach-msm/smd_tty.c:238 | Queuing twice is the same as queuing once. |
| SmdTtyIo.Notify | arch/arm/mach-msm/smd_tty.c:137-147 | tty_hangup is called iff the event is CLOSE. The pump is queued iff the event is DATA (or it was already queued). No other slot field changes. |
| SmdTtyIo.DataEventIsUnthrottle | arch/arm/mach-msm/smd_tty.c:143-146 | A DATA event leaves the slot exactly as unthrottle does, without a hangup. |
| SmdTtyIo.Hangup | arch/arm/mach-msm/smd_tty.c:141-142 | A hangup adds exactly one to the tty's hangup count and changes nothing else. |
| SmdTtyLifecycle.OpenSlot | arch/arm/mach-msm/smd_tty.c:168-181 | The count always rises by exactly 1. A later open changes nothing else and returns 0. The first open attaches the tty and initialises the wake lock under the descriptor's name. It kicks a surviving channel or opens a new one. It returns smd_open's answer, and on failure the channel stays null and the count stays raised. |
| SmdTtyLifecycle.Open | arch/arm/mach-msm/smd_tty.c:149-182 | With no descriptor for the index, open returns -ENODEV and changes nothing. Otherwise it sets the tty's driver data and opens only the slot of that index, under the first matching name. |
| SmdTtyLifecycle.CloseSlot | arch/arm/mach-msm/smd_tty.c:193-203 | The count falls by exactly 1. Reaching 0 clears the tty and driver data, destroys the wake lock, and hands any channel to smd_close, leaving it null. Otherwise nothing else changes. |
| SmdTtyLifecycle.Close | arch/arm/mach-msm/smd_tty.c:184-204 | A tty with null driver data is a no-op. Otherwise queued work runs to completion first (flush_work), and then the slot is closed once. Other slots are untouched. |
| SmdTtyProperties.Step | arch/arm/mach-msm/smd_tty.c:137-240 | Any single call on a tty changes only that tty's slot and keeps the list. |
| SmdTtyProperties.RunWorkPreservesInv | arch/arm/mach-msm/smd_tty.c:91-135 | A pump run keeps the reference-counting invariant. |
| SmdTtyProperties.OpenPreservesInv | arch/arm/mach-msm/smd_tty.c:149-182 | Open keeps the reference-counting invariant. |
| SmdTtyProperties.ClosePreservesInv | arch/arm/mach-msm/smd_tty.c:184-204 | Close keeps the reference-counting invariant. |
| SmdTtyProperties.RunPreservesInv | arch/arm/mach-msm/smd_tty.c:137-240 | Every sequence of opens, closes, events, unthrottles and pump runs keeps the count non-negative. An unopened slot never holds a channel, tty, wake lock or driver data. |
| SmdTtyProperties.FirstOpenNeverKicks | arch/arm/mach-msm/smd_tty.c:170-177 | Under the invariant, a first open never finds a channel to kick. Its channel is exactly what smd_open gave. |
| SmdTtyProperties.FailedOpenStaysCounted | arch/arm/mach-msm/smd_tty.c:170-181 | When smd_open fails on a first open, open returns the failure. The slot keeps count 1, a null channel and the driver data. |
| SmdTtyProperties.SecondOpenAfterFailureSucceedsWithoutChannel | arch/arm/mach-msm/smd_tty.c:168-233 | After a failed first open, a second open returns 0 with count 2 and no channel. Write, write_room and chars_in_buffer on that tty then hand a null channel to the transport. |
| SmdTtyProperties.SetChannelListThenOpen | arch/arm/mach-msm/smd_tty.c:61-182 | After the list is swapped, open fails with -ENODEV and changes nothing iff no new descriptor has the index as its id. Otherwise it opens that index's slot under the first matching new descriptor's name and leaves every other slot and the list alone. |
| SmdTtyProperties.OpenThenCloseRestores | arch/arm/mach-msm/smd_tty.c:149-204 | On an idle slot with no queued work, open then close restores the bridge and the tty exactly. The channel handed to smd_close is the one open obtained. |
| SmdTtyProperties.OpenEachCounts | arch/arm/mach-msm/smd_tty.c:168-181 | N successful lookups raise the count by exactly N. They touch only the slot's count, tty, wake lock, channel and the driver data. |
| SmdTtyProperties.CloseTimesReleases | arch/arm/mach-msm/smd_tty.c:193-203 | With count k and no queued work, k closes bring the slot to count 0. The channel, tty, wake lock and driver data are all released. |
| SmdTtyProperties.OpensThenClosesRestore | arch/arm/mach-msm/smd_tty.c:149-204 | N opens followed by N closes on an idle slot restore the bridge and tty exactly, whatever smd_open answered. |
| SmdTtyProperties.ThrottledDataDrainsAfterUnthrottle | arch/arm/mach-msm/smd_tty.c:103-131 | A throttled pump reads nothing and loses nothing. On a slot whose work item was set up, with complete reads, after the throttle lifts with enough room, unthrottle's queued pump delivers every queued byte in channel order. |
| SmdTtyProperties.CharsInBufferIsNextPass | arch/arm/mach-msm/smd_tty.c:113-127 | When the pump would make a pass, chars_in_buffer equals the bytes that pass takes off the channel, and the bytes it hands to the line discipline. |
| SmdTtyProperties.AddedChannelFaultsOnFirstRun | arch/arm/mach-msm/smd_tty.c:287-291 | Boot with the built-in list, set a list that names a tty index the built-in list does not, and open that tty. The open goes through, and with a channel it returns 0. The slot has no receive buffer and an unset work item, so the first pump the tty queues faults. |
| SmdTtyProperties.PumpDrainsChannel | arch/arm/mach-msm/smd_tty.c:113-134 | Given an unthrottled tty with room, the pump drains the channel. It re-arms the wake lock once per run, reports one mismatch per short read and wakes the tty once. The tty gets one byte per queued byte, and these are the queued bytes in order when every read is complete. |
| SmdTtyProperties.CloseEventHangsUpOnce | arch/arm/mach-msm/smd_tty.c:141-144 | A CLOSE event from an open channel hangs the tty up exactly once and changes no slot. |
| SmdTtyProperties.OversizedRunOverruns | arch/arm/mach-msm/smd_tty.c:113-127 | A run one byte longer than SMD_BUF_SIZE stops the pump at the read that would overrun the buffer, before any delivery. |

## Quirks of the code

The model follows the code as written. These behaviours stand out, each shown by a lemma.

- **A failed first open stays counted.** When `smd_open` fails, open returns the failure but
  does not undo the count. The tty stays attached and the wake lock stays initialised until
  the close that follows (`FailedOpenStaysCounted`). A second open then succeeds, with no
  channel behind it, and write, write_room and chars_in_buffer hand a null channel to the
  transport (`SecondOpenAfterFailureSucceedsWithoutChannel`). So a zero count implies no
  channel, and a channel implies a positive count (`SlotInv`), but a positive count does not
  imply a channel.
- **The read is not clamped, and `avail` is delivered rather than `got`.** The pump asks for
  `avail` bytes with no clamp to the 16 KiB buffer. It then hands `avail` bytes to the line
  discipline, whatever the read returned. The comment at lines 120-122 says a short read cannot
  happen. The model lets the channel answer short anyway, through its read script:
  - `Pass` and `ShortReadDeliversStaleBytes` show the bytes read followed by stale buffer
    bytes, and the mismatch report it comes with;
  - `Pump` counts one report per short read, and claims delivery in channel order only when
    every read is complete;
  - `OversizedRunOverruns` shows where the buffer would be overrun. The model stops the pump
    there with the `Overrun` stop reason instead of writing past the buffer.
- **Duplicate ids.** Open resolves the name by the first matching descriptor
  (`FirstDescriptorWins`). The init loop sets the same slot up twice and leaks the first buffer
  (`DuplicateIdLeaksBuffer`). An out-of-range id writes outside the slot table (`InitSlots`
  reports `OutOfRange`).
- **Slots are set up only for the list seen at initialisation.** `smd_set_channel_list` can
  later name a tty index whose work item and receive buffer were never set up. Open accepts
  it. The first queued pump would then call a null work handler. Even with a handler, it
  would read into a null buffer. The model makes both faults: `RunWork` answers
  `NullHandler`, and the pump stops with `NoBuffer` (`AddedChannelFaultsOnFirstRun`).
- **The kick branch of open is dead.** The last close always closes the channel, so a first
  open never finds one to kick (`FirstOpenNeverKicks`).
- **Close tests the driver data, not the count.** Close is a no-op when the tty's driver data
  is null.

## Left out

- Concurrency. The global mutex, the single-threaded work queue and real interleavings are not
  modelled. Each call is atomic. The mutex appears only as the held flag of `WorkFunc`. The
  work queue is a pending flag that `RunWork` consumes. `flush_work` in close is modelled by
  running the queued pump to completion before the count changes.
- Driver registration and termios set-up in `smd_tty_init` (lines 257-285) are kernel plumbing.
  Only the per-descriptor loop is modelled. A failed kmalloc of the receive buffer is not
  modelled.
- The SMD transport (`msm_smd.h`) is not part of this model. `smd_read`, `smd_write` and
  `smd_kick` are simple functions over the abstract channel. `smd_write` behaves as on a stream
  channel and takes what fits. Packet-channel framing is not modelled.
- The line discipline is abstracted. Its reference counting in `ldisc_receive_buf` is taken as
  always succeeding. Its throttle decision is a receive room. Its buffering and dropping are
  not modelled.
- Wake-lock timing. Only the number of HZ/2 re-arms is recorded. A re-arm on a lock that does
  not exist is a no-op, which the invariant makes unreachable from the pump.
- The `printk` text. It is a counter of mismatch reports.
- The 32-bit width of `open_count` is not modelled, because no call sequence of realistic
  length overflows it.
- The separate `len` argument of `smd_set_channel_list`. The list's length is the length of
  the sequence, so a `len` that disagrees with the array is not modelled.
- A descriptor with a null name. Names are always present, so open returns -ENODEV at the
  `!name` test only when no id matches.
- A tty index outside `MAX_SMD_TTYS` is excluded by preconditions, because the driver
  allocates only that many ttys. Write, write_room and chars_in_buffer on a slot without a
  channel are modelled as a `NullChannel` fault. The source dereferences the null pointer
  there, and that slot state is reachable after a failed first open.
- The contents of a freshly kmalloc'ed receive buffer are uninitialised. `NewBuffer` fixes
  them to zeros. Only the stale bytes a short read delivers could show the difference.
- Why a read comes up short (another reader, a transport fault) is not modelled. The channel
  carries a script of shortfalls for its coming reads, and the bytes a short read misses leave
  the channel.
- RunWork: after a `NullHandler` fault the model keeps the slot and tty as they were, and the
  session goes on from there. The kernel oops that the null call causes is not modelled.
  `Close` flushes through `RunWork`, so the same holds for a close on such a slot.
- Pump: the `NoBuffer` stop leaves the state as it was, in place of the null-pointer write.
  Through `RunWork` it cannot be reached, because a slot whose work item was set up always
  has its buffer.
- Events after the channel is closed are not delivered. `Step` ignores them.
- `arch/arm/mach-msm/include/mach/board_htc.h` holds only board declarations and has no logic
  to model.
