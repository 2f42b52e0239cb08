/**
 * The channel registry: replacing the descriptor list, finding the descriptor of a tty
 * index, and the per-descriptor slot set-up loop run at module initialisation.
 */
module SmdTtyRegistry {
  import opened Wrappers
  import opened SmdChannel
  import opened SmdTtyState

  datatype SetListResult = SetListResult(bridge: Bridge, res: int)

  /** smd_set_channel_list: the list (and with it its length) is swapped wholesale. */
  function SetChannelList(b: Bridge, channels: seq<ChannelDesc>): (r: SetListResult)
    ensures r.res == 0
    ensures r.bridge.channels == channels && r.bridge.slots == b.slots
  {
    SetListResult(Bridge(channels, b.slots), 0)
  }

  /** Position of the first descriptor at or after `from` whose id is `n`. */
  function FindFrom(channels: seq<ChannelDesc>, n: int, from: nat): (r: Option<nat>)
    requires from <= |channels|
    ensures r.Some? ==> from <= r.value < |channels| && channels[r.value].id == n
    ensures r.Some? ==> forall j :: from <= j < r.value ==> channels[j].id != n
    ensures r.None? ==> forall j :: from <= j < |channels| ==> channels[j].id != n
    decreases |channels| - from
  {
    if from == |channels| then None
    else if channels[from].id == n then Some(from)
    else FindFrom(channels, n, from + 1)
  }

  /** The descriptor `open` settles on for index `n`: the first one with that id. */
  function Find(channels: seq<ChannelDesc>, n: int): (r: Option<nat>)
    ensures r.Some? ==> r.value < |channels| && channels[r.value].id == n
    ensures r.Some? ==> forall j :: 0 <= j < r.value ==> channels[j].id != n
    ensures r.None? <==> forall j :: 0 <= j < |channels| ==> channels[j].id != n
  {
    FindFrom(channels, n, 0)
  }

  /** The channel name `open` uses for index `n`, or None when no descriptor names it. */
  function LookupName(channels: seq<ChannelDesc>, n: int): (name: Option<string>)
    ensures name.None? <==> forall j :: 0 <= j < |channels| ==> channels[j].id != n
    ensures name.Some? ==> name.value == channels[Find(channels, n).value].name
  {
    if Find(channels, n).None? then None else Some(channels[Find(channels, n).value].name)
  }

  /** The linear search at the head of smd_tty_open, as the loop is written. */
  method SearchChannel(channels: seq<ChannelDesc>, n: int) returns (name: Option<string>)
    ensures name.Some? <==> exists i :: 0 <= i < |channels| && channels[i].id == n
    ensures name == LookupName(channels, n)
  {
    name := None;
    var i := 0;
    while i < |channels|
      invariant 0 <= i <= |channels|
      invariant forall j :: 0 <= j < i ==> channels[j].id != n
    {
      if channels[i].id == n {
        name := Some(channels[i].name);
        return;
      }
      i := i + 1;
    }
  }

  /** A duplicate id makes the later descriptor unreachable by `open`: the first one wins. */
  lemma FirstDescriptorWins(channels: seq<ChannelDesc>, i: nat, j: nat)
    requires i < j < |channels| && channels[i].id == channels[j].id
    requires forall k :: 0 <= k < i ==> channels[k].id != channels[i].id
    ensures LookupName(channels, channels[j].id) == Some(channels[i].name)
  {
  }

  // ---------------------------------------------------------------------------------
  // The slot set-up loop of smd_tty_init.

  /**
   * A freshly allocated receive buffer of SMD_BUF_SIZE bytes. kmalloc leaves its contents
   * uninitialised; the model fixes them to zeros, which only the stale bytes a short read
   * delivers could reveal.
   */
  function NewBuffer(): (buf: seq<byte>)
    ensures |buf| == SMD_BUF_SIZE
  {
    seq(SMD_BUF_SIZE, _ => 0)
  }

  /** INIT_WORK plus the kmalloc of the receive buffer for one slot. */
  function SetUpSlot(info: Info): (r: Info)
    ensures r.workReady && !r.workPending && |r.rxBuffer| == SMD_BUF_SIZE
    ensures r.ch == info.ch && r.openCount == info.openCount && r.ttyAttached == info.ttyAttached
  {
    info.(workReady := true, workPending := false, rxBuffer := NewBuffer())
  }

  predicate InRange(id: int) {
    0 <= id < MAX_SMD_TTYS
  }

  /** The ids named by a descriptor list. */
  function IdSet(descs: seq<ChannelDesc>): (ids: set<int>)
    ensures forall i :: 0 <= i < |descs| ==> descs[i].id in ids
  {
    if |descs| == 0 then {} else {descs[0].id} + IdSet(descs[1..])
  }

  lemma {:induction false} IdSetMembers(descs: seq<ChannelDesc>, k: int)
    ensures k in IdSet(descs) <==> exists i :: 0 <= i < |descs| && descs[i].id == k
    decreases |descs|
  {
    if |descs| > 0 {
      IdSetMembers(descs[1..], k);
      if k in IdSet(descs[1..]) {
        var i :| 0 <= i < |descs[1..]| && descs[1..][i].id == k;
        assert descs[i + 1].id == k;
      }
      if exists i :: 0 <= i < |descs| && descs[i].id == k {
        var i :| 0 <= i < |descs| && descs[i].id == k;
        if i > 0 {
          assert descs[1..][i - 1].id == k;
        }
      }
    }
  }

  /**
   * The outcome of the set-up loop: every slot named by the list set up, the device
   * numbers registered, and the number of buffers allocated; or the position of the
   * first descriptor whose id lies outside smd_tty[], where the loop writes out of bounds.
   */
  datatype InitResult =
    | Initialized(slots: seq<Info>, devices: seq<int>, buffers: nat)
    | OutOfRange(at: nat, id: int)

  /** The loop at the end of smd_tty_init, over the descriptors in list order. */
  function InitSlots(descs: seq<ChannelDesc>, slots: seq<Info>): (r: InitResult)
    requires |slots| == MAX_SMD_TTYS
    ensures r.Initialized? <==> forall i :: 0 <= i < |descs| ==> InRange(descs[i].id)
    ensures r.Initialized? ==>
      && |r.slots| == MAX_SMD_TTYS
      && r.buffers == |descs|
      && |r.devices| == |descs|
      && (forall i :: 0 <= i < |descs| ==> r.devices[i] == descs[i].id)
      && (forall k :: 0 <= k < MAX_SMD_TTYS ==>
            r.slots[k] == if k in IdSet(descs) then SetUpSlot(slots[k]) else slots[k])
    ensures r.OutOfRange? ==>
      && r.at < |descs| && r.id == descs[r.at].id && !InRange(r.id)
      && (forall j :: 0 <= j < r.at ==> InRange(descs[j].id))
    decreases |descs|
  {
    if |descs| == 0 then Initialized(slots, [], 0)
    else
      var id := descs[0].id;
      if !InRange(id) then OutOfRange(0, id)
      else
        match InitSlots(descs[1..], slots[id := SetUpSlot(slots[id])])
        case Initialized(s, d, n) => Initialized(s, [id] + d, n + 1)
        case OutOfRange(at, x) => OutOfRange(at + 1, x)
  }

  /** Distinct ids never outnumber the descriptors; a repeated id makes them fewer. */
  lemma {:induction false} IdSetSize(descs: seq<ChannelDesc>)
    ensures |IdSet(descs)| <= |descs|
    ensures (exists i, j :: 0 <= i < j < |descs| && descs[i].id == descs[j].id) ==>
              |IdSet(descs)| < |descs|
    decreases |descs|
  {
    if |descs| > 0 {
      var tail := descs[1..];
      IdSetSize(tail);
      if exists i, j :: 0 <= i < j < |descs| && descs[i].id == descs[j].id {
        var i, j :| 0 <= i < j < |descs| && descs[i].id == descs[j].id;
        if i == 0 {
          IdSetMembers(tail, descs[0].id);
          assert tail[j - 1].id == descs[0].id;
          assert IdSet(descs) == IdSet(tail);
        } else {
          assert tail[i - 1].id == tail[j - 1].id;
        }
      }
    }
  }

  /**
   * A list with a repeated id allocates more receive buffers than slots it sets up:
   * the second kmalloc overwrites the first pointer, which leaks.
   */
  lemma DuplicateIdLeaksBuffer(descs: seq<ChannelDesc>, slots: seq<Info>, i: nat, j: nat)
    requires |slots| == MAX_SMD_TTYS
    requires i < j < |descs| && descs[i].id == descs[j].id
    requires forall k :: 0 <= k < |descs| ==> InRange(descs[k].id)
    ensures InitSlots(descs, slots).Initialized?
    ensures InitSlots(descs, slots).buffers > |IdSet(descs)|
  {
    IdSetSize(descs);
  }
}
