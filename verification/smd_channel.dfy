/**
 * The shared-memory (SMD) channel as the tty bridge sees it through the transport's
 * interface: smd_read_avail, smd_read, smd_write_avail, smd_write and smd_kick.
 * The transport's internals are not part of this model; a channel is an abstract
 * inbound byte stream plus an outbound capacity.
 */
module SmdChannel {

  /** One byte of channel payload. */
  type byte = b: int | 0 <= b < 256

  /**
   * An open channel. `inbound` is the data the peer has queued, split into the runs the
   * transport reports one at a time through smd_read_avail (a packet, or a contiguous span
   * of the shared ring). `shortReads` is how the transport answers the coming smd_read
   * calls: the i-th read copies that many of the requested bytes fewer than it was asked
   * for (the bytes were taken by someone else, the case smd_tty.c:120-122 rules out), and
   * every read past the end of the script is complete. `writeCap` is the free outbound
   * space, `sent` everything written so far, and `kicks` the number of smd_kick requests
   * received.
   */
  datatype Channel = Channel(
    name: string,
    inbound: seq<seq<byte>>,
    shortReads: seq<nat>,
    writeCap: nat,
    sent: seq<byte>,
    kicks: nat)

  /** What smd_read hands back: the bytes copied out, and the channel afterwards. */
  datatype ReadReply = ReadReply(got: seq<byte>, ch: Channel)

  /** What smd_write hands back: the number of bytes taken, and the channel afterwards. */
  datatype WriteReply = WriteReply(count: nat, ch: Channel)

  function Min(a: nat, b: nat): (m: nat)
    ensures m <= a && m <= b && (m == a || m == b)
  {
    if a <= b then a else b
  }

  /** The queued inbound data in arrival order. */
  function Flatten(runs: seq<seq<byte>>): (all: seq<byte>)
    ensures |runs| > 0 ==> |runs[0]| <= |all| && all[..|runs[0]|] == runs[0]
  {
    if |runs| == 0 then [] else runs[0] + Flatten(runs[1..])
  }

  /** Number of inbound bytes still queued in the channel. */
  function Pending(ch: Channel): (n: nat)
    ensures n == |Flatten(ch.inbound)|
  {
    |Flatten(ch.inbound)|
  }

  /** How many requested bytes the next smd_read will fail to copy. */
  function NextShortfall(ch: Channel): (k: nat)
    ensures k > 0 ==> |ch.shortReads| > 0 && ch.shortReads[0] == k
  {
    if |ch.shortReads| == 0 then 0 else ch.shortReads[0]
  }

  /** The script of read answers once `k` more reads have been made. */
  function ScriptAfter(script: seq<nat>, k: nat): (rest: seq<nat>)
    ensures |rest| == if k >= |script| then 0 else |script| - k
  {
    if k >= |script| then [] else script[k..]
  }

  /** The number of short answers in a script. */
  function Shorts(script: seq<nat>): (n: nat)
    ensures n <= |script|
  {
    if |script| == 0 then 0 else (if script[0] > 0 then 1 else 0) + Shorts(script[1..])
  }

  /** The number of short answers among the next `k` reads. */
  function ShortsIn(script: seq<nat>, k: nat): (n: nat)
    ensures n <= k
  {
    Shorts(script[..Min(k, |script|)])
  }

  /** Every read the channel will answer is complete. */
  predicate CompleteReads(ch: Channel) {
    forall i :: 0 <= i < |ch.shortReads| ==> ch.shortReads[i] == 0
  }

  /** The transport never reports an empty run, so a zero read_avail means the channel is empty. */
  predicate WellFormed(ch: Channel) {
    forall i :: 0 <= i < |ch.inbound| ==> |ch.inbound[i]| > 0
  }

  /** Every run fits into a buffer of `size` bytes. */
  predicate RunsFit(ch: Channel, size: nat) {
    forall i :: 0 <= i < |ch.inbound| ==> |ch.inbound[i]| <= size
  }

  /** smd_read_avail: the length of the run the next read will return. */
  function ReadAvail(ch: Channel): (n: nat)
    ensures n <= Pending(ch)
    ensures n > 0 ==> |ch.inbound| > 0 && n == |ch.inbound[0]|
    ensures WellFormed(ch) ==> (n == 0 <==> Pending(ch) == 0)
  {
    if |ch.inbound| == 0 then 0 else |ch.inbound[0]|
  }

  /**
   * smd_read of at most `len` bytes: the requested bytes leave the front of the next run,
   * and the remainder of that run stays queued. Of the requested bytes the caller receives
   * the leading ones, short by the next scripted shortfall.
   */
  function Read(ch: Channel, len: nat): (r: ReadReply)
    ensures |r.got| == Min(len, ReadAvail(ch)) - Min(NextShortfall(ch), Min(len, ReadAvail(ch)))
    ensures r.got == Flatten(ch.inbound)[..|r.got|]
    ensures Flatten(r.ch.inbound) == Flatten(ch.inbound)[Min(len, ReadAvail(ch))..]
    ensures |ch.inbound| > 0 ==> r.got == ch.inbound[0][..|r.got|]
    ensures r.ch == ch.(inbound := r.ch.inbound, shortReads := ScriptAfter(ch.shortReads, 1))
    ensures WellFormed(ch) ==> WellFormed(r.ch)
    ensures len >= ReadAvail(ch) && |ch.inbound| > 0 ==> r.ch.inbound == ch.inbound[1..]
  {
    var script := ScriptAfter(ch.shortReads, 1);
    if |ch.inbound| == 0 then ReadReply([], ch.(shortReads := script))
    else
      var head := ch.inbound[0];
      var n := Min(len, |head|);
      var got := head[..n - Min(NextShortfall(ch), n)];
      FlattenSplit(ch.inbound, n);
      FlattenSplit(ch.inbound, |got|);
      if len < |head| then
        var rest := [head[len..]] + ch.inbound[1..];
        assert rest[0] == head[len..] && rest[1..] == ch.inbound[1..];
        ReadReply(got, ch.(inbound := rest, shortReads := script))
      else
        ReadReply(got, ch.(inbound := ch.inbound[1..], shortReads := script))
  }

  /** The queued data starts with the head run: cutting inside it cuts the head run. */
  lemma FlattenSplit(runs: seq<seq<byte>>, n: nat)
    requires |runs| > 0 && n <= |runs[0]|
    ensures Flatten(runs)[..n] == runs[0][..n]
    ensures Flatten(runs)[n..] == runs[0][n..] + Flatten(runs[1..])
  {
    assert Flatten(runs) == runs[0] + Flatten(runs[1..]);
  }

  /** smd_write_avail: the free outbound space. */
  function WriteAvail(ch: Channel): (n: nat)
    ensures n == ch.writeCap
  {
    ch.writeCap
  }

  /** smd_write on a stream channel: it takes as many leading bytes as fit. */
  function Write(ch: Channel, data: seq<byte>): (r: WriteReply)
    ensures r.count == Min(|data|, WriteAvail(ch))
    ensures r.ch.sent == ch.sent + data[..r.count]
    ensures WriteAvail(r.ch) == WriteAvail(ch) - r.count
    ensures r.ch == ch.(sent := r.ch.sent, writeCap := r.ch.writeCap)
  {
    var n := Min(|data|, ch.writeCap);
    WriteReply(n, ch.(sent := ch.sent + data[..n], writeCap := ch.writeCap - n))
  }

  /** smd_kick: ask the transport to re-deliver a pending notification. */
  function Kick(ch: Channel): (r: Channel)
    ensures r.kicks == ch.kicks + 1 && r.inbound == ch.inbound && r.sent == ch.sent
  {
    ch.(kicks := ch.kicks + 1)
  }
}
