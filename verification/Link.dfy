/** The serial link: bytes in, a clock, and the waits built on them.

    The outside world is an Io value. Receive attempt number k (one select-and-read of a
    byte) is made at time clock(k), in milliseconds, and yields feed(k), None standing
    for silence until the attempt's own timeout. Write number k takes takes(k) of the bytes it
    is offered, at most all of them; none if that is not positive. A transaction is described
    by functions from the attempt it starts at to its result and the attempt it ends at; the
    class does the same with loops and buffers. */
module Link {
  import opened Codec

  const ACK: byte := 0x4F
  const TIMEOUT_MS := 500
  const DRAIN := 64
  const DRAIN_MS := 1
  const SETTLED_DRAIN_MS := 10
  const LEN_MIN: byte := 4
  const LEN_MAX: byte := 12

  const GIVE_ME_DATA_16: word := 0xB004
  const GIVE_ME_DATA_32: word := 0xB005
  const TAKE_DATA_16: word := 0xB404
  const TAKE_DATA_32: word := 0xB405

  datatype Io = Io(clock: nat -> nat, feed: nat -> Option<byte>, takes: nat -> int)

  /** The clock never runs back and passes every bound. */
  ghost predicate Advancing(io: Io) {
    && (forall i: nat, j: nat :: Ordered(io, i, j))
    && (forall s: nat, t: nat :: Passes(io, s, t))
  }

  ghost predicate Ordered(io: Io, i: nat, j: nat) { i <= j ==> io.clock(i) <= io.clock(j) }

  ghost predicate Passes(io: Io, s: nat, t: nat) { exists i: nat :: i >= s && io.clock(i) >= t }

  /** There is such a clock: one attempt a millisecond. */
  lemma AnAdvancingLine(feed: nat -> Option<byte>) returns (io: Io)
    ensures Advancing(io) && io.feed == feed && forall k: nat :: io.takes(k) > 0
  {
    io := Io((i: nat) => i, feed, (i: nat) => 1);
    forall s: nat, t: nat ensures Passes(io, s, t) {
      var i := if s > t then s else t;
      assert i >= s && io.clock(i) >= t;
    }
    assert forall i: nat, j: nat :: Ordered(io, i, j);
  }

  // ----- What each wait does, from attempt s on -----

  /** Less than `limit` ms have passed from attempt s to attempt j. */
  predicate Before(io: Io, s: nat, j: nat, limit: nat) {
    io.clock(j) - io.clock(s) < limit
  }

  predicate InTime(io: Io, s: nat, j: nat) { Before(io, s, j, TIMEOUT_MS) }

  ghost function FirstLate(io: Io, s: nat, i: nat, n: nat): (j: nat)
    requires s <= i <= n && !InTime(io, s, n)
    requires forall k :: s <= k < i ==> InTime(io, s, k)
    ensures i <= j <= n && !InTime(io, s, j)
    ensures forall k :: s <= k < j ==> InTime(io, s, k)
    decreases n - i
  {
    if InTime(io, s, i) then FirstLate(io, s, i + 1, n) else i
  }

  /** The first attempt from s on that the timeout forbids. */
  ghost function Deadline(io: Io, s: nat): (j: nat)
    requires Advancing(io)
    ensures s <= j && !InTime(io, s, j)
    ensures forall k :: s <= k < j ==> InTime(io, s, k)
  {
    assert Passes(io, s, io.clock(s) + TIMEOUT_MS);
    var n: nat :| n >= s && io.clock(n) >= io.clock(s) + TIMEOUT_MS;
    FirstLate(io, s, s, n)
  }

  /** Attempt k brings a byte between lo and hi. */
  predicate Brings(io: Io, k: nat, lo: byte, hi: byte) {
    io.feed(k).Some? && lo <= io.feed(k).value <= hi
  }

  /** The first attempt in [i, end) that brings a byte between lo and hi. */
  function Scan(io: Io, i: nat, end: nat, lo: byte, hi: byte): (r: Option<nat>)
    ensures r == None ==> forall k :: i <= k < end ==> !Brings(io, k, lo, hi)
    ensures r.Some? ==> i <= r.value < end && Brings(io, r.value, lo, hi)
                        && forall k :: i <= k < r.value ==> !Brings(io, k, lo, hi)
    decreases end - i
  {
    if i >= end then None
    else if Brings(io, i, lo, hi) then Some(i)
    else Scan(io, i + 1, end, lo, hi)
  }

  /** Up to n bytes from attempt s on, ended by silence or once `limit` ms have passed since
      attempt `from`; and the attempt after the last one made. */
  function Take(io: Io, from: nat, s: nat, n: nat, limit: nat): (r: (seq<byte>, nat))
    ensures |r.0| <= n && s <= r.1
    ensures forall k :: 0 <= k < |r.0| ==> io.feed(s + k) == Some(r.0[k]) && Before(io, from, s + k, limit)
    ensures |r.0| == n ==> r.1 == s + n
    decreases n
  {
    if n == 0 || !Before(io, from, s, limit) then ([], s)
    else match io.feed(s)
      case None => ([], s + 1)
      case Some(b) =>
        var rest := Take(io, from, s + 1, n - 1, limit);
        ([b] + rest.0, rest.1)
  }

  /** One turn of a read that has brought the first n bytes of `whole`. */
  lemma TakeStep(io: Io, whole: (seq<byte>, nat), n: nat, from: nat, s: nat, left: nat, limit: nat)
    requires n <= |whole.0| && Take(io, from, s, left, limit) == (whole.0[n..], whole.1)
    ensures left == 0 || !Before(io, from, s, limit) ==> n == |whole.0| && s == whole.1
    ensures left > 0 && Before(io, from, s, limit) ==>
              if io.feed(s) == None then n == |whole.0| && s + 1 == whole.1
              else && n < |whole.0| && whole.0[n] == io.feed(s).value
                   && Take(io, from, s + 1, left - 1, limit) == (whole.0[n + 1..], whole.1)
  {
    if left > 0 && Before(io, from, s, limit) && io.feed(s).Some? {
      assert whole.0[n..][1..] == whole.0[n + 1..];
    }
  }

  function Drained(io: Io, s: nat, limit: nat): nat { Take(io, s, s, DRAIN, limit).1 }

  ghost function Acked(io: Io, s: nat): (r: (bool, nat))
    requires Advancing(io)
  {
    match Scan(io, s, Deadline(io, s), ACK, ACK)
    case None => (false, Deadline(io, s))
    case Some(j) => (true, j + 1)
  }

  /** After `writes` writes, `taken` bytes were taken; ok if that was all of them. */
  datatype Push = Push(ok: bool, writes: nat, taken: nat)

  /** n bytes written from write w on, until all are taken or a write takes none. */
  function Pushed(io: Io, w: nat, n: nat): (r: Push)
    ensures r.taken <= n && (r.ok <==> r.taken == n)
    decreases n
  {
    if n == 0 then Push(true, w, 0)
    else if io.takes(w) <= 0 then Push(false, w + 1, 0)
    else
      var k := if io.takes(w) < n then io.takes(w) else n;
      var r := Pushed(io, w + 1, n - k);
      r.(taken := k + r.taken)
  }

  /** A port that always takes something takes everything. */
  lemma {:induction false} SomethingIsEverything(io: Io, w: nat, n: nat)
    requires forall k: nat :: io.takes(k) > 0
    ensures Pushed(io, w, n).ok
    decreases n
  {
    if n > 0 { SomethingIsEverything(io, w + 1, if io.takes(w) < n then n - io.takes(w) else 0); }
  }

  /** `taken` counts the bytes put on the wire. */
  datatype Sending = Sending(ok: bool, at: nat, writes: nat, taken: nat)

  /** One copy of n bytes: drain, write, wait. */
  ghost function Tried(io: Io, s: nat, w: nat, n: nat, limit: nat): Sending
    requires Advancing(io)
  {
    var d, p := Drained(io, s, limit), Pushed(io, w, n);
    if !p.ok then Sending(false, d, p.writes, p.taken)
    else var a := Acked(io, d); Sending(a.0, a.1, p.writes, n)
  }

  /** A message of n bytes is written once, and once more if no ACK came in time. */
  ghost function Sent(io: Io, s: nat, w: nat, n: nat): Sending
    requires Advancing(io)
  {
    var first := Tried(io, s, w, n, DRAIN_MS);
    if first.ok || !Pushed(io, w, n).ok then first
    else
      var second := Tried(io, first.at, first.writes, n, SETTLED_DRAIN_MS);
      second.(taken := n + second.taken)
  }

  ghost function Received(io: Io, s: nat): (Option<TmlMsg>, nat)
    requires Advancing(io)
  {
    match Scan(io, s, Deadline(io, s), LEN_MIN, LEN_MAX)
    case None => (None, Deadline(io, s))
    case Some(j) =>
      var len := io.feed(j).value;
      var rest := Take(io, j + 1, j + 1, Len([len]) + 1, TIMEOUT_MS);
      (if |rest.0| == Len([len]) + 1 then Decode([len] + rest.0) else None, rest.1)
  }

  /** The length of a read request's frame. */
  const REQUEST := 10

  /** The data words of the answer to a read request, if a fitting answer came. */
  ghost function Answered(io: Io, s: nat, w: nat, op: word, words: nat): (Option<seq<word>>, nat, nat)
    requires Advancing(io)
    ensures Answered(io, s, w, op, words).0.Some? ==> |Answered(io, s, w, op, words).0.value| >= words
  {
    var out := Sent(io, s, w, REQUEST);
    if !out.ok then (None, out.at, out.writes)
    else
      var r := Received(io, out.at);
      (if r.0.Some? && r.0.value.opCode == op && |r.0.value.data| >= words then Some(r.0.value.data) else None,
       r.1, out.writes)
  }

  // ----- Main results -----

  /** The bytes bs arrive one after the other from attempt s on. */
  ghost predicate Arrives(io: Io, s: nat, bs: seq<byte>) {
    forall k :: 0 <= k < |bs| ==> io.feed(s + k) == Some(bs[k])
  }

  lemma {:induction false} TakeArrived(io: Io, from: nat, s: nat, bs: seq<byte>, limit: nat)
    requires Advancing(io) && Arrives(io, s, bs) && (bs != [] ==> Before(io, from, s + |bs| - 1, limit))
    ensures Take(io, from, s, |bs|, limit) == (bs, s + |bs|)
    decreases |bs|
  {
    if bs != [] {
      assert Ordered(io, s, s + |bs| - 1);
      assert io.feed(s + 0) == Some(bs[0]);
      forall k | 0 <= k < |bs[1..]|
        ensures io.feed(s + 1 + k) == Some(bs[1..][k])
      {
        assert io.feed(s + (k + 1)) == Some(bs[k + 1]);
      }
      TakeArrived(io, from, s + 1, bs[1..], limit);
      assert [bs[0]] + bs[1..] == bs;
    }
  }

  /** A read through junk. After the stale bytes are drained, anything but an ACK may come,
      silence included; then the ACK at attempt a; then anything but a byte in 4..12; then
      the answering frame, starting at attempt f. If the ACK and the frame's first byte come in
      time, and its last one in time after the first, the read returns the frame's data and has
      used up exactly the bytes through its checksum. */
  lemma ReadThroughJunk(io: Io, s: nat, w: nat, a: nat, f: nat, m: TmlMsg, words: nat)
    requires Advancing(io) && Pushed(io, w, REQUEST).ok && words <= |m.data| <= MAX_WORDS
    requires Drained(io, s, DRAIN_MS) <= a < f
    requires io.feed(a) == Some(ACK) && InTime(io, Drained(io, s, DRAIN_MS), a)
    requires forall k :: Drained(io, s, DRAIN_MS) <= k < a ==> io.feed(k) != Some(ACK)
    requires forall k :: a < k < f ==> !Brings(io, k, LEN_MIN, LEN_MAX)
    requires Arrives(io, f, Encode(m)) && InTime(io, a + 1, f) && InTime(io, f + 1, f + |Encode(m)| - 1)
    ensures Answered(io, s, w, m.opCode, words) == (Some(m.data), f + |Encode(m)|, Pushed(io, w, REQUEST).writes)
  {
    hide Encode, Decode, Take;
    var d := Drained(io, s, DRAIN_MS);
    InTimeIsEarly(io, d, a);
    assert Brings(io, a, ACK, ACK);
    assert Scan(io, d, Deadline(io, d), ACK, ACK) == Some(a);
    ReceiveThroughJunk(io, a + 1, f, m);
  }

  lemma ReceiveThroughJunk(io: Io, s: nat, f: nat, m: TmlMsg)
    requires Advancing(io) && |m.data| <= MAX_WORDS
    requires s <= f && InTime(io, s, f) && Arrives(io, f, Encode(m)) && InTime(io, f + 1, f + |Encode(m)| - 1)
    requires forall k :: s <= k < f ==> !Brings(io, k, LEN_MIN, LEN_MAX)
    ensures Received(io, s) == (Some(m), f + |Encode(m)|)
  {
    hide Encode, Decode, Take, Received;
    var bs := Encode(m);
    InTimeIsEarly(io, s, f);
    FrameShape(m);
    assert io.feed(f + 0) == Some(bs[0]);
    assert Brings(io, f, LEN_MIN, LEN_MAX);
    assert Scan(io, s, Deadline(io, s), LEN_MIN, LEN_MAX) == Some(f);
    RestArrives(io, f, bs);
    TakeArrived(io, f + 1, f + 1, bs[1..], TIMEOUT_MS);
    ReceivedFrame(io, s, f, bs[0], bs[1..]);
  }

  /** That the last byte comes in time is needed: of a frame that drags on, nothing is taken. */
  lemma LateFrameIsLost(io: Io, s: nat, f: nat, m: TmlMsg)
    requires Advancing(io) && |m.data| <= MAX_WORDS
    requires s <= f && InTime(io, s, f) && Arrives(io, f, Encode(m))
    requires io.clock(f + |Encode(m)| - 1) - io.clock(f + 1) >= 500
    requires forall k :: s <= k < f ==> !Brings(io, k, LEN_MIN, LEN_MAX)
    ensures Received(io, s).0 == None
  {
    hide Encode, Decode, Take;
    var bs := Encode(m);
    InTimeIsEarly(io, s, f);
    FrameShape(m);
    assert io.feed(f + 0) == Some(bs[0]);
    assert Brings(io, f, LEN_MIN, LEN_MAX);
    assert Scan(io, s, Deadline(io, s), LEN_MIN, LEN_MAX) == Some(f);
    if |Take(io, f + 1, f + 1, |bs| - 1, TIMEOUT_MS).0| == |bs| - 1 {
      LastInTime(io, f + 1, f + 1, |bs| - 1, TIMEOUT_MS);
    }
  }

  lemma LastInTime(io: Io, from: nat, s: nat, n: nat, limit: nat)
    requires n > 0 && |Take(io, from, s, n, limit).0| == n
    ensures Before(io, from, s + n - 1, limit)
  {
    hide Take;
    assert io.feed(s + (n - 1)) == Some(Take(io, from, s, n, limit).0[n - 1]);
  }

  lemma ReceivedFrame(io: Io, s: nat, f: nat, len: byte, rest: seq<byte>)
    requires Advancing(io) && |rest| == Len([len]) + 1
    requires Scan(io, s, Deadline(io, s), LEN_MIN, LEN_MAX) == Some(f)
    requires io.feed(f) == Some(len) && Take(io, f + 1, f + 1, |rest|, TIMEOUT_MS) == (rest, f + 1 + |rest|)
    ensures Received(io, s) == (Decode([len] + rest), f + 1 + |rest|)
  {
    hide Decode, Take, Scan;
  }

  lemma FrameShape(m: TmlMsg)
    requires |m.data| <= MAX_WORDS
    ensures var bs := Encode(m);
            Len([bs[0]]) + 1 == |bs[1..]| && LEN_MIN <= bs[0] <= LEN_MAX && Decode([bs[0]] + bs[1..]) == Some(m)
  {
    var bs := Encode(m);
    IntactEncode(m, []);
    DecodeEncode(m, []);
    assert bs + [] == bs == [bs[0]] + bs[1..];
  }

  lemma RestArrives(io: Io, f: nat, bs: seq<byte>)
    requires bs != [] && Arrives(io, f, bs)
    ensures Arrives(io, f + 1, bs[1..])
  {
    forall k | 0 <= k < |bs| - 1
      ensures io.feed(f + 1 + k) == Some(bs[1..][k])
    {
      assert io.feed(f + (k + 1)) == Some(bs[k + 1]);
    }
  }

  lemma InTimeIsEarly(io: Io, s: nat, j: nat)
    requires Advancing(io) && s <= j
    ensures InTime(io, s, j) ==> j < Deadline(io, s)
  {
    if Deadline(io, s) <= j {
      assert Ordered(io, Deadline(io, s), j);
    }
  }

  /** A link that never brings an ACK still lets go: two copies written, failure reported,
      within two timeouts of the attempts it was allowed. */
  lemma EndlessJunkEnds(io: Io, s: nat, w: nat, n: nat)
    requires Advancing(io) && Pushed(io, w, n).ok && Pushed(io, Pushed(io, w, n).writes, n).ok
    requires forall k :: s <= k ==> io.feed(k) != Some(ACK)
    ensures
      var r := Sent(io, s, w, n);
      && !r.ok && r.writes == Pushed(io, Pushed(io, w, n).writes, n).writes && r.taken == 2 * n
      && r.at == Deadline(io, Drained(io, Deadline(io, Drained(io, s, 1)), 10))
  {
    var d := Drained(io, s, 1);
    var d' := Drained(io, Deadline(io, d), 10);
    assert Scan(io, d, Deadline(io, d), ACK, ACK) == None;
    assert Scan(io, d', Deadline(io, d'), ACK, ACK) == None;
  }

  lemma AckOrSilence(io: Io, s: nat)
    requires Advancing(io)
    ensures Acked(io, s).0 ==> Acked(io, s).1 > s && io.feed(Acked(io, s).1 - 1) == Some(ACK)
    ensures !Acked(io, s).0 ==> forall k :: s <= k < Deadline(io, s) ==> io.feed(k) != Some(ACK)
  {
    forall k | s <= k < Deadline(io, s) && io.feed(k) == Some(ACK)
      ensures Brings(io, k, ACK, ACK)
    {
    }
  }

  /** An acknowledged message was written whole, once or twice, and twice only when the whole
      first wait brought no ACK. */
  lemma AckedMeansWritten(io: Io, s: nat, w: nat, n: nat)
    requires Advancing(io) && Sent(io, s, w, n).ok
    ensures
      var r, p := Sent(io, s, w, n), Pushed(io, w, n);
      && p.ok && r.at > s && io.feed(r.at - 1) == Some(ACK)
      && (|| (r.taken == n && r.writes == p.writes)
          || (&& r.taken == 2 * n && Pushed(io, p.writes, n).ok && r.writes == Pushed(io, p.writes, n).writes
              && var d := Drained(io, s, DRAIN_MS);
                 forall k :: d <= k < Deadline(io, d) ==> io.feed(k) != Some(ACK)))
  {
    hide Pushed, Take;
    var d := Drained(io, s, DRAIN_MS);
    AckOrSilence(io, d);
    AckOrSilence(io, Drained(io, Deadline(io, d), SETTLED_DRAIN_MS));
  }

  // ----- The driver's channel -----

  /** The first bytes of two copies of a message's frame. */
  function Copies(m: TmlMsg, taken: nat): seq<byte>
    requires |m.data| <= MAX_WORDS
  {
    var twice := Encode(m) + Encode(m);
    if taken <= |twice| then twice[..taken] else twice
  }

  ghost function Asked(io: Io, s: nat, w: nat, axis: byte, host: byte, op: word, address: word): seq<byte>
    requires Advancing(io)
  {
    Copies(TmlMsg(0x10 * axis, op, [0x10 * host + 1, address]), Sent(io, s, w, REQUEST).taken)
  }

  class TmlChannel {
    const io: Io
    const hostId: byte
    var activeAxis: byte
    var at: nat               // receive attempts made
    var writes: nat           // writes made
    ghost var wire: seq<byte>  // what was written

    constructor (io: Io, hostId: byte)
      ensures this.io == io && this.hostId == hostId && activeAxis == hostId
      ensures at == 0 && writes == 0 && wire == []
    {
      this.io, this.hostId, activeAxis := io, hostId, hostId;
      at, writes, wire := 0, 0, [];
    }

    /** Bytes as they come, until there are enough, one does not come, or the time is up. */
    method ReadBytes(buf: array<byte>, off: nat, count: nat, limit: nat) returns (n: nat)
      requires off + count <= buf.Length
      modifies this`at, buf
      ensures n == |Take(io, old(at), old(at), count, limit).0| && at == Take(io, old(at), old(at), count, limit).1
      ensures buf[off..off + n] == Take(io, old(at), old(at), count, limit).0
      ensures forall k :: 0 <= k < buf.Length && !(off <= k < off + n) ==> buf[k] == old(buf[k])
    {
      hide Take;
      n := 0;
      var start := io.clock(at);
      ghost var whole := Take(io, at, at, count, limit);
      while n < count
        invariant n <= count && n <= |whole.0| && at == old(at) + n
        invariant Take(io, old(at), at, count - n, limit) == (whole.0[n..], whole.1)
        invariant forall k :: 0 <= k < n ==> buf[off + k] == whole.0[k]
        invariant forall k :: 0 <= k < buf.Length && !(off <= k < off + n) ==> buf[k] == old(buf[k])
      {
        TakeStep(io, whole, n, old(at), at, count - n, limit);
        if io.clock(at) - start >= limit { return; }
        var next := io.feed(at);
        at := at + 1;
        if next == None { return; }
        buf[off + n] := next.value;
        n := n + 1;
      }
      TakeStep(io, whole, n, old(at), at, 0, limit);
    }

    method Drain(limit: nat)
      modifies this`at
      ensures at == Drained(io, old(at), limit)
    {
      var junk := new byte[DRAIN];
      var _ := ReadBytes(junk, 0, DRAIN, limit);
    }

    method WaitAck() returns (ok: bool)
      requires Advancing(io)
      modifies this`at
      ensures (ok, at) == Acked(io, old(at))
    {
      var start := io.clock(at);
      ghost var end := Deadline(io, at);
      while true
        invariant old(at) <= at <= end
        invariant Scan(io, old(at), end, ACK, ACK) == Scan(io, at, end, ACK, ACK)
        decreases end - at
      {
        if io.clock(at) - start >= TIMEOUT_MS {
          assert !InTime(io, old(at), at);
          return false;
        }
        var got := io.feed(at);
        at := at + 1;
        if got == Some(ACK) { return true; }
      }
    }

    method WriteBytes(buf: array<byte>, len: nat) returns (ok: bool)
      requires len <= buf.Length
      modifies this`writes, this`wire
      ensures var p := Pushed(io, old(writes), len);
              ok == p.ok && writes == p.writes && wire == old(wire) + buf[..p.taken]
    {
      var written := 0;
      while written < len
        invariant written <= len && wire == old(wire) + buf[..written]
        invariant var p, q := Pushed(io, old(writes), len), Pushed(io, writes, len - written);
                  p == q.(taken := written + q.taken)
      {
        var n := io.takes(writes);
        writes := writes + 1;
        if n <= 0 { return false; }
        if n > len - written { n := len - written; }
        assert buf[..written + n] == buf[..written] + buf[written..written + n];
        wire := wire + buf[written..written + n];
        written := written + n;
      }
      ok := true;
    }

    method TryOnce(buf: array<byte>, len: nat, limit: nat) returns (written: bool, acked: bool)
      requires Advancing(io) && len <= buf.Length
      modifies this`at, this`writes, this`wire
      ensures var r := Tried(io, old(at), old(writes), len, limit);
              && acked == r.ok && at == r.at && writes == r.writes && written == Pushed(io, old(writes), len).ok
              && r.taken <= len && wire == old(wire) + buf[..r.taken]
    {
      Drain(limit);
      written := WriteBytes(buf, len);
      acked := false;
      if written { acked := WaitAck(); }
    }

    /** What this puts on the wire is the message's own frame once or twice, or as much of it
        as the port took. */
    method SendMessage(m: TmlMsg) returns (ok: bool)
      requires Advancing(io) && |m.data| <= MAX_WORDS
      modifies this`at, this`writes, this`wire
      ensures var s, twice := Sent(io, old(at), old(writes), |Encode(m)|), Encode(m) + Encode(m);
              && ok == s.ok && at == s.at && writes == s.writes
              && s.taken <= |twice| && wire == old(wire) + twice[..s.taken]
    {
      hide Encode, Acked, Drained, Take, Pushed;
      var buf := new byte[MAX_MSG_BYTES];
      var len := SerialiseMessage(m, buf);
      ghost var frame, start := Encode(m), wire;
      assert buf[..len] == frame;
      var written;
      written, ok := TryOnce(buf, len, DRAIN_MS);
      ghost var first := Tried(io, old(at), old(writes), len, DRAIN_MS).taken;
      assert buf[..first] == frame[..first] == (frame + frame)[..first];
      if written && !ok {
        assert wire == start + frame;
        written, ok := TryOnce(buf, len, SETTLED_DRAIN_MS);
        ghost var second := |wire| - |start| - len;
        assert buf[..second] == frame[..second];
        assert frame + frame[..second] == (frame + frame)[..len + second];
      }
    }

    /** The first byte in 4..12, everything before it thrown away. */
    method ReadLength() returns (len: Option<byte>)
      requires Advancing(io)
      modifies this`at
      ensures var r := Scan(io, old(at), Deadline(io, old(at)), LEN_MIN, LEN_MAX);
              if r == None then len == None && at == Deadline(io, old(at))
              else len == io.feed(r.value) && at == r.value + 1
    {
      var start := io.clock(at);
      ghost var end := Deadline(io, at);
      while true
        invariant old(at) <= at <= end
        invariant Scan(io, old(at), end, LEN_MIN, LEN_MAX) == Scan(io, at, end, LEN_MIN, LEN_MAX)
        decreases end - at
      {
        if io.clock(at) - start >= TIMEOUT_MS {
          assert !InTime(io, old(at), at);
          return None;
        }
        var got := io.feed(at);
        at := at + 1;
        if got.Some? && LEN_MIN <= got.value <= LEN_MAX { return got; }
      }
    }

    method ReceiveMessage() returns (msg: Option<TmlMsg>)
      requires Advancing(io)
      modifies this`at
      ensures (msg, at) == Received(io, old(at))
    {
      hide Decode, Scan, Take, Sum;
      var len := ReadLength();
      if len == None { return None; }
      var buf := new byte[MAX_MSG_BYTES];
      buf[0] := len.value;
      var remaining := Len([len.value]) + 1;
      var n := ReadBytes(buf, 1, remaining, TIMEOUT_MS);
      if n != remaining { return None; }
      assert buf[..remaining + 1] == [len.value] + buf[1..1 + n];
      msg := DeserialiseMessage(buf, remaining + 1);
    }

    method Request(op: word, address: word) returns (ok: bool)
      requires Advancing(io)
      modifies this`at, this`writes, this`wire
      ensures var m := TmlMsg(0x10 * activeAxis, op, [0x10 * hostId + 1, address]);
              var s, twice := Sent(io, old(at), old(writes), REQUEST), Encode(m) + Encode(m);
              && ok == s.ok && at == s.at && writes == s.writes
              && s.taken <= |twice| && wire == old(wire) + twice[..s.taken]
    {
      var m := TmlMsg(0x10 * activeAxis, op, [0x10 * hostId + 1, address]);
      FrameShape(m);
      ok := SendMessage(m);
    }

    method ReadData16(address: word) returns (value: Option<word>)
      requires Advancing(io)
      modifies this`at, this`writes, this`wire
      ensures var r := Answered(io, old(at), old(writes), TAKE_DATA_16, 3);
              at == r.1 && writes == r.2 && value == if r.0.Some? then Some(r.0.value[2]) else None
      ensures wire == old(wire) + Asked(io, old(at), old(writes), activeAxis, hostId, 0xB004, address)
    {
      hide Sent, Received, Encode, Pair32;
      var ok := Request(GIVE_ME_DATA_16, address);
      if !ok { return None; }
      var resp := ReceiveMessage();
      if resp == None || resp.value.opCode != TAKE_DATA_16 || |resp.value.data| < 3 { return None; }
      value := Some(resp.value.data[2]);
    }

    method ReadData32(address: word) returns (value: Option<nat>)
      requires Advancing(io)
      modifies this`at, this`writes, this`wire
      ensures var r := Answered(io, old(at), old(writes), TAKE_DATA_32, 4);
              at == r.1 && writes == r.2
              && value == if r.0.Some? then Some(Pair32(r.0.value[2], r.0.value[3])) else None
      ensures wire == old(wire) + Asked(io, old(at), old(writes), activeAxis, hostId, 0xB005, address)
    {
      hide Sent, Received, Encode, Pair32;
      var ok := Request(GIVE_ME_DATA_32, address);
      if !ok { return None; }
      var resp := ReceiveMessage();
      if resp == None || resp.value.opCode != TAKE_DATA_32 || |resp.value.data| < 4 { return None; }
      value := Some(Pair32(resp.value.data[2], resp.value.data[3]));
    }
  }

  function Pair32(lo: word, hi: word): nat { lo + hi * 0x1_0000 }
}
