/** A read, from the register asked for to the value the caller gets: the driver's request, the
    drive that decodes it, and the answer on its way back. */
module ReadBack {
  import opened Codec
  import opened Link
  import SimStream
  import Simulator

  /** A drive's answer to a read request: the register asked for, or two of them, low word first. */
  function Reply(regs: nat -> word, axis: byte, m: TmlMsg): TmlMsg
    requires |m.data| >= 2
  {
    var at := m.data[1];
    if m.opCode == 0xB004 then TmlMsg(m.data[0], 0xB404, [0x10 * axis, at, regs(at)])
    else TmlMsg(m.data[0], 0xB405, [0x10 * axis, at, regs(at), regs(at as int + 1)])
  }

  /** The attempts at a and b are less than half a second apart. */
  predicate Soon(io: Io, a: nat, b: nat) { io.clock(b) - io.clock(a) < 500 }

  /** The first attempt after draining: up to 64 stale bytes, within a millisecond. */
  function Fresh(io: Io, s: nat): nat { Take(io, s, s, 64, 1).1 }

  /** From attempt s on the line brings m: once the stale bytes are drained, junk, an ACK at a, and
      then, with nothing between that could be a length, its frame from f on - all in time. */
  ghost predicate Comes(io: Io, s: nat, a: nat, f: nat, m: TmlMsg)
    requires |m.data| <= MAX_WORDS
  {
    var d := Fresh(io, s);
    && d <= a < f && io.feed(a) == Some(0x4F) && Soon(io, d, a)
    && (forall k :: d <= k < a ==> io.feed(k) != Some(0x4F))
    && (forall k :: a < k < f ==> !Brings(io, k, 4, 12))
    && Arrives(io, f, Encode(m)) && Soon(io, a + 1, f) && Soon(io, f + 1, f + |Encode(m)| - 1)
  }

  /** The drive decodes what it heard and answers it with its registers. */
  ghost predicate Replies(io: Io, s: nat, a: nat, f: nat, heard: seq<byte>, regs: nat -> word, axis: byte)
  {
    Decode(heard).Some? && |Decode(heard).value.data| >= 2 && Comes(io, s, a, f, Reply(regs, axis, Decode(heard).value))
  }

  // ----- What was asked for -----

  lemma AckedAtOnce(io: Io, s: nat, w: nat, a: nat, f: nat, m: TmlMsg)
    requires Advancing(io) && |m.data| <= MAX_WORDS && Pushed(io, w, 10).ok && Comes(io, s, a, f, m)
    ensures Sent(io, s, w, 10).ok && Sent(io, s, w, 10).taken == 10
  {
    hide Take, Encode, Pushed;
    var d := Drained(io, s, DRAIN_MS);
    InTimeIsEarly(io, d, a);
    assert Brings(io, a, ACK, ACK);
  }

  /** What is written until the ACK comes is one request, for the register at the address given. */
  lemma HeardOnce(io: Io, s: nat, w: nat, axis: byte, host: byte, op: word, address: word)
    requires Advancing(io) && Sent(io, s, w, 10).taken == 10
    ensures
      var heard := Asked(io, s, w, axis, host, op, address);
      Decode(heard) == Some(TmlMsg(0x10 * axis, op, [0x10 * host + 1, address]))
  {
    hide Sent, Encode, Decode;
    var m := TmlMsg(0x10 * axis, op, [0x10 * host + 1, address]);
    OneCopy(m);
    DecodeEncode(m, []);
    assert Encode(m) + [] == Encode(m);
  }

  lemma OneCopy(m: TmlMsg)
    requires |m.data| == 2
    ensures |Encode(m)| == 10 && Copies(m, 10) == Encode(m)
  {
    assert (Encode(m) + Encode(m))[..10] == Encode(m);
  }

  /** Whatever registers the drive that heard the request has: the data words the read gets end in
      the one at the address asked for. */
  lemma AnswerIsRegister(io: Io, s: nat, w: nat, a: nat, f: nat, axis: byte, host: byte, long: bool, address: word,
    regs: nat -> word, drive: byte)
    requires Advancing(io) && Pushed(io, w, 10).ok
    requires
      var heard := Asked(io, s, w, axis, host, if long then 0xB005 else 0xB004, address);
      Replies(io, s, a, f, heard, regs, drive)
    ensures
      var r := Answered(io, s, w, if long then 0xB405 else 0xB404, if long then 4 else 3).0;
      && r.Some? && r.value[2] == regs(address)
      && (long ==> r.value[3] == regs(address as int + 1))
  {
    hide Take, Encode, Decode, Pushed, Sent, Answered, Asked, Comes;
    var op: word := if long then 0xB005 else 0xB004;
    var heard := Asked(io, s, w, axis, host, op, address);
    AckedAtOnce(io, s, w, a, f, Reply(regs, drive, Decode(heard).value));
    HeardOnce(io, s, w, axis, host, op, address);
    var m := Reply(regs, drive, TmlMsg(0x10 * axis, op, [0x10 * host + 1, address]));
    ComesIsRead(io, s, w, a, f, m, if long then 4 else 3);
  }

  lemma ComesIsRead(io: Io, s: nat, w: nat, a: nat, f: nat, m: TmlMsg, words: nat)
    requires Advancing(io) && Pushed(io, w, 10).ok && words <= |m.data| <= MAX_WORDS && Comes(io, s, a, f, m)
    ensures Answered(io, s, w, m.opCode, words).0 == Some(m.data)
  {
    hide Take, Encode, Decode, Pushed, Sent, Answered;
    ReadThroughJunk(io, s, w, a, f, m, words);
  }

  // ----- Main results: end to end -----

  /** If the port takes the request, and the drive that decodes it answers with its own registers,
      the caller gets the register at the address it gave. */
  method ReadRegister16(ch: TmlChannel, address: word, ghost regs: nat -> word, ghost drive: byte, ghost a: nat,
    ghost f: nat)
    returns (value: Option<word>, ghost heard: seq<byte>)
    requires Advancing(ch.io) && Pushed(ch.io, ch.writes, 10).ok
    modifies ch
    ensures ch.wire == old(ch.wire) + heard
    ensures Replies(ch.io, old(ch.at), a, f, heard, regs, drive) ==> value == Some(regs(address))
  {
    hide Replies, Answered, Sent, Pushed, Asked;
    ghost var s, w := ch.at, ch.writes;
    heard := Asked(ch.io, s, w, ch.activeAxis, ch.hostId, 0xB004, address);
    value := ch.ReadData16(address);
    if Replies(ch.io, s, a, f, heard, regs, drive) {
      AnswerIsRegister(ch.io, s, w, a, f, ch.activeAxis, ch.hostId, false, address, regs, drive);
    }
  }

  method ReadRegister32(ch: TmlChannel, address: word, ghost regs: nat -> word, ghost drive: byte, ghost a: nat,
    ghost f: nat)
    returns (value: Option<nat>, ghost heard: seq<byte>)
    requires Advancing(ch.io) && Pushed(ch.io, ch.writes, 10).ok
    modifies ch
    ensures ch.wire == old(ch.wire) + heard
    ensures Replies(ch.io, old(ch.at), a, f, heard, regs, drive) ==>
              value == Some(regs(address) as int + 0x1_0000 * regs(address as int + 1))
  {
    hide Replies, Answered, Sent, Pushed, Asked;
    ghost var s, w := ch.at, ch.writes;
    heard := Asked(ch.io, s, w, ch.activeAxis, ch.hostId, 0xB005, address);
    value := ch.ReadData32(address);
    if Replies(ch.io, s, a, f, heard, regs, drive) {
      AnswerIsRegister(ch.io, s, w, a, f, ch.activeAxis, ch.hostId, true, address, regs, drive);
    }
  }

  // ----- With the simulator at the far end -----

  /** The bytes a write of the simulator puts on the line. */
  function OnLine(ws: seq<SimStream.Write>): seq<byte> {
    if ws == [] then []
    else
      OnLine(ws[..|ws| - 1]) + match ws[|ws| - 1]
                               case SyncReply => [Simulator.SYNC]
                               case Ack => [Simulator.ACK]
                               case Response(frame) => frame
  }

  function Registers(s: Simulator.Sim): nat -> word { (a: nat) => Simulator.Get16(s, a) }

  /** Between frames, the simulator takes a request whole and writes an ACK and its reply. */
  lemma SimulatorReplies(st: SimStream.Loop, axis: byte, m: TmlMsg)
    requires st.buf == [] && |m.data| == 2 && (m.opCode == 0xB004 || m.opCode == 0xB005)
    ensures
      var r := SimStream.Turn(st, axis, SimStream.Chunk(Encode(m)));
      && r.sim == st.sim && r.buf == [] && st.out <= r.out
      && OnLine(r.out[|st.out|..]) == [0x4F] + Encode(Reply(Registers(st.sim), axis, m))
  {
    hide Encode, Parse, SimStream.Strip, SimStream.Drain;
    var bs, st1 := Encode(m), st.(buf := Encode(m));
    assert [] + bs == bs && bs + [] == bs;
    SimStream.FrameStart(m);
    StripsNothing(st1);
    ParseEncode(m, []);
    SimStream.DrainSome(st1, axis);
    assert bs[|bs|..] == [];
    var st2 := SimStream.Carry(st1.(buf := []), axis, m);
    SimStream.NothingToDrain(st2, axis);
    var reply := Encode(Reply(Registers(st.sim), axis, m));
    assert st2.out == st.out + [SimStream.Ack, SimStream.Response(reply)];
    TwoWrites(reply);
  }

  lemma StripsNothing(st: SimStream.Loop)
    requires st.buf != [] && st.buf[0] != Simulator.SYNC
    ensures SimStream.Strip(st) == st
  {
  }

  lemma TwoWrites(frame: seq<byte>)
    ensures OnLine([SimStream.Ack, SimStream.Response(frame)]) == [0x4F] + frame
  {
    var ws := [SimStream.Ack, SimStream.Response(frame)];
    assert ws[..1] == [SimStream.Ack] && ws[..1][..0] == [];
    assert OnLine([]) == [];
  }

  /** The bytes the simulator wrote on hearing this arrive from attempt a on, in time. */
  ghost predicate Hears(io: Io, s: nat, a: nat, st: SimStream.Loop, axis: byte, heard: seq<byte>) {
    var r := SimStream.Turn(st, axis, SimStream.Chunk(heard));
    var d := Fresh(io, s);
    && st.out <= r.out
    && var bs := OnLine(r.out[|st.out|..]);
       && d <= a && Soon(io, d, a) && (forall k :: d <= k < a ==> io.feed(k) != Some(0x4F))
       && Arrives(io, a, bs) && |bs| >= 2 && Soon(io, a + 2, a + |bs| - 1)
  }

  lemma HearsIsReplies(io: Io, s: nat, a: nat, st: SimStream.Loop, axis: byte, m: TmlMsg)
    requires Advancing(io) && st.buf == [] && |m.data| == 2 && (m.opCode == 0xB004 || m.opCode == 0xB005)
    requires Hears(io, s, a, st, axis, Encode(m))
    ensures Comes(io, s, a, a + 1, Reply(Registers(st.sim), axis, m))
  {
    hide Encode, SimStream.Turn, Reply, OnLine, Take;
    SimulatorReplies(st, axis, m);
    var reply := Reply(Registers(st.sim), axis, m);
    ReplyShape(Registers(st.sim), axis, m);
    var bs := [0x4F] + Encode(reply);
    assert io.feed(a + 0) == Some(bs[0]);
    RestArrives(io, a, bs);
    assert bs[1..] == Encode(reply);
  }

  lemma ReplyShape(regs: nat -> word, axis: byte, m: TmlMsg)
    requires |m.data| >= 2
    ensures |Reply(regs, axis, m).data| <= MAX_WORDS
  {
  }

  /** Driver against simulator: the value the driver's read brings is what the simulated drive holds
      at the address the driver gave. */
  lemma SimulatorIsRead(io: Io, s: nat, w: nat, a: nat, axis: byte, host: byte, long: bool, address: word,
    st: SimStream.Loop, id: byte)
    requires Advancing(io) && Pushed(io, w, 10).ok && Sent(io, s, w, 10).taken == 10 && st.buf == []
    requires Hears(io, s, a, st, id, Asked(io, s, w, axis, host, if long then 0xB005 else 0xB004, address))
    ensures
      var r := Answered(io, s, w, if long then 0xB405 else 0xB404, if long then 4 else 3).0;
      && r.Some?
      && if long then Pair32(r.value[2], r.value[3]) == Simulator.Get32(st.sim, address)
         else r.value[2] == Simulator.Get16(st.sim, address)
  {
    hide Take, Encode, Decode, Pushed, Sent, Answered, Hears, Comes;
    var op: word := if long then 0xB005 else 0xB004;
    var m := TmlMsg(0x10 * axis, op, [0x10 * host + 1, address]);
    OneCopy(m);
    HeardOnce(io, s, w, axis, host, op, address);
    HearsIsReplies(io, s, a, st, id, m);
    assert Replies(io, s, a, a + 1, Asked(io, s, w, axis, host, op, address), Registers(st.sim), id);
    AnswerIsRegister(io, s, w, a, a + 1, axis, host, long, address, Registers(st.sim), id);
  }
}
