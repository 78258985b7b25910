/** What the simulator writes to its port: to every read request the register asked for. */
module SimAnswers {
  import opened Codec
  import opened Simulator
  import opened SimStream

  /** These writes answer frame m from a drive in state s: a read request for a 16-bit or a 32-bit
      register gets one frame, which the driver's decoder takes for a TakeData16 or a TakeData32 to
      the sender, with the register's address and its value, low word first; anything else gets none. */
  ghost predicate Answers(s: Sim, axis: byte, m: TmlMsg, ws: seq<Write>) {
    if |m.data| < 2 || (m.opCode != 0xB004 && m.opCode != 0xB005) then ws == []
    else
      && |ws| == 1 && ws[0].Response? && Decode(ws[0].frame).Some?
      && var r, at := Decode(ws[0].frame).value, m.data[1];
         && r.addr == m.data[0]
         && if m.opCode == 0xB004 then r.opCode == 0xB404 && r.data == [0x10 * axis, at, Get16(s, at)]
            else && r.opCode == 0xB405 && |r.data| == 4 && r.data[..2] == [0x10 * axis, at]
                 && r.data[2] == Get16(s, at) && 0x1_0000 * (r.data[3] as int) + r.data[2] == Get32(s, at)
  }

  /** Every answer is one. */
  lemma AnswerAnswers(s: Sim, axis: byte, m: TmlMsg)
    ensures Answers(s, axis, m, Answer(s, axis, m))
  {
    hide Encode, Decode;
    if |m.data| >= 2 {
      Decodes(TmlMsg(m.data[0], 0xB404, [0x10 * axis, m.data[1], Get16(s, m.data[1])]));
      Decodes(TmlMsg(m.data[0], 0xB405, [0x10 * axis, m.data[1], Get16(s, m.data[1]), Get16(s, High(m.data[1]))]));
    }
  }

  lemma Decodes(m: TmlMsg)
    requires |m.data| <= MAX_WORDS
    ensures Decode(Encode(m)) == Some(m)
  {
    hide Encode, Decode;
    DecodeEncode(m, []);
    assert Encode(m) + [] == Encode(m);
  }

  // ----- Main result: over whole runs -----

  /** These writes are, for every frame carried out, an ACK and then its answer, from the drive as
      the actions before it had left it. */
  ghost predicate AnswersAll(s: Sim, axis: byte, acts: seq<Action>, ws: seq<Write>)
    decreases |acts|
  {
    if acts == [] then ws == []
    else
      var front, a := acts[..|acts| - 1], acts[|acts| - 1];
      match a
      case Moved => AnswersAll(s, axis, front, ws)
      case Did(m) =>
        exists n :: 0 <= n < |ws| && AnswersAll(s, axis, front, ws[..n]) && ws[n] == Ack
                    && Answers(Replay(s, front), axis, m, ws[n + 1..])
  }

  lemma OneMore(s: Sim, axis: byte, front: seq<Action>, m: TmlMsg, ws: seq<Write>, n: nat)
    requires n < |ws| && AnswersAll(s, axis, front, ws[..n]) && ws[n] == Ack
    requires Answers(Replay(s, front), axis, m, ws[n + 1..])
    ensures AnswersAll(s, axis, front + [Did(m)], ws)
  {
    hide Answers, Replay;
    assert (front + [Did(m)])[..|front|] == front;
  }

  lemma Split(v: seq<Write>, w: seq<Write>, n: nat)
    requires n < |w|
    ensures (v + w)[..|v| + n] == v + w[..n] && (v + w)[|v| + n] == w[n] && (v + w)[|v| + n + 1..] == w[n + 1..]
  {
  }

  lemma LastOne(s: Sim, axis: byte, acts: seq<Action>, ws: seq<Write>) returns (n: nat)
    requires acts != [] && AnswersAll(s, axis, acts, ws)
    ensures
      var front, a := acts[..|acts| - 1], acts[|acts| - 1];
      match a
      case Moved => AnswersAll(s, axis, front, ws)
      case Did(m) => n < |ws| && AnswersAll(s, axis, front, ws[..n]) && ws[n] == Ack
                     && Answers(Replay(s, front), axis, m, ws[n + 1..])
  {
    hide Answers, Replay;
    var front, a := acts[..|acts| - 1], acts[|acts| - 1];
    n := 0;
    if a.Did? {
      n :| 0 <= n < |ws| && AnswersAll(s, axis, front, ws[..n]) && ws[n] == Ack
           && Answers(Replay(s, front), axis, a.m, ws[n + 1..]);
    }
  }

  lemma TickAnswers(s: Sim, axis: byte, front: seq<Action>, ws: seq<Write>)
    requires AnswersAll(s, axis, front, ws)
    ensures AnswersAll(s, axis, front + [Moved], ws)
  {
    hide Answers, Replay;
    assert (front + [Moved])[..|front|] == front;
  }

  lemma {:induction false} AnswersOn(s: Sim, axis: byte, a: seq<Action>, b: seq<Action>, v: seq<Write>, w: seq<Write>)
    requires AnswersAll(s, axis, a, v) && AnswersAll(Replay(s, a), axis, b, w)
    ensures AnswersAll(s, axis, a + b, v + w)
    decreases |b|
  {
    hide Answers, AnswersAll, Replay;
    if b == [] {
      NothingWritten(Replay(s, a), axis, w);
      assert a + b == a && v + w == v;
    } else {
      var front, x := b[..|b| - 1], b[|b| - 1];
      var n := LastOne(Replay(s, a), axis, b, w);
      Appended(s, a, front);
      assert a + b == (a + front) + [x];
      match x
      case Moved =>
        AnswersOn(s, axis, a, front, v, w);
        TickAnswers(s, axis, a + front, v + w);
      case Did(m) =>
        AnswersOn(s, axis, a, front, v, w[..n]);
        Split(v, w, n);
        OneMore(s, axis, a + front, m, v + w, |v| + n);
    }
  }

  lemma NothingWritten(s: Sim, axis: byte, ws: seq<Write>)
    requires AnswersAll(s, axis, [], ws)
    ensures ws == []
  {
  }

  lemma OneFrame(s: Sim, axis: byte, m: TmlMsg)
    ensures AnswersAll(s, axis, [Did(m)], [Ack] + Answer(s, axis, m)) && AnswersAll(s, axis, [], [])
    ensures AnswersAll(s, axis, [Moved], [])
  {
    hide Answers, Answer;
    AnswerAnswers(s, axis, m);
    var ws := [Ack] + Answer(s, axis, m);
    assert [Did(m)][..0] == [] && [Moved][..0] == [] && ws[..0] == [] && ws[1..] == Answer(s, axis, m);
    assert Replay(s, []) == s;
  }

  /** Writes without the SYNC replies. */
  function Plain(ws: seq<Write>): seq<Write> {
    if ws == [] then [] else Plain(ws[..|ws| - 1]) + if ws[|ws| - 1] == SyncReply then [] else [ws[|ws| - 1]]
  }

  lemma {:induction false} PlainOn(v: seq<Write>, w: seq<Write>)
    ensures Plain(v + w) == Plain(v) + Plain(w)
    decreases |w|
  {
    if w == [] { assert v + w == v; }
    else {
      assert (v + w)[..|v + w| - 1] == v + w[..|w| - 1];
      PlainOn(v, w[..|w| - 1]);
    }
  }

  lemma {:induction false} PlainIs(w: seq<Write>)
    requires NoSync(w)
    ensures Plain(w) == w
    decreases |w|
  {
    if w != [] { PlainIs(w[..|w| - 1]); }
  }

  lemma {:induction false} OnlySyncs(w: seq<Write>)
    requires forall k :: 0 <= k < |w| ==> w[k] == SyncReply
    ensures Plain(w) == []
    decreases |w|
  {
    if w != [] { OnlySyncs(w[..|w| - 1]); }
  }

  /** What was written from one state of the loop to another. */
  function Written(a: Loop, b: Loop): seq<Write> { if |a.out| <= |b.out| then b.out[|a.out|..] else [] }

  /** What the loop did from one state to another: the frames it recorded, and what it wrote. */
  ghost predicate Served(st: Loop, r: Loop, axis: byte) {
    && st.done <= r.done && st.out <= r.out && NoSync(Written(st, r))
    && AnswersAll(st.sim, axis, Dids(Since(st, r)), Written(st, r))
  }

  lemma ServedThen(st: Loop, st': Loop, r: Loop, axis: byte, m: TmlMsg)
    requires st'.sim == Act(st.sim, Did(m)) && st'.done == st.done + [m]
    requires st'.out == st.out + ([Ack] + Answer(st.sim, axis, m)) && Served(st', r, axis)
    ensures Served(st, r, axis)
  {
    hide Act, Answer, AnswersAll, Dids;
    var ws := [Ack] + Answer(st.sim, axis, m);
    assert Since(st, r) == [m] + Since(st', r) && Written(st, r) == ws + Written(st', r);
    DidOne(m, Since(st', r));
    OneFrame(st.sim, axis, m);
    OneAction(st.sim, Did(m));
    OneAck(st.sim, axis, m);
    AnswersOn(st.sim, axis, [Did(m)], Dids(Since(st', r)), ws, Written(st', r));
  }

  lemma ServedNothing(st: Loop, axis: byte)
    ensures Served(st, st, axis)
  {
    hide AnswersAll;
    OneFrame(st.sim, axis, TmlMsg(0, 0, []));
    NoDids(st);
    assert Written(st, st) == [];
  }

  lemma {:induction false} DrainAnswers(st: Loop, axis: byte)
    ensures Served(st, Drain(st, axis), axis)
    decreases |st.buf|
  {
    hide Act, Parse, Answer, Drain, Served, Carry;
    DrainSome(st, axis);
    if Parse(st.buf).Some? {
      var (m, n) := Parse(st.buf).value;
      ParseTakes(st.buf);
      var st0 := st.(buf := st.buf[n..]);
      var st' := Carry(st0, axis, m);
      CarryDoes(st0, axis, m);
      DrainAnswers(st', axis);
      CarryActs(st0, axis, m);
      CarryWrites(st0, axis, m);
      ServedThen(st, st', Drain(st, axis), axis, m);
    } else { ServedNothing(st, axis); }
  }

  lemma NoDids(st: Loop)
    ensures Dids(Since(st, st)) == []
  {
  }

  lemma CarryWrites(st: Loop, axis: byte, m: TmlMsg)
    ensures Carry(st, axis, m).out == st.out + ([Ack] + Answer(st.sim, axis, m))
  {
    hide Process, Answer;
  }

  lemma {:induction false} StripWrites(st: Loop)
    ensures
      var r := Strip(st);
      st.out <= r.out && r.done == st.done && r.sim == st.sim && Plain(Written(st, r)) == []
    decreases |st.buf|
  {
    hide Plain;
    var r := Strip(st);
    if st.buf != [] && st.buf[0] == SYNC {
      var st' := st.(buf := st.buf[1..], out := st.out + [SyncReply]);
      StripWrites(st');
      PlainOn([SyncReply], Written(st', r));
      OnlySyncs([SyncReply]);
      assert Written(st, r) == [SyncReply] + Written(st', r);
    } else {
      OnlySyncs([]);
      assert Written(st, r) == [];
    }
  }

  lemma TurnAnswers(st: Loop, axis: byte, e: Event)
    ensures
      var r := Turn(st, axis, e);
      && st.out <= r.out
      && AnswersAll(st.sim, axis, (if e == Tick then [Moved] else []) + Dids(Since(st, r)), Plain(Written(st, r)))
  {
    hide Drain, Strip, MotionStep, Process, Dids, AnswersAll, Plain;
    var st1 := match e case Tick => st.(sim := MotionStep(st.sim)) case Chunk(bs) => st.(buf := st.buf + bs);
    var st2, r := Strip(st1), Turn(st, axis, e);
    StripWrites(st1);
    DrainAnswers(st2, axis);
    PlainOn(Written(st1, st2), Written(st2, r));
    PlainIs(Written(st2, r));
    assert Written(st, r) == Written(st1, st2) + Written(st2, r);
    assert Plain(Written(st, r)) == Written(st2, r);
    DrainActs(st2, axis);
    OneFrame(st.sim, axis, TmlMsg(0, 0, []));
    OneAction(st.sim, Moved);
    assert Since(st, r) == Since(st2, r);
    if e == Tick { AnswersOn(st.sim, axis, [Moved], Dids(Since(st, r)), [], Written(st2, r)); }
    assert [] + Written(st2, r) == Written(st2, r) && [] + Dids(Since(st, r)) == Dids(Since(st, r));
  }

  /** For any events at all: apart from the replies to SYNC bytes, what the loop writes is an ACK
      for every frame carried out and the answer to every read among them, in order, each from the
      drive as the ticks and frames before it had left it. */
  lemma {:induction false} EveryReadIsAnswered(st: Loop, axis: byte, es: seq<Event>)
    ensures
      var r := Turns(st, axis, es);
      st.out <= r.out && AnswersAll(st.sim, axis, History(st, axis, es), Plain(Written(st, r)))
    decreases |es|
  {
    hide Turn, Dids, Act, Since, Replay, Plain, AnswersAll;
    if es != [] {
      var front, e := es[..|es| - 1], es[|es| - 1];
      var mid, r := Turns(st, axis, front), Turns(st, axis, es);
      EveryReadIsAnswered(st, axis, front);
      DoneIsRun(st, axis, front);
      TurnAnswers(mid, axis, e);
      var acts := (if e == Tick then [Moved] else []) + Dids(Since(mid, r));
      assert History(st, axis, es) == History(st, axis, front) + acts;
      PlainOn(Written(st, mid), Written(mid, r));
      assert Written(st, r) == Written(st, mid) + Written(mid, r);
      AnswersOn(st.sim, axis, History(st, axis, front), acts, Plain(Written(st, mid)), Plain(Written(mid, r)));
    } else {
      OneFrame(st.sim, axis, TmlMsg(0, 0, []));
      OnlySyncs([]);
      assert Written(st, st) == [];
    }
  }
}
