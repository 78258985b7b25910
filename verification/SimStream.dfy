/** The simulator's main loop: chunks of bytes in, frames carried out in order. */
module SimStream {
  import opened Codec
  import opened Simulator

  /** One turn of the loop: a tick of the motion clock, or bytes that arrived. */
  datatype Event = Tick | Chunk(bytes: seq<byte>)

  /** One write to the port. */
  datatype Write = SyncReply | Ack | Response(frame: seq<byte>)

  /** The loop's variables, and a record of what it did. */
  datatype Loop = Loop(sim: Sim, buf: seq<byte>, done: seq<TmlMsg>, out: seq<Write>)

  /** SYNC bytes at the front are answered and dropped. */
  function Strip(st: Loop): Loop
    decreases |st.buf|
  {
    if st.buf != [] && st.buf[0] == SYNC then Strip(st.(buf := st.buf[1..], out := st.out + [SyncReply]))
    else st
  }

  function High(a: word): nat { a + 1 }

  function Answer(s: Sim, axis: byte, m: TmlMsg): seq<Write> {
    if m.opCode == GIVE_ME_DATA_16 && |m.data| >= 2 then
      [Response(Encode(TmlMsg(m.data[0], TAKE_DATA_16, [0x10 * axis, m.data[1], Get16(s, m.data[1])])))]
    else if m.opCode == GIVE_ME_DATA_32 && |m.data| >= 2 then
      [Response(Encode(TmlMsg(m.data[0], TAKE_DATA_32,
        [0x10 * axis, m.data[1], Get16(s, m.data[1]), Get16(s, High(m.data[1]))])))]
    else []
  }

  predicate IsRead(m: TmlMsg) { m.opCode == GIVE_ME_DATA_16 || m.opCode == GIVE_ME_DATA_32 }

  /** One frame: acknowledged, then answered or carried out. */
  function Carry(st: Loop, axis: byte, m: TmlMsg): Loop {
    Loop(if IsRead(m) then st.sim else Process(st.sim, m),
         st.buf, st.done + [m], st.out + [Ack] + Answer(st.sim, axis, m))
  }

  /** Frames are taken off the buffer until it holds no whole one. */
  function Drain(st: Loop, axis: byte): Loop
    decreases |st.buf|
  {
    match Parse(st.buf)
    case None => st
    case Some(r) => Drain(Carry(st.(buf := st.buf[r.1..]), axis, r.0), axis)
  }

  function Turn(st: Loop, axis: byte, e: Event): Loop {
    match e
    case Tick => Drain(Strip(st.(sim := MotionStep(st.sim))), axis)
    case Chunk(bs) => Drain(Strip(st.(buf := st.buf + bs)), axis)
  }

  function Turns(st: Loop, axis: byte, es: seq<Event>): Loop {
    if es == [] then st else Turn(Turns(st, axis, es[..|es| - 1]), axis, es[|es| - 1])
  }

  // ----- Main result: how the stream is cut does not matter -----

  predicate Valid(m: TmlMsg) { |m.data| <= MAX_WORDS }

  predicate AllValid(ms: seq<TmlMsg>) { forall i :: 0 <= i < |ms| ==> Valid(ms[i]) }

  /** The bytes of frames sent one after the other. */
  function Stream(ms: seq<TmlMsg>): seq<byte>
    requires AllValid(ms)
  {
    if ms == [] then [] else Encode(ms[0]) + Stream(ms[1..])
  }

  function Received(es: seq<Event>): seq<byte> {
    if es == [] then []
    else Received(es[..|es| - 1]) + match es[|es| - 1] case Tick => [] case Chunk(bs) => bs
  }

  function Acks(out: seq<Write>): nat {
    if out == [] then 0 else Acks(out[..|out| - 1]) + if out[|out| - 1] == Ack then 1 else 0
  }

  predicate NoSync(out: seq<Write>) { SyncReply !in out }

  /** What the loop should be after reading the first part of Stream(ms): n whole frames
      done, one ACK for each, no frame byte taken for a SYNC, and the start of the next
      frame left in the buffer. */
  ghost predicate UpTo(st0: Loop, st: Loop, ms: seq<TmlMsg>, n: nat)
    requires n <= |ms| && AllValid(ms)
  {
    && st.done == st0.done + ms[..n]
    && Acks(st.out) == Acks(st0.out) + n
    && (NoSync(st0.out) ==> NoSync(st.out))
    && (if n == |ms| then st.buf == [] else st.buf < Encode(ms[n]))
  }

  lemma FrameStart(m: TmlMsg)
    requires Valid(m)
    ensures Len(Encode(m)) == 4 + 2 * |m.data| && Encode(m)[0] != SYNC && |Encode(m)| == Len(Encode(m)) + 2
  {
    hide Sum;
  }

  /** A proper prefix of a frame is not parsed. */
  lemma PartIsNotParsed(m: TmlMsg, b: seq<byte>)
    requires Valid(m) && b < Encode(m)
    ensures Parse(b) == None
  {
    hide Sum, Encode;
    FrameStart(m);
  }

  lemma {:induction false} AcksAppend(a: seq<Write>, b: seq<Write>)
    ensures Acks(a + b) == Acks(a) + Acks(b)
    decreases |b|
  {
    if b == [] {
      assert a + b == a;
    } else {
      assert (a + b)[..|a + b| - 1] == a + b[..|b| - 1];
      AcksAppend(a, b[..|b| - 1]);
    }
  }

  lemma CarryAcks(st: Loop, axis: byte, m: TmlMsg)
    ensures Acks(Carry(st, axis, m).out) == Acks(st.out) + 1
    ensures NoSync(st.out) ==> NoSync(Carry(st, axis, m).out)
  {
    hide Encode, Process;
    var a := Answer(st.sim, axis, m);
    AcksAppend(st.out + [Ack], a);
    AcksAppend(st.out, [Ack]);
    OneAck(st.sim, axis, m);
  }

  lemma OneAck(s: Sim, axis: byte, m: TmlMsg)
    ensures Acks([Ack]) == 1 && Acks(Answer(s, axis, m)) == 0 && NoSync(Answer(s, axis, m))
  {
    hide Encode;
    var a := Answer(s, axis, m);
    assert [Ack][..0] == [];
    assert a[..0] == [];
    if a != [] { assert a[..|a| - 1] == []; }
  }

  lemma DrainOne(st: Loop, axis: byte, m: TmlMsg, tail: seq<byte>)
    requires Valid(m) && st.buf == Encode(m) + tail
    ensures Drain(st, axis) == Drain(Carry(st.(buf := tail), axis, m), axis)
  {
    hide Encode, Carry, Parse;
    ParseEncode(m, tail);
    assert st.buf[|Encode(m)|..] == tail;
  }

  lemma DrainNone(st: Loop, axis: byte, m: TmlMsg)
    requires Valid(m) && st.buf < Encode(m)
    ensures Drain(st, axis) == st
  {
    hide Encode, Carry, Parse;
    PartIsNotParsed(m, st.buf);
  }

  /** Draining a buffer that holds the start of Stream(ms). */
  lemma {:induction false} DrainStream(st: Loop, axis: byte, ms: seq<TmlMsg>) returns (n: nat)
    requires AllValid(ms) && st.buf <= Stream(ms)
    ensures n <= |ms| && UpTo(st, Drain(st, axis), ms, n)
    ensures st.buf == Stream(ms[..n]) + Drain(st, axis).buf
    decreases |ms|
  {
    hide Encode, Carry, Parse, Drain, Acks, NoSync;
    n := 0;
    assert st.done + ms[..0] == st.done;
    if ms == [] {
      NothingToDrain(st, axis);
    } else if |st.buf| < |Encode(ms[0])| {
      assert st.buf < Encode(ms[0]);
      DrainNone(st, axis, ms[0]);
    } else {
      var f, tail := Encode(ms[0]), st.buf[|Encode(ms[0])|..];
      assert st.buf == f + tail && tail <= Stream(ms[1..]) by { CutFrame(f, st.buf, Stream(ms[1..])); }
      DrainOne(st, axis, ms[0], tail);
      var st' := Carry(st.(buf := tail), axis, ms[0]);
      CarryAcks(st.(buf := tail), axis, ms[0]);
      CarryDoes(st.(buf := tail), axis, ms[0]);
      n := DrainStream(st', axis, ms[1..]);
      UpToCons(st, st', Drain(st', axis), ms, n);
      StreamPrefix(ms, n);
      assert st.buf == f + Stream(ms[1..][..n]) + Drain(st, axis).buf;
      n := n + 1;
    }
  }

  lemma CutFrame(f: seq<byte>, b: seq<byte>, rest: seq<byte>)
    requires b <= f + rest && |f| <= |b|
    ensures b == f + b[|f|..] && b[|f|..] <= rest
  {
  }

  lemma UpToCons(st: Loop, st': Loop, end: Loop, ms: seq<TmlMsg>, k: nat)
    requires AllValid(ms) && ms != [] && k < |ms|
    requires st'.done == st.done + [ms[0]] && Acks(st'.out) == Acks(st.out) + 1 && (NoSync(st.out) ==> NoSync(st'.out))
    requires UpTo(st', end, ms[1..], k)
    ensures UpTo(st, end, ms, k + 1)
  {
    hide Encode, Acks, NoSync;
    assert ms[..k + 1] == [ms[0]] + ms[1..][..k];
  }

  lemma StreamPrefix(ms: seq<TmlMsg>, k: nat)
    requires AllValid(ms) && ms != [] && k < |ms|
    ensures Stream(ms[..k + 1]) == Encode(ms[0]) + Stream(ms[1..][..k])
  {
    hide Encode;
    assert ms[..k + 1] == [ms[0]] + ms[1..][..k];
    StreamCons(ms[0], ms[1..][..k]);
  }

  lemma NothingToDrain(st: Loop, axis: byte)
    requires st.buf == []
    ensures Drain(st, axis) == st
  {
  }

  lemma CarryDoes(st: Loop, axis: byte, m: TmlMsg)
    ensures Carry(st, axis, m).done == st.done + [m] && Carry(st, axis, m).buf == st.buf
  {
  }

  lemma StreamCons(m: TmlMsg, ms: seq<TmlMsg>)
    requires Valid(m) && AllValid(ms)
    ensures AllValid([m] + ms) && Stream([m] + ms) == Encode(m) + Stream(ms)
  {
    hide Encode;
    assert ([m] + ms)[1..] == ms;
  }

  /** A buffer that starts a stream of frames does not start with a SYNC. */
  lemma NothingToStrip(st: Loop, ms: seq<TmlMsg>)
    requires AllValid(ms) && st.buf <= Stream(ms)
    ensures Strip(st) == st
  {
    hide Encode;
    if ms != [] { FrameStart(ms[0]); }
  }

  lemma {:induction false} StreamSplit(ms: seq<TmlMsg>, n: nat)
    requires AllValid(ms) && n <= |ms|
    ensures Stream(ms) == Stream(ms[..n]) + Stream(ms[n..])
    decreases n
  {
    hide Encode;
    if n > 0 {
      StreamSplit(ms[1..], n - 1);
      assert ms[..n] == [ms[0]] + ms[1..][..n - 1] && ms[1..][n - 1..] == ms[n..];
      StreamCons(ms[0], ms[1..][..n - 1]);
    } else {
      assert ms[n..] == ms && ms[..n] == [];
    }
  }

  lemma TurnOnStream(st: Loop, axis: byte, e: Event, ms: seq<TmlMsg>) returns (n: nat)
    requires AllValid(ms)
    requires (st.buf + match e case Tick => [] case Chunk(bs) => bs) <= Stream(ms)
    ensures n <= |ms| && UpTo(st, Turn(st, axis, e), ms, n)
    ensures st.buf + (match e case Tick => [] case Chunk(bs) => bs) == Stream(ms[..n]) + Turn(st, axis, e).buf
  {
    hide Encode, Drain, Strip, MotionStep, Stream, Acks, NoSync;
    var bs := match e case Tick => [] case Chunk(bs) => bs;
    assert e.Tick? ==> st.buf + bs == st.buf;
    var st' := match e case Tick => st.(sim := MotionStep(st.sim)) case Chunk(bs) => st.(buf := st.buf + bs);
    NothingToStrip(st', ms);
    n := DrainStream(st', axis, ms);
  }

  lemma UpToTransitive(a: Loop, b: Loop, c: Loop, ms: seq<TmlMsg>, n: nat, k: nat)
    requires AllValid(ms) && n <= |ms| && k <= |ms[n..]|
    requires UpTo(a, b, ms, n) && UpTo(b, c, ms[n..], k)
    ensures UpTo(a, c, ms, n + k)
  {
    hide Encode, Acks, NoSync, AllValid;
    var rest := ms[n..];
    assert AllValid(rest) by { TailValid(ms, n); }
    assert a.done + ms[..n] + rest[..k] == a.done + ms[..n + k] by { TakeTake(ms, n, k); }
    assert |rest| == |ms| - n;
    if n + k < |ms| { assert rest[k] == ms[n + k]; }
  }

  lemma TailValid(ms: seq<TmlMsg>, n: nat)
    requires AllValid(ms) && n <= |ms|
    ensures AllValid(ms[n..])
  {
  }

  lemma TakeTake(ms: seq<TmlMsg>, n: nat, k: nat)
    requires n + k <= |ms|
    ensures ms[..n] + ms[n..][..k] == ms[..n + k]
  {
  }

  lemma SuffixFits(front: seq<byte>, rest: seq<byte>, buf: seq<byte>, bs: seq<byte>)
    requires front + buf + bs <= front + rest
    ensures buf + bs <= rest
  {
    assert front + buf + bs == front + (buf + bs);
    TailFits(front, buf + bs, rest);
  }

  lemma TailFits(a: seq<byte>, x: seq<byte>, y: seq<byte>)
    requires a + x <= a + y
    ensures x <= y
  {
    assert (a + y)[|a|..] == y && (a + y)[..|a + x|][|a|..] == x;
  }

  lemma StreamJoin(ms: seq<TmlMsg>, n: nat, k: nat)
    requires AllValid(ms) && n <= |ms| && k <= |ms| - n
    ensures Stream(ms[..n + k]) == Stream(ms[..n]) + Stream(ms[n..][..k])
  {
    hide Stream;
    StreamSplit(ms[..n + k], n);
    assert ms[..n + k][..n] == ms[..n] && ms[..n + k][n..] == ms[n..][..k];
  }

  /** For every sequence of valid frames and every way its bytes arrive - any chunks, any
      motion ticks in between, all of the stream or only its start - the loop has carried
      out the first n frames in order, acknowledged each once, answered no SYNC, and keeps
      as residue a proper prefix of the next frame: nothing is lost or doubled. */
  lemma {:induction false} CuttingDoesNotMatter(st: Loop, axis: byte, es: seq<Event>, ms: seq<TmlMsg>) returns (n: nat)
    requires AllValid(ms) && st.buf == [] && Received(es) <= Stream(ms)
    ensures n <= |ms| && UpTo(st, Turns(st, axis, es), ms, n)
    ensures Received(es) == Stream(ms[..n]) + Turns(st, axis, es).buf
    decreases |es|
  {
    hide Encode, Turn, Stream, Acks, NoSync;
    if es == [] {
      n := 0;
      StartsUpTo(st, ms);
    } else {
      var front, e := es[..|es| - 1], es[|es| - 1];
      var bs := match e case Tick => [] case Chunk(bs) => bs;
      assert Received(es) == Received(front) + bs;
      n := CuttingDoesNotMatter(st, axis, front, ms);
      var mid := Turns(st, axis, front);
      StreamSplit(ms, n);
      SuffixFits(Stream(ms[..n]), Stream(ms[n..]), mid.buf, bs);
      var k := TurnOnStream(mid, axis, e, ms[n..]);
      UpToTransitive(st, mid, Turns(st, axis, es), ms, n, k);
      StreamJoin(ms, n, k);
      ThreeParts(Stream(ms[..n]), mid.buf, bs, Stream(ms[n..][..k]), Turns(st, axis, es).buf);
      n := n + k;
    }
  }

  lemma ThreeParts(a: seq<byte>, b: seq<byte>, c: seq<byte>, d: seq<byte>, r: seq<byte>)
    requires b + c == d + r
    ensures a + b + c == a + d + r
  {
    assert a + b + c == a + (b + c) && a + d + r == a + (d + r);
  }

  lemma StartsUpTo(st: Loop, ms: seq<TmlMsg>)
    requires AllValid(ms) && st.buf == []
    ensures UpTo(st, st, ms, 0) && Stream(ms[..0]) + st.buf == []
  {
    hide Acks, NoSync;
    assert st.done + ms[..0] == st.done;
    if ms != [] { FrameStart(ms[0]); }
  }

  /** Once the whole stream is in, every frame is done, and the buffer is empty. */
  lemma WholeStreamIsDone(st: Loop, axis: byte, es: seq<Event>, ms: seq<TmlMsg>)
    requires AllValid(ms) && st.buf == [] && Received(es) == Stream(ms)
    ensures var end := Turns(st, axis, es);
            end.done == st.done + ms && end.buf == [] && Acks(end.out) == Acks(st.out) + |ms|
  {
    hide Encode, Turns, Acks, NoSync, Stream;
    var n := CuttingDoesNotMatter(st, axis, es, ms);
    StreamSplit(ms, n);
    var buf := Turns(st, axis, es).buf;
    TailFits(Stream(ms[..n]), Stream(ms[n..]), buf);
    if n < |ms| { FirstFrameFits(ms[n..]); }
    assert ms[..|ms|] == ms;
  }

  lemma FirstFrameFits(ms: seq<TmlMsg>)
    requires AllValid(ms) && ms != []
    ensures |Encode(ms[0])| <= |Stream(ms)|
  {
    hide Encode;
  }

  // ----- What was carried out, in which order -----

  /** What moves the simulated drive on. */
  datatype Action = Moved | Did(m: TmlMsg)

  function Dids(ms: seq<TmlMsg>): seq<Action> { seq(|ms|, i requires 0 <= i < |ms| => Did(ms[i])) }

  /** The frames done between two states of the loop. */
  function Since(a: Loop, b: Loop): seq<TmlMsg> { if |a.done| <= |b.done| then b.done[|a.done|..] else [] }

  /** Turn by turn: a tick of the motion clock first, then the frames the turn got done. */
  function History(st: Loop, axis: byte, es: seq<Event>): seq<Action> {
    if es == [] then []
    else
      var front, e := es[..|es| - 1], es[|es| - 1];
      History(st, axis, front) + (if e == Tick then [Moved] else [])
        + Dids(Since(Turns(st, axis, front), Turns(st, axis, es)))
  }

  function Act(s: Sim, a: Action): Sim {
    match a
    case Moved => MotionStep(s)
    case Did(m) => if IsRead(m) then s else Process(s, m)
  }

  function Replay(s: Sim, actions: seq<Action>): Sim {
    if actions == [] then s else Act(Replay(s, actions[..|actions| - 1]), actions[|actions| - 1])
  }

  function Frames(actions: seq<Action>): seq<TmlMsg> {
    if actions == [] then []
    else Frames(actions[..|actions| - 1]) + match actions[|actions| - 1] case Moved => [] case Did(m) => [m]
  }

  function Motions(actions: seq<Action>): nat {
    if actions == [] then 0 else Motions(actions[..|actions| - 1]) + if actions[|actions| - 1] == Moved then 1 else 0
  }

  function TicksOf(es: seq<Event>): nat {
    if es == [] then 0 else TicksOf(es[..|es| - 1]) + if es[|es| - 1] == Tick then 1 else 0
  }

  lemma {:induction false} Appended(s: Sim, a: seq<Action>, b: seq<Action>)
    ensures Replay(s, a + b) == Replay(Replay(s, a), b)
    ensures Frames(a + b) == Frames(a) + Frames(b) && Motions(a + b) == Motions(a) + Motions(b)
    decreases |b|
  {
    hide Act;
    if b == [] {
      assert a + b == a;
    } else {
      assert (a + b)[..|a + b| - 1] == a + b[..|b| - 1];
      Appended(s, a, b[..|b| - 1]);
    }
  }

  lemma OneAction(s: Sim, a: Action)
    ensures Replay(s, [a]) == Act(s, a) && Motions([a]) == (if a == Moved then 1 else 0)
    ensures Frames([a]) == match a case Moved => [] case Did(m) => [m]
  {
    hide Act;
    assert [a][..0] == [];
  }

  lemma DidOne(m: TmlMsg, ms: seq<TmlMsg>)
    ensures Dids([m] + ms) == [Did(m)] + Dids(ms)
  {
  }

  /** Draining carries out exactly the frames it records, in that order. */
  lemma {:induction false} DrainActs(st: Loop, axis: byte)
    ensures
      var r := Drain(st, axis);
      && st.done <= r.done && r.sim == Replay(st.sim, Dids(Since(st, r)))
      && Frames(Dids(Since(st, r))) == Since(st, r) && Motions(Dids(Since(st, r))) == 0
    decreases |st.buf|
  {
    hide Act, Parse, Answer, Drain;
    var r := Drain(st, axis);
    if Parse(st.buf).Some? {
      var (m, n) := Parse(st.buf).value;
      ParseTakes(st.buf);
      var st' := Carry(st.(buf := st.buf[n..]), axis, m);
      DrainSome(st, axis);
      DrainActs(st', axis);
      CarryActs(st.(buf := st.buf[n..]), axis, m);
      assert Since(st, r) == [m] + Since(st', r);
      DidOne(m, Since(st', r));
      Appended(st.sim, [Did(m)], Dids(Since(st', r)));
      OneAction(st.sim, Did(m));
    } else {
      DrainSome(st, axis);
      assert Dids(Since(st, r)) == [];
    }
  }

  lemma DrainSome(st: Loop, axis: byte)
    ensures
      var p := Parse(st.buf);
      Drain(st, axis) == if p == None then st else Drain(Carry(st.(buf := st.buf[p.value.1..]), axis, p.value.0), axis)
  {
    hide Parse, Carry;
  }

  lemma CarryActs(st: Loop, axis: byte, m: TmlMsg)
    ensures Carry(st, axis, m).sim == Act(st.sim, Did(m)) && Carry(st, axis, m).done == st.done + [m]
  {
    hide Process, Answer;
  }

  lemma ParseTakes(b: seq<byte>)
    ensures Parse(b).Some? ==> 0 < Parse(b).value.1 <= |b|
  {
    hide Sum, DataWords;
  }

  lemma {:induction false} StripKeeps(st: Loop)
    ensures Strip(st) == st.(buf := Strip(st).buf, out := Strip(st).out)
    decreases |st.buf|
  {
    if st.buf != [] && st.buf[0] == SYNC { StripKeeps(st.(buf := st.buf[1..], out := st.out + [SyncReply])); }
  }

  lemma TurnActs(st: Loop, axis: byte, e: Event)
    ensures
      var r := Turn(st, axis, e);
      var acts := (if e == Tick then [Moved] else []) + Dids(Since(st, r));
      && st.done <= r.done && r.sim == Replay(st.sim, acts)
      && Frames(acts) == Since(st, r) && Motions(acts) == if e == Tick then 1 else 0
  {
    hide Drain, Strip, MotionStep, Process, Dids;
    var st1 := match e case Tick => st.(sim := MotionStep(st.sim)) case Chunk(bs) => st.(buf := st.buf + bs);
    StripKeeps(st1);
    DrainActs(Strip(st1), axis);
    var new_ := Dids(Since(st, Turn(st, axis, e)));
    if e == Tick {
      Appended(st.sim, [Moved], new_);
      OneAction(st.sim, Moved);
    } else { assert [] + new_ == new_; }
  }

  /** For any events at all, ticks among them: the simulated drive is what the ticks and the
      frames recorded as done make of it, in the order of the turns they fell in; every frame
      done is among them, and as many motion steps as there were ticks. */
  lemma {:induction false} DoneIsRun(st: Loop, axis: byte, es: seq<Event>)
    ensures
      var r, acts := Turns(st, axis, es), History(st, axis, es);
      && r.sim == Replay(st.sim, acts)
      && st.done + Frames(acts) == r.done && Motions(acts) == TicksOf(es)
    decreases |es|
  {
    hide Turn, Dids, Act, Since, Replay, Frames, Motions;
    NothingActed(st.sim);
    if es != [] {
      var front, e := es[..|es| - 1], es[|es| - 1];
      var mid, r := Turns(st, axis, front), Turns(st, axis, es);
      DoneIsRun(st, axis, front);
      TurnActs(mid, axis, e);
      var acts := (if e == Tick then [Moved] else []) + Dids(Since(mid, r));
      Appended(st.sim, History(st, axis, front), acts);
      assert History(st, axis, es) == History(st, axis, front) + acts;
      SinceJoins(mid, r);
    }
  }

  lemma NothingActed(s: Sim)
    ensures Replay(s, []) == s && Frames([]) == [] && Motions([]) == 0
  {
  }

  lemma SinceJoins(a: Loop, b: Loop)
    requires a.done <= b.done
    ensures a.done + Since(a, b) == b.done
  {
  }

  // ----- The status word over whole runs -----

  lemma {:induction false} ReplayConsistent(s: Sim, actions: seq<Action>)
    requires Consistent(s) && forall i :: 0 <= i < |actions| && actions[i].Did? ==> LeavesStatusAlone(actions[i].m)
    ensures Consistent(Replay(s, actions))
    decreases |actions|
  {
    hide Consistent, LeavesStatusAlone, MotionStep, Process;
    if actions != [] {
      var rest, a := actions[..|actions| - 1], actions[|actions| - 1];
      ReplayConsistent(s, rest);
      match a
      case Moved => TickKeepsConsistency(Replay(s, rest));
      case Did(m) => CommandKeepsConsistency(Replay(s, rest), m);
    }
  }

  lemma {:induction false} FrameIsThere(actions: seq<Action>, i: nat)
    requires i < |actions| && actions[i].Did?
    ensures actions[i].m in Frames(actions)
    decreases |actions|
  {
    if i < |actions| - 1 { FrameIsThere(actions[..|actions| - 1], i); }
  }

  /** From the start, whatever arrives and however often the motion clock ticks: as long as no
      frame done stores into SRL or SRH, the status words say whether the axis moves and is
      powered. */
  lemma StaysConsistent(axis: byte, es: seq<Event>)
    requires
      var end := Turns(Loop(INITIAL, [], [], []), axis, es);
      forall m :: m in end.done ==> LeavesStatusAlone(m)
    ensures Consistent(Turns(Loop(INITIAL, [], [], []), axis, es).sim)
  {
    hide Consistent, LeavesStatusAlone, Turns, History, Replay, Frames;
    var st := Loop(INITIAL, [], [], []);
    var acts := History(st, axis, es);
    DoneIsRun(st, axis, es);
    assert [] + Frames(acts) == Frames(acts);
    InitialIsConsistent();
    forall i | 0 <= i < |acts| && acts[i].Did? ensures LeavesStatusAlone(acts[i].m) { FrameIsThere(acts, i); }
    ReplayConsistent(INITIAL, acts);
  }
}
