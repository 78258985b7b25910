/** The driver on the bench: the frames of its calls, carried out by the drive simulator. */
module Bench {
  import opened Codec
  import opened TmlLib
  import opened Transactions
  import opened SimEffects
  import M = Motion
  import P = Programs
  import S = Simulator
  import L = SimStream

  // ----- The frames of a call -----

  function FramesOf(axis: byte, host: byte, p: seq<M.Step>): (ms: seq<TmlMsg>)
    ensures |ms| == |p|
  {
    seq(|p|, i requires 0 <= i < |p| => M.Frame(axis, host, p[i].c))
  }

  function Alone(axis: byte, op: word): seq<TmlMsg> { [TmlMsg(0x10 * axis, op, [])] }

  /** What one call puts on the wire, each frame once. */
  function CallFrames(vars: VarMap, axis: byte, host: byte, op: Op): seq<TmlMsg> {
    match op
    case EndInit => Alone(axis, 0x0020)
    case AxisOn => Alone(axis, 0x0102)
    case AxisOff => Alone(axis, 0x0002)
    case Abort => Alone(axis, 0x0104)
    case Reset => Alone(axis, 0x0402)
    case Read(name) => [TmlMsg(0x10 * axis, 0xB004, [0x10 * host + 1, Resolve(vars, name)])]
    case Sap(pos) => [TmlMsg(0x10 * axis, 0x8400, [pos % 0x1_0000, pos / 0x1_0000 % 0x1_0000])]
    case _ => FramesOf(axis, host, ProgramOf(vars, op))
  }

  lemma FramesAreValid(vars: VarMap, axis: byte, host: byte, op: Op)
    ensures L.AllValid(CallFrames(vars, axis, host, op))
  {
    hide ProgramOf, Resolve;
  }

  /** Their bytes. */
  function CallBytes(vars: VarMap, axis: byte, host: byte, op: Op): seq<byte> {
    FramesAreValid(vars, axis, host, op);
    L.Stream(CallFrames(vars, axis, host, op))
  }

  // ----- Frames carried out -----

  function Fed(s: S.Sim, ms: seq<TmlMsg>): S.Sim { L.Replay(s, L.Dids(ms)) }

  lemma FedOn(s: S.Sim, a: seq<TmlMsg>, b: seq<TmlMsg>)
    ensures Fed(s, a + b) == Fed(Fed(s, a), b)
  {
    L.Appended(s, L.Dids(a), L.Dids(b));
    assert L.Dids(a + b) == L.Dids(a) + L.Dids(b);
  }

  lemma FedOne(s: S.Sim, m: TmlMsg)
    ensures Fed(s, [m]) == (if L.IsRead(m) then s else S.Process(s, m)) && Fed(s, []) == s
  {
    hide S.Process;
    L.OneAction(s, L.Did(m));
    assert L.Dids([m]) == [L.Did(m)] && L.Dids([]) == [];
  }

  lemma FramesOn(axis: byte, host: byte, p: seq<M.Step>, q: seq<M.Step>)
    ensures FramesOf(axis, host, p + q) == FramesOf(axis, host, p) + FramesOf(axis, host, q)
  {
  }

  /** The simulated drive after a program's frames. */
  function After(s: S.Sim, axis: byte, host: byte, p: seq<M.Step>): S.Sim { Fed(s, FramesOf(axis, host, p)) }

  lemma AfterOn(s: S.Sim, axis: byte, host: byte, p: seq<M.Step>, q: seq<M.Step>)
    ensures After(s, axis, host, p + q) == After(After(s, axis, host, p), axis, host, q)
  {
    hide Fed;
    FramesOn(axis, host, p, q);
    FedOn(s, FramesOf(axis, host, p), FramesOf(axis, host, q));
  }

  lemma AfterOne(s: S.Sim, axis: byte, host: byte, st: M.Step)
    ensures
      var t, m := After(s, axis, host, [st]), M.Frame(axis, host, st.c);
      (if m.opCode == 0xB004 || m.opCode == 0xB005 then t == s else Told(s, m, t)) && After(s, axis, host, []) == s
  {
    hide S.Process, Told, Fed;
    assert FramesOf(axis, host, [st]) == [M.Frame(axis, host, st.c)] && FramesOf(axis, host, []) == [];
    FedOne(s, M.Frame(axis, host, st.c));
    CommandsDoTheirPart(s, M.Frame(axis, host, st.c));
  }

  // ----- Instructions -----

  lemma AfterWrite(s: S.Sim, axis: byte, host: byte, a: word, l: M.Long)
    ensures
      var t := After(s, axis, host, [M.Must(M.Write32(a, l))]);
      && t == s.(dm := t.dm, speed := t.speed) && S.Get32(t, a) == M.Value(l) && OnlyAt(s, t, {a, a as int + 1})
  {
    hide After, OnlyAt, StepOf, S.Get32;
    AfterOne(s, axis, host, M.Must(M.Write32(a, l)));
  }

  lemma AfterParam(s: S.Sim, axis: byte, host: byte, a: word, x: Option<M.Long>)
    ensures
      var t := After(s, axis, host, P.Param(a, x));
      t == s.(dm := t.dm, speed := t.speed) && OnlyAt(s, t, {a, a as int + 1})
  {
    hide After;
    if x.Some? { AfterWrite(s, axis, host, a, x.value); }
    else { AfterOne(s, axis, host, M.Must(M.Simple(0))); }
  }

  lemma AfterMode(s: S.Sim, axis: byte, host: byte, mask: bv16, val: bv16)
    ensures
      var t := After(s, axis, host, [M.Must(M.Chmod(mask, val))]);
      var cpos, cspd := S.Get32(s, 0x022E), S.Get32(s, 0x0230);
      if mask == 0xFFFF && val == 0x2000 then t == s.(target := t.target) && Signed(t.target, cpos)
      else if mask == 0xDFFF && val == 0 then t == s.(target := t.target) && Signed(t.target - s.actual, cpos)
      else if val == 0x8701 then t == s.(mode := S.Position)
      else if val == 0x8301 then t == s.(mode := S.Velocity, direction := if cspd < 0x8000_0000 then 1 else -1)
      else t == s
  {
    hide After, Signed, S.Get32;
    AfterOne(s, axis, host, M.Must(M.Chmod(mask, val)));
  }

  /** Neither a read nor the driver's UPD! means anything to it. */
  lemma AfterNothing(s: S.Sim, axis: byte, host: byte, st: M.Step)
    requires st.c.Read16? || st.c == M.Simple(0x0108) || st.c == M.Simple(0x0020)
    ensures After(s, axis, host, [st]) == s
  {
    hide After, OnlyAt, Signed, S.Get32;
    AfterOne(s, axis, host, st);
  }

  lemma AfterTwoReads(s: S.Sim, axis: byte, host: byte, a: word, b: word)
    ensures After(s, axis, host, [M.Try(M.Read16(a)), M.Try(M.Read16(b))]) == s
  {
    hide After;
    var x, y := M.Try(M.Read16(a)), M.Try(M.Read16(b));
    assert [x, y] == [x] + [y];
    AfterOn(s, axis, host, [x], [y]);
    AfterNothing(s, axis, host, x);
    AfterNothing(s, axis, host, y);
  }

  // ----- Programs -----

  /** The addresses the simulator has its motion parameters at. */
  predicate Standard(vars: VarMap) {
    Resolve(vars, "CPOS") == 0x022E && Resolve(vars, "CSPD") == 0x0230 && Resolve(vars, "CACC") == 0x0232
  }

  lemma AfterLoad(s: S.Sim, axis: byte, host: byte, v: M.Vars, pos: int, spd: Option<M.Long>, acc: Option<M.Long>)
    requires v.cpos == 0x022E
    ensures
      var t := After(s, axis, host, P.Load(v, pos, spd, acc));
      t == s.(dm := t.dm, speed := t.speed) && S.Get32(t, 0x022E) == pos % 0x1_0000_0000
  {
    hide After, P.Param, M.Value, OnlyAt, S.Get32;
    var a, b, c := P.Param(v.cacc, acc), P.Param(v.cspd, spd), [M.Must(M.Write32(v.cpos, M.U32(pos)))];
    AfterOn(s, axis, host, a + b, c);
    AfterOn(s, axis, host, a, b);
    var s1 := After(s, axis, host, a);
    AfterParam(s, axis, host, v.cacc, acc);
    AfterParam(s1, axis, host, v.cspd, spd);
    AfterWrite(After(s1, axis, host, b), axis, host, v.cpos, M.U32(pos));
  }

  /** Aimed at a position, and started as far as the simulator is concerned not at all. */
  lemma AfterModes(s: S.Sim, axis: byte, host: byte, relative: bool)
    ensures
      var p := if relative then P.RelativeMode(P.FromReference) else P.AbsoluteMode(P.FromReference);
      var t := After(s, axis, host, p);
      && t == s.(target := t.target, mode := S.Position)
      && Signed(if relative then t.target - s.actual else t.target, S.Get32(s, 0x022E))
  {
    hide After, Signed, S.Get32;
    var a := if relative then M.Must(M.Chmod(M.CPR_MASK, M.CPR_VAL)) else M.Must(M.Chmod(M.CPA_MASK, M.CPA_VAL));
    var b, c := M.Must(M.Chmod(M.PP3_MASK, M.PP3_VAL)), M.Must(M.Chmod(M.TUM1_MASK, M.TUM1_VAL));
    AfterOn(s, axis, host, [a, b], [c]);
    assert [a, b] == [a] + [b];
    AfterOn(s, axis, host, [a], [b]);
    var s1 := After(s, axis, host, [a]);
    AfterMode(s, axis, host, a.c.mask, a.c.val);
    AfterMode(s1, axis, host, M.PP3_MASK, M.PP3_VAL);
    AfterMode(After(s1, axis, host, [b]), axis, host, M.TUM1_MASK, M.TUM1_VAL);
  }

  lemma AfterAbsolute(s: S.Sim, axis: byte, host: byte, v: M.Vars, pos: int, spd: Option<M.Long>, acc: Option<M.Long>)
    requires v.cpos == 0x022E
    ensures
      var t := After(s, axis, host, P.MoveAbsolute(v, pos, spd, acc, P.Immediate, P.FromReference));
      t == s.(dm := t.dm, speed := t.speed, target := t.target, mode := S.Position) && Signed(t.target, pos)
  {
    hide After, P.Load, P.AbsoluteMode, Signed, S.Get32;
    var a, b, c, d, f := P.Load(v, pos, spd, acc), P.AbsoluteMode(P.FromReference), P.Before(v),
      [M.Must(M.Simple(M.UPD_IMM))], P.After(v);
    AfterOn(s, axis, host, a + b + c + d, f);
    AfterOn(s, axis, host, a + b + c, d);
    AfterOn(s, axis, host, a + b, c);
    AfterOn(s, axis, host, a, b);
    AfterLoad(s, axis, host, v, pos, spd, acc);
    var s1 := After(s, axis, host, a);
    AfterModes(s1, axis, host, false);
    var s2 := After(s1, axis, host, b);
    AfterTwoReads(s2, axis, host, v.mer, v.merMask);
    AfterNothing(s2, axis, host, d[0]);
    AfterTwoReads(s2, axis, host, v.srl, v.mer);
    SignedWraps(s2.target, pos);
  }

  lemma SignedWraps(x: int, pos: int)
    ensures Signed(x, pos % 0x1_0000_0000) <==> Signed(x, pos)
  {
  }

  lemma AfterRelative(s: S.Sim, axis: byte, host: byte, v: M.Vars, pos: int, spd: Option<M.Long>, acc: Option<M.Long>)
    requires v.cpos == 0x022E
    ensures
      var t := After(s, axis, host, P.MoveRelative(v, pos, spd, acc, P.Immediate, P.FromReference));
      && t == s.(dm := t.dm, speed := t.speed, target := t.target, mode := S.Position)
      && Signed(t.target - s.actual, pos)
  {
    hide After, P.Load, P.RelativeMode, Signed, S.Get32;
    var a, b, d := P.Load(v, pos, spd, acc), P.RelativeMode(P.FromReference), [M.Must(M.Simple(M.UPD_IMM))];
    AfterOn(s, axis, host, a + b, d);
    AfterOn(s, axis, host, a, b);
    AfterLoad(s, axis, host, v, pos, spd, acc);
    var s1 := After(s, axis, host, a);
    AfterModes(s1, axis, host, true);
    var s2 := After(s1, axis, host, b);
    AfterNothing(s2, axis, host, d[0]);
    SignedWraps(s2.target - s.actual, pos);
  }

  lemma AfterVelocity(s: S.Sim, axis: byte, host: byte, v: M.Vars, spd: M.Long, acc: Option<M.Long>)
    requires v.cspd == 0x0230
    ensures
      var t := After(s, axis, host, P.MoveVelocity(v, spd, acc, P.Immediate));
      && t == s.(dm := t.dm, speed := t.speed, direction := if M.Value(spd) < 0x8000_0000 then 1 else -1,
                 mode := S.Velocity)
  {
    hide After, P.Param, M.Value, S.Get32, OnlyAt, Signed;
    var a, b := P.Param(v.cacc, acc), M.Must(M.Write32(v.cspd, spd));
    var c, d := M.Must(M.Chmod(M.SP1_MASK, M.SP1_VAL)), M.Must(M.Simple(M.UPD_IMM));
    assert P.MoveVelocity(v, spd, acc, P.Immediate) == a + [b] + [c] + [d];
    AfterOn(s, axis, host, a + [b] + [c], [d]);
    AfterOn(s, axis, host, a + [b], [c]);
    AfterOn(s, axis, host, a, [b]);
    AfterParam(s, axis, host, v.cacc, acc);
    var s1 := After(s, axis, host, a);
    AfterWrite(s1, axis, host, v.cspd, spd);
    var s2 := After(s1, axis, host, [b]);
    AfterMode(s2, axis, host, M.SP1_MASK, M.SP1_VAL);
    AfterNothing(After(s2, axis, host, [c]), axis, host, d);
  }

  // ----- Main result: what a call makes of the simulated drive -----

  /** 16.16 fixed point as 32 bits. */
  function Sixteen(x: real): int {
    (if x < 0.0 then -(-x * 65536.0).Floor else (x * 65536.0).Floor) % 0x1_0000_0000
  }

  /** t is s once the call is through. No call sets it in motion that was not: the driver's UPD!
      has a code the simulator knows for something else. */
  ghost predicate Obeyed(s: S.Sim, t: S.Sim, vars: VarMap, op: Op) {
    match op
    case EndInit => t == s
    case Read(_) => t == s
    case AxisOn => t == s.(dm := t.dm, powered := true) && Tells(s, t)
    case AxisOff => t == s.(dm := t.dm, powered := false, moving := false, mode := S.Idle) && Tells(s, t)
    case Abort => t == s.(dm := t.dm, moving := false, mode := S.Idle) && Tells(s, t)
    case Reset => t == s.(dm := t.dm) && S.Get16(t, 0x0910) == 0 && OnlyAt(s, t, {0x0910})
    case Sap(pos) =>
      && t == s.(dm := t.dm, actual := t.actual) && Signed(t.actual, pos)
      && S.Get32(t, 0x0228) == pos % 0x1_0000_0000 && OnlyAt(s, t, {0x0228, 0x0229})
    case Write(name, val) =>
      t == s.(dm := t.dm) && S.Get16(t, Resolve(vars, name)) == val && OnlyAt(s, t, {Resolve(vars, name)})
    case WriteLong(name, n) =>
      var at: nat := Resolve(vars, name);
      && t == s.(dm := t.dm, speed := t.speed) && S.Get32(t, at) == n % 0x1_0000_0000 && OnlyAt(s, t, {at, at + 1})
    case MoveAbs(pos, _, _) =>
      t == s.(dm := t.dm, speed := t.speed, target := t.target, mode := S.Position) && Signed(t.target, pos)
    case MoveRel(pos, _, _) =>
      && t == s.(dm := t.dm, speed := t.speed, target := t.target, mode := S.Position)
      && Signed(t.target - s.actual, pos)
    case MoveVel(speed, _) =>
      t == s.(dm := t.dm, speed := t.speed, mode := S.Velocity,
              direction := if Sixteen(speed) < 0x8000_0000 then 1 else -1)
  }

  lemma WriteObeyed(s: S.Sim, vars: VarMap, axis: byte, host: byte, op: Op)
    requires op.Write? || op.WriteLong?
    ensures Obeyed(s, Fed(s, CallFrames(vars, axis, host, op)), vars, op)
  {
    hide Fed, Resolve, OnlyAt, S.Get32, S.Get16, StepOf;
    if op.Write? { AfterOne(s, axis, host, M.Must(M.Write16(Resolve(vars, op.name), op.val))); }
    else { AfterWrite(s, axis, host, Resolve(vars, op.name), M.U32(op.n)); }
  }

  lemma AbsoluteObeyed(s: S.Sim, vars: VarMap, axis: byte, host: byte, pos: int, speed: real, acc: real)
    requires Standard(vars)
    ensures Obeyed(s, Fed(s, CallFrames(vars, axis, host, MoveAbs(pos, speed, acc))), vars, MoveAbs(pos, speed, acc))
  {
    hide Fed, FramesOf, P.MoveAbsolute, Parameter, Resolve, Signed;
    AfterAbsolute(s, axis, host, Addresses(vars), pos, Parameter(speed), Parameter(acc));
  }

  lemma RelativeObeyed(s: S.Sim, vars: VarMap, axis: byte, host: byte, pos: int, speed: real, acc: real)
    requires Standard(vars)
    ensures Obeyed(s, Fed(s, CallFrames(vars, axis, host, MoveRel(pos, speed, acc))), vars, MoveRel(pos, speed, acc))
  {
    hide Fed, FramesOf, P.MoveRelative, Parameter, Resolve, Signed;
    AfterRelative(s, axis, host, Addresses(vars), pos, Parameter(speed), Parameter(acc));
  }

  lemma VelocityObeyed(s: S.Sim, vars: VarMap, axis: byte, host: byte, speed: real, acc: real)
    requires Standard(vars)
    ensures Obeyed(s, Fed(s, CallFrames(vars, axis, host, MoveVel(speed, acc))), vars, MoveVel(speed, acc))
  {
    hide Fed, FramesOf, P.MoveVelocity, Parameter, Resolve;
    AfterVelocity(s, axis, host, Addresses(vars), M.U32(Fixed(speed)), Parameter(acc));
  }

  lemma ProgramObeyed(s: S.Sim, vars: VarMap, axis: byte, host: byte, op: Op)
    requires WritesRegisters(op) && Standard(vars)
    ensures Obeyed(s, Fed(s, CallFrames(vars, axis, host, op)), vars, op)
  {
    hide Fed, CallFrames, Obeyed, Standard;
    match op
    case Write(_, _) => WriteObeyed(s, vars, axis, host, op);
    case WriteLong(_, _) => WriteObeyed(s, vars, axis, host, op);
    case MoveAbs(pos, speed, acc) => AbsoluteObeyed(s, vars, axis, host, pos, speed, acc);
    case MoveRel(pos, speed, acc) => RelativeObeyed(s, vars, axis, host, pos, speed, acc);
    case MoveVel(speed, acc) => VelocityObeyed(s, vars, axis, host, speed, acc);
  }

  lemma CallObeyed(s: S.Sim, vars: VarMap, axis: byte, host: byte, op: Op)
    requires Standard(vars)
    ensures Obeyed(s, Fed(s, CallFrames(vars, axis, host, op)), vars, op)
  {
    hide Fed, Resolve, OnlyAt, Tells, S.Get32, S.Get16, S.Process, Signed, StepOf;
    if WritesRegisters(op) { ProgramObeyed(s, vars, axis, host, op); }
    else {
      var m := CallFrames(vars, axis, host, op)[0];
      assert CallFrames(vars, axis, host, op) == [m];
      FedOne(s, m);
      CommandsDoTheirPart(s, m);
      if op.Sap? {
        Words(op.pos);
        SignedWraps(Fed(s, [m]).actual, op.pos);
      }
    }
  }

  lemma Words(pos: int)
    ensures Whole(pos % 0x1_0000, pos / 0x1_0000 % 0x1_0000) == pos % 0x1_0000_0000
  {
  }

  lemma {:induction false} OnlyDids(acts: seq<L.Action>)
    requires L.Motions(acts) == 0
    ensures acts == L.Dids(L.Frames(acts))
    decreases |acts|
  {
    if acts != [] {
      var front, a := acts[..|acts| - 1], acts[|acts| - 1];
      OnlyDids(front);
      assert acts == front + [a];
      match a
      case Moved => assert false;
      case Did(m) => assert L.Dids(L.Frames(front) + [m]) == L.Dids(L.Frames(front)) + [L.Did(m)];
    }
  }

  /** Driver against simulator, over the line: however the bytes of a call's frames are cut up on
      their way, between two ticks of its motion clock the simulated drive has done what the call
      says - put itself on or off, stopped, set its position or a register, or taken its aim. */
  lemma CallsAreCarriedOut(st: L.Loop, id: byte, es: seq<L.Event>, vars: VarMap, axis: byte, host: byte, op: Op)
    requires st.buf == [] && Standard(vars) && L.TicksOf(es) == 0
    requires L.Received(es) == CallBytes(vars, axis, host, op)
    ensures
      var end := L.Turns(st, id, es);
      Obeyed(st.sim, end.sim, vars, op) && end.buf == [] && end.done == st.done + CallFrames(vars, axis, host, op)
  {
    hide CallFrames, Obeyed, L.Turns, L.Stream, L.History, L.Acks, Resolve;
    var ms := CallFrames(vars, axis, host, op);
    var acts := L.History(st, id, es);
    FramesAreValid(vars, axis, host, op);
    L.WholeStreamIsDone(st, id, es, ms);
    L.DoneIsRun(st, id, es);
    OnlyDids(acts);
    assert L.Frames(acts) == ms by { SameTail(st.done, L.Frames(acts), ms); }
    CallObeyed(st.sim, vars, axis, host, op);
  }

  lemma SameTail<T>(a: seq<T>, x: seq<T>, y: seq<T>)
    requires a + x == a + y
    ensures x == y
  {
    assert (a + x)[|a|..] == x && (a + y)[|a|..] == y;
  }

  /** In particular none starts a motion; its own code for an immediate update does. */
  lemma NoCallStartsMotion(s: S.Sim, vars: VarMap, axis: byte, host: byte, op: Op)
    requires Standard(vars)
    ensures Fed(s, CallFrames(vars, axis, host, op)).moving ==> s.moving
    ensures Fed(s, Alone(axis, 0x0008)).moving <==> s.moving || (s.powered && s.mode != S.Idle)
  {
    hide Fed, CallFrames, OnlyAt, Tells, Signed, Resolve, S.Get32, S.Get16, S.Process;
    CallObeyed(s, vars, axis, host, op);
    FedOne(s, TmlMsg(0x10 * axis, 0x0008, []));
    CommandsDoTheirPart(s, TmlMsg(0x10 * axis, 0x0008, []));
  }
}
