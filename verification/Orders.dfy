/** What an order becomes in the drive: the stop that reaches it, and where a move sends it. */
module Orders {
  import opened Codec
  import opened TmlLib
  import opened Supervisor
  import opened Channels
  import opened Lifting
  import opened Connection
  import opened Commanded
  import opened Transactions
  import M = Motion
  import P = Programs

  // ----- A stop reaches its drive -----

  /** The call a stop makes once it has selected its axis, wherever it ends: the first is an ABORT
      to the axis the channel is set to, and without an active channel there is none. */
  lemma StopAborts(e: Env, w: World, i: nat)
    requires i < |w.axes| && w.axes[i].configured
    ensures
      var l, r := Select(e, w, i).0.lib, Step(e, w, DoStop(i)).0.lib;
      && l.sent <= r.sent
      && if ActiveChan(l).Some?
         then |r.sent| > |l.sent| && r.sent[|l.sent|].dest == ActiveChan(l).value.axis && r.sent[|l.sent|].op == Abort
         else r.sent == l.sent
  {
    hide Select, Halt, Step;
    var w1 := Select(e, w, i).0;
    StopIs(e, w, i);
    HaltAborts(e, w1.lib, w1.axes[i].motion.homing);
  }

  lemma StopIs(e: Env, w: World, i: nat)
    requires i < |w.axes| && w.axes[i].configured
    ensures
      var w1 := Select(e, w, i).0;
      Step(e, w, DoStop(i)).0.lib == Halt(e, w1.lib, w1.axes[i].motion.homing)
  {
    hide Select, Halt;
  }

  lemma HaltAborts(e: Env, l: Lib, homing: bool)
    ensures
      var r := Halt(e, l, homing);
      && l.sent <= r.sent
      && if ActiveChan(l).Some?
         then |r.sent| > |l.sent| && r.sent[|l.sent|].dest == ActiveChan(l).value.axis && r.sent[|l.sent|].op == Abort
         else r.sent == l.sent
  {
    hide ClearLimitSwitchEvent, Brought, MemAfter;
    var m, r := Send(e, l, Abort).0, Halt(e, l, homing);
    assert Talks(m, ClearLimitSwitchEvent(e, m));
    if ActiveChan(l).Some? {
      assert r.sent[|l.sent|] == m.sent[|l.sent|];
    } else { NobodyToTell(m, r); }
  }

  lemma NobodyToTell(l: Lib, r: Lib)
    requires Talks(l, r) && ActiveChan(l) == None
    ensures r.sent == l.sent
  {
    var j := |l.sent|;
    assert j < |r.sent| ==> Addressed(l, r.sent[j].dest);
  }

  /** Natively, in every reachable world with the channel open: the first call a stop makes is an
      ABORT to the drive of the very axis it is for. */
  lemma StopReachesItsDrive(e: Env, n: nat, mem: map<byte, Mem>, cs: seq<Cmd>, i: nat)
    requires
      var w := Run(e, Boot(e, n, mem), cs);
      e.native && w.fd >= 0 && i < n && w.axes[i].configured
    ensures
      var w := Run(e, Boot(e, n, mem), cs);
      var sent := Next(e, w, DoStop(i)).lib.sent;
      && |sent| > |w.lib.sent| && w.lib.sent == sent[..|w.lib.sent|]
      && sent[|w.lib.sent|].dest == w.axes[i].cfg.id && sent[|w.lib.sent|].op == Abort
  {
    hide Run, Boot, Step, Select, Connected;
    var w := Run(e, Boot(e, n, mem), cs);
    AlwaysConnected(e, n, mem, cs);
    LaterConnected(w);
    NativeSelect(e, Later(w), i);
    StopAborts(e, Later(w), i);
  }

  lemma LaterConnected(w: World)
    requires Connected(w)
    ensures Connected(Later(w))
  {
    SameChannelsKeepsOne(w.lib, Tick(w.lib), w.fd);
  }

  // ----- Where a move sends the drive -----

  /** 16.16 fixed point, cut off toward zero, as 32 bits. */
  function Sixteen(x: real): int {
    (if x < 0.0 then -(-x * 65536.0).Floor else (x * 65536.0).Floor) % 0x1_0000_0000
  }

  function Size(x: real): real { if x < 0.0 then -x else x }

  lemma ParameterIs(x: real, otherwise: M.Long)
    ensures M.Value(P.Given(Parameter(x), otherwise))
         == if x == 0.0 then M.Value(otherwise) else Sixteen(Size(x))
  {
  }

  /** A position profile is under way: to this position, at this speed and acceleration, or at
      those noted before where the order gave 0. */
  ghost predicate HeadsFor(d: M.Drive, d': M.Drive, v: M.Vars, goal: int, speed: real, acc: real) {
    && d'.goal == goal && d'.mcr & 0x0400 != 0
    && d'.profile.Some? && d'.profile.value.goal == goal && d'.profile.value.mcr == d'.mcr
    && M.Value(d'.profile.value.speed) == (if speed == 0.0 then M.Value(M.Get32(d, v.cspd)) else Sixteen(Size(speed)))
    && M.Value(d'.profile.value.accel) == (if acc == 0.0 then M.Value(M.Get32(d, v.cacc)) else Sixteen(Size(acc)))
  }

  /** Whatever an honest link repeats: an absolute move that succeeds heads for its position. */
  lemma AbsoluteGoal(s: M.State, vars: VarMap, link: nat -> M.Outcome, pos: int, speed: real, acc: real)
    requires M.HonestLink(link) && s.ok && M.Disjoint(Addresses(vars))
    requires M.Play(s, Addresses(vars), link, ProgramOf(vars, MoveAbs(pos, speed, acc))).ok
    ensures
      var d := M.Play(s, Addresses(vars), link, ProgramOf(vars, MoveAbs(pos, speed, acc))).d;
      HeadsFor(s.d, d, Addresses(vars), pos % 0x1_0000_0000, speed, acc) && d.mcr & 0x2000 != 0
  {
    hide M.Play, P.MoveAbsolute, Addresses, Parameter, M.Value, Sixteen, Size, M.Get32;
    var v := Addresses(vars);
    P.AbsoluteMoveState(s, v, link, pos, Parameter(speed), Parameter(acc));
    ParameterIs(speed, M.Get32(s.d, v.cspd));
    ParameterIs(acc, M.Get32(s.d, v.cacc));
    Bits(s.d.mcr);
  }

  lemma Bits(m: bv16)
    ensures ((m & 0x18C0) | 0xE701) & 0x0400 != 0 && ((m & 0x18C0) | 0xE701) & 0x2000 != 0
    ensures ((m & 0x18C0) | 0xC701) & 0x0400 != 0 && ((m & 0x18C0) | 0xC701) & 0x2000 == 0
    ensures ((m & 0x38C0) | 0x8301) & 0x0400 == 0
  {
  }

  /** A relative one heads for as many increments further as its last frame was run, which is once
      or twice. */
  lemma RelativeGoal(s: M.State, vars: VarMap, link: nat -> M.Outcome, pos: int, speed: real, acc: real)
    requires M.HonestLink(link) && s.ok && M.Disjoint(Addresses(vars))
    requires M.Play(s, Addresses(vars), link, ProgramOf(vars, MoveRel(pos, speed, acc))).ok
    ensures
      var p := ProgramOf(vars, MoveRel(pos, speed, acc));
      var d, runs := M.Play(s, Addresses(vars), link, p).d, link(s.k + |p| - 1).runs;
      && 1 <= runs <= 2
      && HeadsFor(s.d, d, Addresses(vars), (s.d.goal + runs * pos) % 0x1_0000_0000, speed, acc) && d.mcr & 0x2000 == 0
  {
    hide M.Play, P.MoveRelative, Addresses, Parameter, M.Value, Sixteen, Size, M.Get32;
    var v := Addresses(vars);
    P.RelativeMoveState(s, v, link, pos, Parameter(speed), Parameter(acc));
    ParameterIs(speed, M.Get32(s.d, v.cspd));
    ParameterIs(acc, M.Get32(s.d, v.cacc));
    Bits(s.d.mcr);
  }

  /** A velocity move runs at its speed, its sign included, and leaves the goal alone. */
  lemma VelocityGoal(s: M.State, vars: VarMap, link: nat -> M.Outcome, speed: real, acc: real)
    requires M.HonestLink(link) && s.ok && M.Disjoint(Addresses(vars))
    requires M.Play(s, Addresses(vars), link, ProgramOf(vars, MoveVel(speed, acc))).ok
    ensures
      var d := M.Play(s, Addresses(vars), link, ProgramOf(vars, MoveVel(speed, acc))).d;
      && d.goal == s.d.goal && d.mcr & 0x0400 == 0 && d.profile.Some? && d.profile.value.mcr == d.mcr
      && M.Value(d.profile.value.speed) == Sixteen(speed)
      && M.Value(d.profile.value.accel)
         == if acc == 0.0 then M.Value(M.Get32(s.d, Addresses(vars).cacc)) else Sixteen(Size(acc))
  {
    hide M.Play, P.MoveVelocity, Addresses, Parameter, M.Value, M.Get32;
    var v := Addresses(vars);
    P.VelocityMoveState(s, v, link, M.U32(Fixed(speed)), Parameter(acc));
    ParameterIs(acc, M.Get32(s.d, v.cacc));
    Bits(s.d.mcr);
  }

  // ----- From the command to the drive -----

  /** What an order has made of a drive that was in state d. */
  ghost predicate Obeys(c: Cmd, d: M.Drive, d': M.Drive, runs: nat) {
    match c
    case DoMove(_, pos, relative, _, _) =>
      && d'.profile.Some? && d'.profile.value.goal == d'.goal && d'.mcr & 0x0400 != 0
      && d'.goal == (if relative then d.goal + runs * pos else pos) % 0x1_0000_0000
    case DoJog(_, speed, _) =>
      d'.goal == d.goal && d'.profile.Some? && d'.mcr & 0x0400 == 0 && M.Value(d'.profile.value.speed) == Sixteen(speed)
    case DoHome(_, v, velo, _, forwards) =>
      var s := Size(if v == 0.0 then velo else v);
      && d'.goal == d.goal && d'.profile.Some? && d'.mcr & 0x0400 == 0
      && M.Value(d'.profile.value.speed) == Sixteen(if forwards then s else -s)
    case _ => false
  }

  /** Call k, from there on or later, was acknowledged by the drive with this id, and its frames, if
      the link gets them through, make the drive do what c says. */
  ghost predicate Delivered(sent: seq<Call>, from: nat, k: nat, id: byte, c: Cmd, vars: VarMap, s: M.State,
    link: nat -> M.Outcome)
  {
    && from <= k < |sent| && sent[k].dest == id && sent[k].ok && WritesRegisters(sent[k].op)
    && var p := ProgramOf(vars, sent[k].op);
       var t := M.Play(s, Addresses(vars), link, p);
       t.ok && p != [] ==> Obeys(c, s.d, t.d, link(s.k + |p| - 1).runs)
  }

  /** A move, jog or home that reports success: its axis's own drive has acknowledged a call, and
      the frames of that call, if an honest link got them through, sent the drive where the command
      said - whatever state it was in, and whatever addresses its parameters have. */
  lemma OrdersAreObeyed(e: Env, w: World, c: Cmd, vars: VarMap, s: M.State, link: nat -> M.Outcome) returns (k: nat)
    requires (c.DoMove? || c.DoJog? || c.DoHome?) && c.i < |w.axes| && Step(e, w, c).1
    requires M.HonestLink(link) && s.ok && M.Disjoint(Addresses(vars))
    ensures Delivered(Step(e, w, c).0.lib.sent, |w.lib.sent|, k, w.axes[c.i].cfg.id, c, vars, s, link)
  {
    hide Step, M.Play, ProgramOf, Addresses, M.Disjoint, Sixteen, M.Value, M.HonestLink;
    SuccessWasTaken(e, w, c);
    var r, id, op := Step(e, w, c).0.lib, w.axes[c.i].cfg.id, Asked(w, c);
    k :| |w.lib.sent| <= k < |r.sent| && r.sent[k].dest == id && r.sent[k].op == op && r.sent[k].ok;
    if M.Play(s, Addresses(vars), link, ProgramOf(vars, op)).ok {
      match op
      case MoveAbs(pos, speed, acc) => AbsoluteGoal(s, vars, link, pos, speed, acc);
      case MoveRel(pos, speed, acc) => RelativeGoal(s, vars, link, pos, speed, acc);
      case MoveVel(speed, acc) => VelocityGoal(s, vars, link, speed, acc);
    }
  }
}
