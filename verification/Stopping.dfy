/** The published motion flags, and the latch that a stop sets. */
module Stopping {
  import opened Codec
  import opened Masks
  import opened TmlLib
  import opened Supervisor
  import opened AxisEffects
  import opened AxisMotion
  import opened AxisOutcomes

  /** Never both done and moving; nothing homes that is stopping or counts as homed; and as
      long as the stop latch is set, the axis is shown as done. */
  predicate Sane(p: Motion) {
    && !(p.done && p.moving)
    && (p.homing ==> !p.stopping && !p.homed)
    && (p.stopping ==> p.done && !p.moving)
  }

  lemma DriftSane(p: Motion, q: Motion, reopened: bool)
    requires Sane(p) && Drift(p, q, reopened)
    ensures Sane(q)
  {
  }

  lemma QuietSane(w: World, x: World, i: nat)
    requires Quiet(w, x, i) && Sane(M(w.axes[i]))
    ensures i < |x.axes| && Sane(M(x.axes[i]))
  {
    hide M, SameIdentity;
    DriftSane(M(w.axes[i]), M(x.axes[i]), Reopened(w.lib, x.lib));
  }

  lemma SeenSane(p: Motion, srl: word)
    requires Sane(p)
    ensures Sane(Seen(p, srl)) && Sane(Seen(p, srl).(homing := false, homed := true))
  {
    hide MotionComplete, AxisIsOn;
  }

  lemma PollSane(w: World, x: World, i: nat, moving: bool)
    requires PollOutcome(w, x, i, moving) && i < |w.axes| && Sane(M(w.axes[i]))
    ensures i < |x.axes| && Sane(M(x.axes[i]))
  {
    hide M, SameIdentity, Seen, Reached, Sane, WasRead;
    if Quiet(w, x, i) { QuietSane(w, x, i); }
    else {
      var p1, srl, mer :| Published(w.lib, x.lib, M(w.axes[i]), M(x.axes[i]), moving, p1, srl, mer);
      DriftSane(M(w.axes[i]), p1, Reopened(w.lib, x.lib));
      SeenSane(p1, srl);
      if Reached(Seen(p1, srl), mer) {
        DriftSane(Seen(p1, srl).(homing := false, homed := true), M(x.axes[i]), Reopened(w.lib, x.lib));
      }
    }
  }

  lemma MoveSane(w: World, x: World, i: nat, ok: bool)
    requires MoveOutcome(w, x, i, ok) && i < |w.axes| && Sane(M(w.axes[i]))
    ensures i < |x.axes| && Sane(M(x.axes[i]))
  {
    hide M, SameIdentity, MoveSent;
    if Quiet(w, x, i) { QuietSane(w, x, i); }
  }

  lemma HomeSane(w: World, x: World, i: nat, forwards: bool, ok: bool)
    requires HomeOutcome(w, x, i, forwards, ok) && i < |w.axes| && Sane(M(w.axes[i]))
    ensures i < |x.axes| && Sane(M(x.axes[i]))
  {
    hide M, SameIdentity, MoveSent;
    if !ok { QuietSane(w, x, i); }
  }

  lemma ZeroSane(w: World, x: World, i: nat)
    requires ZeroOutcome(w, x, i) && i < |w.axes| && Sane(M(w.axes[i]))
    ensures i < |x.axes| && Sane(M(x.axes[i]))
  {
    hide M, SameIdentity;
  }

  lemma StepSane(e: Env, w: World, c: Cmd, j: nat)
    requires j < |w.axes| && Sane(M(w.axes[j]))
    ensures Sane(M(Step(e, w, c).0.axes[j]))
  {
    hide M, SameIdentity, Sane, EnsureChannel, Poll, Configure, Move, MoveVelocity, Home, ForceHome, Stop, SetPosition,
      SetClosedLoop, WriteParam, Quiet, PollOutcome, MoveOutcome, HomeOutcome, ZeroOutcome;
    if c.CtrlPoll? || c.i != j {
      Bystander(e, w, c, j);
      QuietSane(w, Step(e, w, c).0, j);
    } else {
      match c
      case DoPoll(i) =>
        PollPolls(e, w, i);
        PollSane(w, Poll(e, w, i).0, i, Poll(e, w, i).1);
      case DoConfigure(i, cfg) => ConfigureOutcome(e, w, i, cfg);
      case DoMove(i, pos, relative, speed, acc) =>
        MoveMoves(e, w, i, pos, relative, speed, acc);
        MoveSane(w, Move(e, w, i, pos, relative, speed, acc).0, i, Move(e, w, i, pos, relative, speed, acc).1);
      case DoJog(i, speed, acc) =>
        JogMoves(e, w, i, speed, acc);
        MoveSane(w, MoveVelocity(e, w, i, speed, acc).0, i, MoveVelocity(e, w, i, speed, acc).1);
      case DoHome(i, v, velo, acc, forwards) =>
        HomeHomes(e, w, i, v, velo, acc, forwards);
        HomeSane(w, Home(e, w, i, v, velo, acc, forwards).0, i, forwards, Home(e, w, i, v, velo, acc, forwards).1);
      case DoForceHome(i, velo, accl) => ForceHomeSane(e, w, i, velo, accl);
      case DoStop(i) => StopSane(e, w, i);
      case DoSetPosition(i, pos) =>
        SetPositionQuiet(e, w, i, pos);
        QuietSane(w, SetPosition(e, w, i, pos).0, i);
      case DoClosedLoop(i, on) =>
        ClosedLoopQuiet(e, w, i, on);
        QuietSane(w, SetClosedLoop(e, w, i, on).0, i);
      case DoParam(i, p) =>
        ParamQuiet(e, w, i, p);
        QuietSane(w, WriteParam(e, w, i, p).0, i);
    }
  }

  lemma ForceHomeSane(e: Env, w: World, i: nat, velo: real, accl: real)
    requires i < |w.axes| && Sane(M(w.axes[i]))
    ensures Sane(M(ForceHome(e, w, i, velo, accl).0.axes[i]))
  {
    hide M, Sane, ForceHome, HomeOutcome, ZeroOutcome, SwitchRead;
    ForceHomeHomes(e, w, i, velo, accl);
    var (x, ok) := ForceHome(e, w, i, velo, accl);
    if HomeOutcome(w, x, i, w.axes[i].cfg.useLsp, ok) { HomeSane(w, x, i, w.axes[i].cfg.useLsp, ok); }
    else { ZeroSane(w, x, i); }
  }

  lemma StopSane(e: Env, w: World, i: nat)
    requires i < |w.axes| && Sane(M(w.axes[i]))
    ensures Sane(M(Stop(e, w, i).0.axes[i]))
  {
    hide M, Select, Halt, Halted;
    if w.axes[i].configured { StopStops(e, w, i); }
  }

  ghost predicate AllSane(w: World) {
    forall j :: 0 <= j < |w.axes| ==> Sane(M(w.axes[j]))
  }

  lemma NextSane(e: Env, w: World, c: Cmd)
    requires AllSane(w)
    ensures AllSane(Next(e, w, c))
  {
    hide Step, Sane, M;
    forall j | 0 <= j < |w.axes| ensures Sane(M(Next(e, w, c).axes[j])) {
      StepSane(e, Later(w), c, j);
    }
  }

  lemma {:induction false} RunSane(e: Env, w: World, cs: seq<Cmd>)
    requires AllSane(w)
    ensures AllSane(Run(e, w, cs))
    decreases |cs|
  {
    hide Next, AllSane;
    if cs != [] {
      RunSane(e, w, cs[..|cs| - 1]);
      NextSane(e, Run(e, w, cs[..|cs| - 1]), cs[|cs| - 1]);
    }
  }

  /** In no run is an axis ever shown as done and moving at once. */
  lemma NeverDoneAndMoving(e: Env, n: nat, mem: map<byte, Mem>, cs: seq<Cmd>)
    ensures
      var w := Run(e, Boot(e, n, mem), cs);
      && AllSane(w)
      && forall j :: 0 <= j < |w.axes| ==> !(w.axes[j].motion.done && w.axes[j].motion.moving)
  {
    hide OpenChannel, EmptyLib, Run;
    RunSane(e, Boot(e, n, mem), cs);
    assert forall j :: 0 <= j < |Run(e, Boot(e, n, mem), cs).axes| ==> Sane(M(Run(e, Boot(e, n, mem), cs).axes[j]));
  }

  // ----- The latch -----

  /** What ends a stop: the channel is reopened and the axes are flagged or set up again on it -
      a reconnect given up half way does neither -, a motion command for the axis gets past
      power-on, or a poll of the axis reads motion complete from the drive. */
  ghost predicate Releases(e: Env, w: World, c: Cmd, i: nat) {
    var r := Next(e, w, c).lib;
    || Reopened(w.lib, r)
    || ((c.DoMove? || c.DoJog? || c.DoHome? || c.DoForceHome?) && c.i == i && MoveSent(w.lib, r))
    || (c == DoPoll(i) && exists srl :: MotionComplete(srl) && WasRead(w.lib, r, "SRL", srl))
  }

  lemma QuietLatched(w: World, x: World, i: nat)
    requires Quiet(w, x, i) && M(w.axes[i]).stopping && !Reopened(w.lib, x.lib)
    ensures i < |x.axes| && M(x.axes[i]).stopping
  {
    hide SameIdentity;
  }

  lemma PollLatched(w: World, x: World, i: nat, moving: bool)
    requires PollOutcome(w, x, i, moving) && i < |w.axes| && Sane(M(w.axes[i])) && M(w.axes[i]).stopping
    requires !Reopened(w.lib, x.lib) && !exists srl :: MotionComplete(srl) && WasRead(w.lib, x.lib, "SRL", srl)
    ensures i < |x.axes| && M(x.axes[i]).stopping && !moving
  {
    hide M, SameIdentity, WasRead, MotionComplete, AxisIsOn, LimitBit;
    if p1, srl, mer :| Published(w.lib, x.lib, M(w.axes[i]), M(x.axes[i]), moving, p1, srl, mer) {
      assert WasRead(w.lib, x.lib, "SRL", srl);
    } else { QuietLatched(w, x, i); }
  }

  /** Without such an event the latch holds, the axis stays shown as done, and a poll of it
      reports no motion - also where the poll fails or only tries to initialise the axis. */
  lemma LatchHolds(e: Env, w: World, c: Cmd, i: nat)
    requires i < |w.axes| && Sane(M(w.axes[i])) && M(w.axes[i]).stopping && !Releases(e, w, c, i)
    ensures M(Next(e, w, c).axes[i]).stopping
    ensures c == DoPoll(i) ==> !Step(e, Later(w), c).1
  {
    hide M, SameIdentity, Sane, EnsureChannel, Poll, Configure, Move, MoveVelocity, Home, ForceHome, Stop, SetPosition,
      SetClosedLoop, WriteParam, Quiet, PollOutcome, MoveOutcome, HomeOutcome, ZeroOutcome, MoveSent, WasRead,
      MotionComplete;
    var w1 := Later(w);
    var x := Next(e, w, c);
    SameLog(w, x.lib);
    if c.CtrlPoll? || c.i != i {
      Bystander(e, w1, c, i);
      QuietLatched(w1, x, i);
    } else {
      match c
      case DoPoll(i) =>
        PollPolls(e, w1, i);
        PollLatched(w1, x, i, Poll(e, w1, i).1);
      case DoConfigure(i, cfg) => ConfigureOutcome(e, w1, i, cfg);
      case DoMove(i, pos, relative, speed, acc) =>
        MoveMoves(e, w1, i, pos, relative, speed, acc);
        UnmovedLatched(w1, x, i, Move(e, w1, i, pos, relative, speed, acc).1);
      case DoJog(i, speed, acc) =>
        JogMoves(e, w1, i, speed, acc);
        UnmovedLatched(w1, x, i, MoveVelocity(e, w1, i, speed, acc).1);
      case DoHome(i, v, velo, acc, forwards) =>
        HomeHomes(e, w1, i, v, velo, acc, forwards);
        UnhomedLatched(w1, x, i, forwards, Home(e, w1, i, v, velo, acc, forwards).1);
      case DoForceHome(i, velo, accl) =>
        ForceHomeHomes(e, w1, i, velo, accl);
        ForcedLatched(w1, x, i, ForceHome(e, w1, i, velo, accl).1);
      case DoStop(i) => StopLatches(e, w1, i);
      case DoSetPosition(i, pos) =>
        SetPositionQuiet(e, w1, i, pos);
        QuietLatched(w1, x, i);
      case DoClosedLoop(i, on) =>
        ClosedLoopQuiet(e, w1, i, on);
        QuietLatched(w1, x, i);
      case DoParam(i, p) =>
        ParamQuiet(e, w1, i, p);
        QuietLatched(w1, x, i);
    }
  }

  lemma SameLog(w: World, r: Lib)
    ensures
      var l := Tick(w.lib);
      && Reopened(l, r) == Reopened(w.lib, r) && MoveSent(l, r) == MoveSent(w.lib, r)
      && forall name, v :: WasRead(l, r, name, v) == WasRead(w.lib, r, name, v)
  {
  }

  lemma UnmovedLatched(w: World, x: World, i: nat, ok: bool)
    requires MoveOutcome(w, x, i, ok) && i < |w.axes| && M(w.axes[i]).stopping
    requires !Reopened(w.lib, x.lib) && !MoveSent(w.lib, x.lib)
    ensures i < |x.axes| && M(x.axes[i]).stopping
  {
    hide M, MoveSent, SameIdentity;
    QuietLatched(w, x, i);
  }

  lemma UnhomedLatched(w: World, x: World, i: nat, forwards: bool, ok: bool)
    requires HomeOutcome(w, x, i, forwards, ok) && i < |w.axes| && M(w.axes[i]).stopping
    requires !Reopened(w.lib, x.lib) && !MoveSent(w.lib, x.lib)
    ensures i < |x.axes| && M(x.axes[i]).stopping
  {
    hide M, MoveSent, SameIdentity;
    QuietLatched(w, x, i);
  }

  lemma ForcedLatched(w: World, x: World, i: nat, ok: bool)
    requires i < |w.axes| && M(w.axes[i]).stopping
    requires HomeOutcome(w, x, i, w.axes[i].cfg.useLsp, ok) || ZeroOutcome(w, x, i)
    requires !Reopened(w.lib, x.lib) && !MoveSent(w.lib, x.lib)
    ensures i < |x.axes| && M(x.axes[i]).stopping
  {
    hide M, MoveSent, SameIdentity;
    if HomeOutcome(w, x, i, w.axes[i].cfg.useLsp, ok) { UnhomedLatched(w, x, i, w.axes[i].cfg.useLsp, ok); }
  }

  lemma StopLatches(e: Env, w: World, i: nat)
    requires i < |w.axes| && (w.axes[i].configured || M(w.axes[i]).stopping)
    ensures M(Stop(e, w, i).0.axes[i]).stopping
  {
    hide M, Select, Halt, Halted;
    if w.axes[i].configured { StopStops(e, w, i); }
  }

  ghost predicate NeverReleased(e: Env, w: World, cs: seq<Cmd>, i: nat) {
    forall k :: 0 <= k < |cs| ==> !Releases(e, Run(e, w, cs[..k]), cs[k], i)
  }

  lemma {:induction false} LatchHoldsOn(e: Env, w: World, cs: seq<Cmd>, i: nat)
    requires i < |w.axes| && AllSane(w) && M(w.axes[i]).stopping && NeverReleased(e, w, cs, i)
    ensures AllSane(Run(e, w, cs)) && M(Run(e, w, cs).axes[i]).stopping
    decreases |cs|
  {
    hide Next, Step, Releases, Sane, M;
    if cs != [] {
      var rest := cs[..|cs| - 1];
      assert forall k :: 0 <= k < |rest| ==> rest[..k] == cs[..k] && rest[k] == cs[k];
      LatchHoldsOn(e, w, rest, i);
      assert !Releases(e, Run(e, w, rest), cs[|rest|], i);
      LatchHolds(e, Run(e, w, rest), cs[|rest|], i);
      NextSane(e, Run(e, w, rest), cs[|rest|]);
    }
  }

  lemma LatchedPolls(e: Env, w: World, cs: seq<Cmd>, i: nat, k: nat)
    requires i < |w.axes| && AllSane(w) && M(w.axes[i]).stopping && NeverReleased(e, w, cs, i)
    requires k < |cs| && cs[k] == DoPoll(i)
    ensures !Step(e, Later(Run(e, w, cs[..k])), cs[k]).1
  {
    hide Next, Step, Run, Releases, Poll, Sane, M;
    assert forall m :: 0 <= m < k ==> cs[..k][..m] == cs[..m];
    LatchHoldsOn(e, w, cs[..k], i);
    LatchHolds(e, Run(e, w, cs[..k]), cs[k], i);
  }

  /** From a stop until it is released, the axis is shown as done and not moving after every
      call, and every poll of it reports no motion. */
  lemma StoppedUntilReleased(e: Env, w: World, cs: seq<Cmd>, i: nat)
    requires i < |w.axes| && w.axes[i].configured && AllSane(w)
    requires NeverReleased(e, Next(e, w, DoStop(i)), cs, i)
    ensures
      var v := Next(e, w, DoStop(i));
      && Run(e, v, cs).axes[i].motion.done && !Run(e, v, cs).axes[i].motion.moving
      && forall k :: 0 <= k < |cs| && cs[k] == DoPoll(i) ==> !Step(e, Later(Run(e, v, cs[..k])), cs[k]).1
  {
    hide Next, Step, Run, Releases, NeverReleased;
    var v := Next(e, w, DoStop(i));
    NextSane(e, w, DoStop(i));
    StopIsLatched(e, w, i);
    LatchHoldsOn(e, v, cs, i);
    forall k | 0 <= k < |cs| && cs[k] == DoPoll(i) ensures !Step(e, Later(Run(e, v, cs[..k])), cs[k]).1 {
      LatchedPolls(e, v, cs, i, k);
    }
    assert Sane(M(Run(e, v, cs).axes[i]));
  }


  lemma StopIsLatched(e: Env, w: World, i: nat)
    requires i < |w.axes| && w.axes[i].configured
    ensures M(Next(e, w, DoStop(i)).axes[i]).stopping
  {
    hide Stop, M;
    StopLatches(e, Later(w), i);
  }
}
