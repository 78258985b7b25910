/** From small steps to whole runs.

    Every call on the controller is made of a few kinds of small step: opening a closed
    channel, configuring, initialising in a poll, selecting an axis with its reconnect tiers,
    and talk to the active axis that changes neither the tables nor how any axis is set up.
    What each kind keeps, every run keeps. */
module Lifting {
  import opened Codec
  import opened TmlLib
  import opened Supervisor

  /** How the axis is set up and when it tries again are the same; its motion state and
      published flags may differ. */
  ghost predicate SameSetup(a: Axis, b: Axis) {
    b == a.(polls := b.polls, activated := b.activated, powered := b.powered, motion := b.motion,
            atHome := b.atHome, commsError := b.commsError, active := b.active)
  }

  /** Talk to the active axis, and motion state of axis i. */
  ghost predicate Calm(a: World, b: World, i: nat) {
    && b == a.(lib := b.lib, axes := b.axes)
    && |b.axes| == |a.axes|
    && i < |a.axes|
    && Talks(a.lib, b.lib)
    && (forall j :: 0 <= j < |a.axes| && j != i ==> b.axes[j] == a.axes[j])
    && SameSetup(a.axes[i], b.axes[i])
  }

  ghost predicate KeptByTalk(inv: World -> bool, i: nat) {
    forall a, b :: inv(a) && Calm(a, b, i) ==> inv(b)
  }

  ghost predicate KeptByTick(inv: World -> bool) {
    forall a: World :: inv(a) ==> inv(Later(a))
  }

  ghost predicate KeptByOpening(e: Env, inv: World -> bool) {
    forall a :: inv(a) ==> inv(EnsureChannel(e, a).0)
  }

  ghost predicate KeptBySelecting(e: Env, inv: World -> bool, i: nat) {
    forall a :: inv(a) && i < |a.axes| ==> inv(Select(e, a, i).0)
  }

  ghost predicate KeptByReinit(e: Env, inv: World -> bool) {
    forall a, i :: inv(a) && 0 <= i < |a.axes| ==> inv(PollReinit(e, a, i).0)
  }

  ghost predicate KeptByConfiguring(e: Env, inv: World -> bool) {
    forall a, i, c :: inv(a) && 0 <= i < |a.axes| ==> inv(Configure(e, a, i, c))
  }

  /** The part every command for axis i needs: talking, and selecting that axis. */
  ghost predicate KeptInside(e: Env, inv: World -> bool, i: nat) {
    KeptByTalk(inv, i) && KeptBySelecting(e, inv, i)
  }

  /** Every kind of small step keeps the invariant. */
  ghost predicate Kept(e: Env, inv: World -> bool) {
    && KeptByTick(inv) && KeptByOpening(e, inv)
    && KeptByReinit(e, inv) && KeptByConfiguring(e, inv)
    && (forall i: nat :: KeptInside(e, inv, i))
  }

  lemma Talk(inv: World -> bool, w: World, i: nat, l: Lib, a: Axis)
    requires KeptByTalk(inv, i) && inv(w) && i < |w.axes| && Talks(w.lib, l) && SameSetup(w.axes[i], a)
    ensures inv(Talked(w, i, l, a))
  {
    assert Calm(w, Talked(w, i, l, a), i);
  }

  lemma TalkOnly(inv: World -> bool, w: World, i: nat, l: Lib)
    requires KeptByTalk(inv, i) && inv(w) && i < |w.axes| && Talks(w.lib, l)
    ensures inv(w.(lib := l))
  {
    Talk(inv, w, i, l, w.axes[i]);
    assert Talked(w, i, l, w.axes[i]) == w.(lib := l);
  }

  lemma Selecting(e: Env, inv: World -> bool, w: World, i: nat)
    requires KeptBySelecting(e, inv, i) && inv(w) && i < |w.axes|
    ensures inv(Select(e, w, i).0)
  {
  }

  // Every command starts by selecting its axis. So it is enough that the invariant holds
  // once that has been done - unless the command ends before it, changing nothing.

  lemma PowerOnKeeps(e: Env, inv: World -> bool, w: World, i: nat)
    requires KeptInside(e, inv, i) && i < |w.axes| && inv(Select(e, w, i).0)
    ensures inv(PowerOn(e, w, i).0) || PowerOn(e, w, i).0 == w
  {
    hide Select, SwitchOn, KeptByTalk, KeptBySelecting, Talks, Talked;
    var (w1, ok) := Select(e, w, i);
    if !w.axes[i].powered && ok {
      var (l, on) := SwitchOn(e, w1.lib);
      Talk(inv, w1, i, l, if on then Powered(w1.axes[i]) else w1.axes[i]);
    }
  }

  lemma PowerOffKeeps(e: Env, inv: World -> bool, w: World, i: nat)
    requires KeptInside(e, inv, i) && i < |w.axes| && inv(Select(e, w, i).0)
    ensures inv(PowerOff(e, w, i).0) || PowerOff(e, w, i).0 == w
  {
    hide Select, Send, KeptByTalk, KeptBySelecting, Talks, Talked;
    var (w1, ok) := Select(e, w, i);
    if w.axes[i].powered && ok {
      Talk(inv, w1, i, Send(e, w1.lib, AxisOff).0, Depowered(w1.axes[i]));
    }
  }

  lemma ReadyKeeps(e: Env, inv: World -> bool, w: World, i: nat)
    requires KeptInside(e, inv, i) && i < |w.axes| && inv(Select(e, w, i).0)
    ensures inv(Ready(e, w, i).0) || (Ready(e, w, i).0 == w && !Ready(e, w, i).1)
  {
    hide Select, PowerOn, KeptByTalk, KeptBySelecting;
    var w1 := Select(e, w, i).0;
    Selecting(e, inv, w1, i);
    PowerOnKeeps(e, inv, w1, i);
  }

  lemma MoveKeeps(e: Env, inv: World -> bool, w: World, i: nat, pos: int, relative: bool, speed: real, acc: real)
    requires KeptInside(e, inv, i) && i < |w.axes| && inv(Select(e, w, i).0)
    ensures inv(Move(e, w, i, pos, relative, speed, acc).0) || Move(e, w, i, pos, relative, speed, acc).0 == w
  {
    hide Ready, LaunchMove, KeptByTalk, KeptBySelecting, Talks, Talked;
    var (w1, ready) := Ready(e, w, i);
    ReadyKeeps(e, inv, w, i);
    if ready {
      var a := Released(w1.axes[i]);
      var (l, ok) := LaunchMove(e, w1.lib, MoveOp(pos, relative, speed, acc));
      Talk(inv, w1, i, l, if ok then Started(a) else a);
    }
  }

  lemma JogKeeps(e: Env, inv: World -> bool, w: World, i: nat, speed: real, acc: real)
    requires KeptInside(e, inv, i) && i < |w.axes| && inv(Select(e, w, i).0)
    ensures inv(MoveVelocity(e, w, i, speed, acc).0) || MoveVelocity(e, w, i, speed, acc).0 == w
  {
    hide Ready, Launch, KeptByTalk, KeptBySelecting, Talks, Talked;
    var (w1, ready) := Ready(e, w, i);
    ReadyKeeps(e, inv, w, i);
    if ready {
      var a := Released(w1.axes[i]);
      var (l, ok) := Launch(e, w1.lib, MoveVel(speed, acc));
      Talk(inv, w1, i, l, if ok then Started(a) else a);
    }
  }

  lemma HomeKeeps(e: Env, inv: World -> bool, w: World, i: nat, maxVelocity: real, velo: real, acc: real,
    forwards: bool)
    requires KeptInside(e, inv, i) && i < |w.axes| && inv(Select(e, w, i).0)
    ensures inv(Home(e, w, i, maxVelocity, velo, acc, forwards).0)
      || Home(e, w, i, maxVelocity, velo, acc, forwards).0 == w
  {
    hide Ready, LaunchHome, HomeMove, KeptByTalk, KeptBySelecting, Talks, Talked;
    var (w1, ready) := Ready(e, w, i);
    ReadyKeeps(e, inv, w, i);
    if ready {
      var (l, ok) := LaunchHome(e, w1.lib, HomeMove(maxVelocity, velo, acc, forwards), forwards);
      Talk(inv, w1, i, l, if ok then HomingStarted(w1.axes[i], forwards) else w1.axes[i]);
    }
  }

  lemma ZeroKeeps(e: Env, inv: World -> bool, w: World, i: nat)
    requires KeptInside(e, inv, i) && i < |w.axes| && inv(Select(e, w, i).0)
    ensures inv(ZeroAtHome(e, w, i))
  {
    hide Select, ZeroPosition, KeptByTalk, KeptBySelecting, Talks, Talked;
    var w1 := Select(e, w, i).0;
    Talk(inv, w1, i, ZeroPosition(e, w1.lib), AtHome(w1.axes[i]));
  }

  lemma ForceHomeKeeps(e: Env, inv: World -> bool, w: World, i: nat, velo: real, accl: real)
    requires KeptInside(e, inv, i) && i < |w.axes| && inv(Select(e, w, i).0)
    ensures inv(ForceHome(e, w, i, velo, accl).0) || ForceHome(e, w, i, velo, accl).0 == w
  {
    hide Select, GetVar, ZeroAtHome, Home, KeptByTalk, KeptBySelecting, Talks, LimitBit;
    var w1 := Select(e, w, i).0;
    var w2 := w1.(lib := GetVar(e, w1.lib, "MER").0);
    TalkOnly(inv, w1, i, w2.lib);
    Selecting(e, inv, w2, i);
    ZeroKeeps(e, inv, w2, i);
    HomeKeeps(e, inv, w2, i, if velo > 0.0 then velo else 40.0, velo, if accl > 0.0 then accl else 1.0,
      w.axes[i].cfg.useLsp);
  }

  lemma StopKeeps(e: Env, inv: World -> bool, w: World, i: nat)
    requires KeptInside(e, inv, i) && i < |w.axes| && inv(Select(e, w, i).0)
    ensures inv(Stop(e, w, i).0) || Stop(e, w, i).0 == w
  {
    hide Select, Halt, KeptByTalk, KeptBySelecting, Talks, Talked;
    var w1 := Select(e, w, i).0;
    Talk(inv, w1, i, Halt(e, w1.lib, w1.axes[i].motion.homing), Halted(w1.axes[i]));
  }

  lemma SetPositionKeeps(e: Env, inv: World -> bool, w: World, i: nat, pos: int)
    requires KeptInside(e, inv, i) && i < |w.axes| && inv(Select(e, w, i).0)
    ensures inv(SetPosition(e, w, i, pos).0) || SetPosition(e, w, i, pos).0 == w
  {
    hide Select, Send, KeptByTalk, KeptBySelecting, Talks;
    var w1 := Select(e, w, i).0;
    TalkOnly(inv, w1, i, Send(e, w1.lib, Sap(pos)).0);
  }

  lemma ParamKeeps(e: Env, inv: World -> bool, w: World, i: nat, p: Param)
    requires KeptInside(e, inv, i) && i < |w.axes| && inv(Select(e, w, i).0)
    ensures inv(WriteParam(e, w, i, p).0)
  {
    hide Select, Carry, KeptByTalk, KeptBySelecting, Talks;
    var w1 := Select(e, w, i).0;
    TalkOnly(inv, w1, i, Carry(e, w1.lib, p).0);
  }

  lemma TalksNot(l: Lib)
    ensures Talks(l, l)
  {
  }

  lemma OnlyObserved(a: Axis, r: Readings)
    ensures SameSetup(a, Observed(a, r)) && SameSetup(a, SelectLost(a))
  {
  }

  lemma ObserveKeeps(e: Env, inv: World -> bool, w: World, i: nat)
    requires KeptInside(e, inv, i) && i < |w.axes| && inv(Select(e, w, i).0)
    ensures inv(Observe(e, w, i).0)
  {
    hide Select, ReadStatus, Reached, ZeroAtHome, Observed, SelectLost, SameSetup, KeptByTalk, KeptBySelecting, Talks,
      Talked;
    var (w1, ok) := Select(e, w, i);
    if !ok {
      TalksNot(w1.lib);
      OnlyObserved(w1.axes[i], Readings(false, 0, 0));
      Talk(inv, w1, i, w1.lib, SelectLost(w1.axes[i]));
      TalkedNot(w1, i, SelectLost(w1.axes[i]));
    } else {
      var (l, r) := ReadStatus(e, w1.lib, w1.axes[i].polls);
      var a := Observed(w1.axes[i], r);
      OnlyObserved(w1.axes[i], r);
      Talk(inv, w1, i, l, a);
      if r.ok && Reached(a.motion, r.mer) {
        Selecting(e, inv, Talked(w1, i, l, a), i);
        ZeroKeeps(e, inv, Talked(w1, i, l, a), i);
      }
    }
  }

  lemma ObserveAfter(e: Env, inv: World -> bool, w: World, i: nat)
    requires KeptInside(e, inv, i) && inv(w) && i < |w.axes|
    ensures inv(Observe(e, w, i).0)
  {
    hide Observe, Select, KeptByTalk, KeptBySelecting;
    Selecting(e, inv, w, i);
    ObserveKeeps(e, inv, w, i);
  }

  lemma TalkedNot(w: World, i: nat, a: Axis)
    requires i < |w.axes|
    ensures Talked(w, i, w.lib, a) == With(w, i, a)
  {
  }

  lemma PollKeeps(e: Env, inv: World -> bool, w: World, i: nat)
    requires KeptByReinit(e, inv) && KeptInside(e, inv, i) && inv(w) && i < |w.axes|
    ensures inv(Poll(e, w, i).0)
  {
    hide PollReinit, Observe, KeptByTalk, KeptBySelecting;
    var (w1, go) := PollReinit(e, w, i);
    if go { ObserveAfter(e, inv, w1, i); }
  }

  lemma ClosedLoopKeeps(e: Env, inv: World -> bool, w: World, i: nat, on: bool)
    requires KeptInside(e, inv, i) && i < |w.axes| && inv(Select(e, w, i).0)
    ensures inv(SetClosedLoop(e, w, i, on).0) || SetClosedLoop(e, w, i, on).0 == w
  {
    hide PowerOn, PowerOff, Select, KeptByTalk, KeptBySelecting;
    if on { PowerOnKeeps(e, inv, w, i); } else { PowerOffKeeps(e, inv, w, i); }
  }

  lemma Inside(e: Env, inv: World -> bool, i: nat)
    requires Kept(e, inv)
    ensures KeptInside(e, inv, i) && KeptByReinit(e, inv)
  {
    hide KeptInside, KeptByTick, KeptByOpening, KeptByConfiguring, KeptByReinit;
  }

  lemma Opening(e: Env, inv: World -> bool, w: World)
    requires Kept(e, inv) && inv(w)
    ensures inv(EnsureChannel(e, w).0)
  {
    hide EnsureChannel;
  }

  lemma Configuring(e: Env, inv: World -> bool, w: World, i: nat, c: Config)
    requires Kept(e, inv) && inv(w) && i < |w.axes|
    ensures inv(Configure(e, w, i, c))
  {
    hide Configure;
  }

  lemma Ticking(e: Env, inv: World -> bool, w: World)
    requires Kept(e, inv) && inv(w)
    ensures inv(Later(w))
  {
  }

  /** Commands for an axis that is configured: all but polls and configuring. */
  predicate IsCommand(c: Cmd) { !c.CtrlPoll? && !c.DoPoll? && !c.DoConfigure? }

  lemma CommandBegins(e: Env, inv: World -> bool, w: World, c: Cmd)
    requires IsCommand(c) && c.i < |w.axes| && KeptInside(e, inv, c.i) && inv(Select(e, w, c.i).0)
    ensures inv(Step(e, w, c).0) || Step(e, w, c).0 == w
  {
    hide EnsureChannel, Poll, Configure, Move, MoveVelocity, Home, ForceHome, Stop, SetPosition,
      SetClosedLoop, WriteParam, KeptInside, Select;
    match c
    case DoMove(i, pos, relative, speed, acc) => MoveKeeps(e, inv, w, i, pos, relative, speed, acc);
    case DoJog(i, speed, acc) => JogKeeps(e, inv, w, i, speed, acc);
    case DoHome(i, v, velo, acc, forwards) => HomeKeeps(e, inv, w, i, v, velo, acc, forwards);
    case DoForceHome(i, velo, accl) => ForceHomeKeeps(e, inv, w, i, velo, accl);
    case DoStop(i) => StopKeeps(e, inv, w, i);
    case DoSetPosition(i, pos) => SetPositionKeeps(e, inv, w, i, pos);
    case DoClosedLoop(i, on) => ClosedLoopKeeps(e, inv, w, i, on);
    case DoParam(i, p) => ParamKeeps(e, inv, w, i, p);
  }

  lemma CommandKeeps(e: Env, inv: World -> bool, w: World, c: Cmd)
    requires IsCommand(c) && KeptInside(e, inv, c.i) && inv(w)
    ensures inv(Step(e, w, c).0)
  {
    hide EnsureChannel, Poll, Configure, Move, MoveVelocity, Home, ForceHome, Stop, SetPosition,
      SetClosedLoop, WriteParam, Select, KeptByTalk, KeptBySelecting;
    if c.i < |w.axes| {
      Selecting(e, inv, w, c.i);
      CommandBegins(e, inv, w, c);
    }
  }

  lemma StepKeeps(e: Env, inv: World -> bool, w: World, c: Cmd)
    requires Kept(e, inv) && inv(w)
    ensures inv(Step(e, w, c).0)
  {
    hide EnsureChannel, Poll, Configure, Move, MoveVelocity, Home, ForceHome, Stop, SetPosition,
      SetClosedLoop, WriteParam, Kept, KeptInside, KeptByReinit;
    if !c.CtrlPoll? { Inside(e, inv, c.i); }
    match c
    case CtrlPoll => Opening(e, inv, w);
    case DoPoll(i) => if i < |w.axes| { PollKeeps(e, inv, w, i); }
    case DoConfigure(i, cfg) => if i < |w.axes| { Configuring(e, inv, w, i, cfg); }
    case _ => CommandKeeps(e, inv, w, c);
  }

  lemma NextKeeps(e: Env, inv: World -> bool, w: World, c: Cmd)
    requires Kept(e, inv) && inv(w)
    ensures inv(Next(e, w, c))
  {
    hide Step, Kept;
    Ticking(e, inv, w);
    StepKeeps(e, inv, Later(w), c);
  }

  /** What every small step keeps holds in every world a run reaches. */
  lemma {:induction false} RunKeeps(e: Env, inv: World -> bool, w: World, cs: seq<Cmd>)
    requires Kept(e, inv) && inv(w)
    ensures inv(Run(e, w, cs))
    decreases |cs|
  {
    hide Next, Kept;
    if cs != [] {
      RunKeeps(e, inv, w, cs[..|cs| - 1]);
      NextKeeps(e, inv, Run(e, w, cs[..|cs| - 1]), cs[|cs| - 1]);
    }
  }
}
