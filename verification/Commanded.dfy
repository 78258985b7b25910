/** What a call can make a drive do, and what its success means. */
module Commanded {
  import opened Codec
  import opened Masks
  import opened TmlLib
  import opened Supervisor
  import opened Wire
  import opened AxisEffects
  import opened AxisMotion

  // ----- Which calls may be made -----

  /** What initialising an axis sends; with some luck, selecting it comes to that too. */
  predicate Initialises(op: Op) {
    op == EndInit || op.Read? || (op.Write? && (op.name == "SCR" || op.name == "MER_MASK" || op.name == "MER"))
  }

  /** The velocity move of a home: at the speed and acceleration given, or at the fallbacks for
      a 0, in the direction asked for. */
  predicate Homes(op: Op, maxVelocity: real, velo: real, acc: real, forwards: bool) {
    var v, a := if maxVelocity == 0.0 then velo else maxVelocity, if acc == 0.0 then 1.0 else acc;
    && op.MoveVel? && (op.acc == a || op.acc == -a) && op.acc >= 0.0
    && (op.speed == v || op.speed == -v) && (if forwards then op.speed >= 0.0 else op.speed <= 0.0)
  }

  /** What each call may send apart from that; `lsp` says which limit the axis homes to. */
  predicate May(c: Cmd, lsp: bool, op: Op) {
    match c
    case CtrlPoll => false
    case DoPoll(_) => op == Sap(0)
    case DoConfigure(_, _) => false
    case DoMove(_, pos, relative, speed, acc) =>
      || op == AxisOn || (op.Write? && op.name == "SRL_MASK" && op.val / 0x400 % 2 == 1)
      || op == if relative then MoveRel(pos, speed, acc) else MoveAbs(pos, speed, acc)
    case DoJog(_, speed, acc) => op == AxisOn || op == MoveVel(speed, acc)
    case DoHome(_, v, velo, acc, forwards) => op == AxisOn || Homes(op, v, velo, acc, forwards)
    case DoForceHome(_, velo, accl) =>
      || op == AxisOn || op == Sap(0)
      || Homes(op, if velo > 0.0 then velo else 40.0, velo, if accl > 0.0 then accl else 1.0, lsp)
    case DoStop(_) => op == Abort
    case DoSetPosition(_, pos) => op == Sap(pos)
    case DoClosedLoop(_, on) => op == if on then AxisOn else AxisOff
    case DoParam(_, ResetFaultParam) => op == Write("MER", 0)
    case DoParam(_, SaveEepromParam) => false
    case DoParam(_, ResetDriveParam) => op == Reset
    case DoParam(_, ClearEncoderParam) => op == WriteLong("APOS", 0)
    case DoParam(_, ClearStepsParam) => op == WriteLong("TPOS", 0)
  }

  ghost function MayOf(c: Cmd, lsp: bool): Op -> bool { (op: Op) => Initialises(op) || May(c, lsp, op) }

  lemma InitsOf(c: Cmd, lsp: bool)
    ensures Inits(MayOf(c, lsp))
  {
    hide May;
  }

  lemma CompletesMove(c: Cmd, lsp: bool)
    requires c.DoMove?
    ensures forall m: word :: MayOf(c, lsp)(Write("SRL_MASK", WithComplete(m)))
  {
    forall m: word ensures WithComplete(m) / 0x400 % 2 == 1 {}
  }

  lemma HomeMoveHomes(maxVelocity: real, velo: real, acc: real, forwards: bool)
    ensures Homes(HomeMove(maxVelocity, velo, acc, forwards), maxVelocity, velo, acc, forwards)
  {
  }

  /** Whatever the link does, a call sends nothing but what initialising and selecting an axis
      take, and what it is itself for: ABORT comes from a stop alone, AXISOFF from switching the
      loop open, AXISON from motion commands and switching it closed, a position from setting it
      or from the end of a home. */
  lemma OnlyItsOwn(e: Env, w: World, c: Cmd)
    ensures
      var r, lsp := Step(e, w, c).0.lib, !c.CtrlPoll? && c.i < |w.axes| && w.axes[c.i].cfg.useLsp;
      && w.lib.sent <= r.sent
      && forall k :: |w.lib.sent| <= k < |r.sent| ==> Initialises(r.sent[k].op) || May(c, lsp, r.sent[k].op)
  {
    hide Poll, Configure, Move, MoveVelocity, Home, ForceHome, Stop, SetPosition, SetClosedLoop, WriteParam,
      EnsureChannel, HomeMove, Homes, Initialises, Inits, Reads;
    if c.CtrlPoll? { OpeningSays(e, w); }
    else if c.i < |w.axes| {
      var lsp := w.axes[c.i].cfg.useLsp;
      var p := MayOf(c, lsp);
      InitsOf(c, lsp);
      match c
      case DoPoll(i) => PollLogs(e, w, i, p);
      case DoConfigure(i, cfg) => ConfigureLogs(e, w, i, cfg, p);
      case DoMove(i, pos, relative, speed, acc) =>
        CompletesMove(c, lsp);
        MoveLogs(e, w, i, pos, relative, speed, acc, p);
      case DoJog(i, speed, acc) => JogLogs(e, w, i, speed, acc, p);
      case DoHome(i, v, velo, acc, forwards) =>
        HomeMoveHomes(v, velo, acc, forwards);
        HomeLogs(e, w, i, v, velo, acc, forwards, p);
      case DoForceHome(i, velo, accl) =>
        HomeMoveHomes(if velo > 0.0 then velo else 40.0, velo, if accl > 0.0 then accl else 1.0, lsp);
        ForceHomeLogs(e, w, i, velo, accl, p);
      case DoStop(i) => StopLogs(e, w, i, p);
      case DoSetPosition(i, pos) => SetPositionLogs(e, w, i, pos, p);
      case DoClosedLoop(i, on) => ClosedLoopLogs(e, w, i, on, p);
      case DoParam(i, q) => ParamLogs(e, w, i, q, p);
    }
  }

  lemma OpeningSays(e: Env, w: World)
    ensures EnsureChannel(e, w).0.lib.sent == w.lib.sent
  {
    hide OpenChannel, FlagAll;
  }

  // ----- At most one motion -----

  /** Among the new calls there is at most one motion command, and it is this one. */
  ghost predicate AtMost(l: Lib, r: Lib, op: Op) {
    && l.sent <= r.sent
    && (forall k :: |l.sent| <= k < |r.sent| && IsMove(r.sent[k].op) ==> r.sent[k].op == op)
    && (forall j, k :: |l.sent| <= j < k < |r.sent| ==> !(IsMove(r.sent[j].op) && IsMove(r.sent[k].op)))
  }

  lemma NoneIsAtMost(l: Lib, r: Lib, op: Op)
    requires NoMove(l, r)
    ensures AtMost(l, r, op)
  {
  }

  lemma AtMostOne(l: Lib, m: Lib, r: Lib, op: Op)
    requires NoMove(l, m) && AtMost(m, r, op)
    ensures AtMost(l, r, op)
  {
    assert forall k :: |l.sent| <= k < |m.sent| ==> r.sent[k] == m.sent[k];
  }

  lemma AtMostThen(l: Lib, m: Lib, r: Lib, op: Op)
    requires AtMost(l, m, op) && NoMove(m, r)
    ensures AtMost(l, r, op)
  {
    forall k | |l.sent| <= k < |r.sent| && IsMove(r.sent[k].op) ensures k < |m.sent| && r.sent[k] == m.sent[k] {
    }
  }

  lemma SendAtMost(e: Env, l: Lib, op: Op)
    ensures AtMost(l, Send(e, l, op).0, op)
  {
  }

  lemma LaunchAtMost(e: Env, l: Lib, op: Op)
    ensures AtMost(l, Launch(e, l, op).0, op)
  {
    hide ClearLimitSwitchEvent, Send, Talks, AtMost, NoMove, Inits;
    StillInits();
    DisarmLogs(e, l, Still);
    SendAtMost(e, ClearLimitSwitchEvent(e, l), op);
    AtMostOne(l, ClearLimitSwitchEvent(e, l), Launch(e, l, op).0, op);
  }

  /** At the size of a speed, towards the positive limit or the negative one; an acceleration of 0
      stands for 1. */
  function Homing(speed: real, acc: real, forwards: bool): Op {
    var v, a := if speed < 0.0 then -speed else speed, if acc == 0.0 then 1.0 else if acc < 0.0 then -acc else acc;
    MoveVel(if forwards then v else -v, a)
  }

  /** What a move, jog or home was asked to do. */
  function Asked(w: World, c: Cmd): Op
    requires c.DoMove? || c.DoJog? || c.DoHome? || (c.DoForceHome? && c.i < |w.axes|)
  {
    match c
    case DoMove(_, pos, relative, speed, acc) => if relative then MoveRel(pos, speed, acc) else MoveAbs(pos, speed, acc)
    case DoJog(_, speed, acc) => MoveVel(speed, acc)
    case DoHome(_, v, velo, acc, forwards) => Homing(if v == 0.0 then velo else v, acc, forwards)
    case DoForceHome(i, velo, accl) =>
      Homing(if velo > 0.0 then velo else 40.0, if accl > 0.0 then accl else 1.0, w.axes[i].cfg.useLsp)
  }

  lemma MoveAtMost(e: Env, w: World, i: nat, pos: int, relative: bool, speed: real, acc: real)
    requires i < |w.axes|
    ensures AtMost(w.lib, Move(e, w, i, pos, relative, speed, acc).0.lib, MoveOp(pos, relative, speed, acc))
  {
    hide Ready, Launch, SetEventOnMotionComplete, Talks, AtMost, NoMove, Released, Started;
    var op := MoveOp(pos, relative, speed, acc);
    var w1 := Ready(e, w, i).0;
    StillInits();
    ReadyLogs(e, w, i, Still);
    NoneIsAtMost(w.lib, w1.lib, op);
    var l := Launch(e, w1.lib, op).0;
    LaunchAtMost(e, w1.lib, op);
    AtMostOne(w.lib, w1.lib, l, op);
    CompleteLogs(e, l, Still);
    AtMostThen(w.lib, l, SetEventOnMotionComplete(e, l), op);
  }

  lemma JogAtMost(e: Env, w: World, i: nat, speed: real, acc: real)
    requires i < |w.axes|
    ensures AtMost(w.lib, MoveVelocity(e, w, i, speed, acc).0.lib, MoveVel(speed, acc))
  {
    hide Ready, Launch, AtMost, NoMove, Released, Started;
    var w1 := Ready(e, w, i).0;
    StillInits();
    ReadyLogs(e, w, i, Still);
    NoneIsAtMost(w.lib, w1.lib, MoveVel(speed, acc));
    LaunchAtMost(e, w1.lib, MoveVel(speed, acc));
    AtMostOne(w.lib, w1.lib, Launch(e, w1.lib, MoveVel(speed, acc)).0, MoveVel(speed, acc));
  }

  lemma HomeAtMost(e: Env, w: World, i: nat, maxVelocity: real, velo: real, acc: real, forwards: bool)
    requires i < |w.axes|
    ensures AtMost(w.lib, Home(e, w, i, maxVelocity, velo, acc, forwards).0.lib,
      HomeMove(maxVelocity, velo, acc, forwards))
  {
    hide Ready, Launch, SetEventOnLimitSwitch, Talks, AtMost, NoMove, HomingStarted, HomeMove;
    var op := HomeMove(maxVelocity, velo, acc, forwards);
    LogsNothing(w.lib, w.lib, Still);
    NoneIsAtMost(w.lib, w.lib, op);
    var w1 := Ready(e, w, i).0;
    StillInits();
    ReadyLogs(e, w, i, Still);
    NoneIsAtMost(w.lib, w1.lib, op);
    var l := Launch(e, w1.lib, op).0;
    LaunchAtMost(e, w1.lib, op);
    AtMostOne(w.lib, w1.lib, l, op);
    ArmLogs(e, l, forwards, Still);
    AtMostThen(w.lib, l, SetEventOnLimitSwitch(e, l, forwards).0, op);
  }

  lemma ForceHomeAtMost(e: Env, w: World, i: nat, velo: real, accl: real)
    requires i < |w.axes|
    ensures AtMost(w.lib, ForceHome(e, w, i, velo, accl).0.lib, Asked(w, DoForceHome(i, velo, accl)))
  {
    hide Select, GetVar, ZeroAtHome, Home, Talks, AtMost, NoMove, LimitBit, HomeMove;
    var op := Asked(w, DoForceHome(i, velo, accl));
    LogsNothing(w.lib, w.lib, Still);
    NoneIsAtMost(w.lib, w.lib, op);
    var w1 := Select(e, w, i).0;
    StillInits();
    SelectLogs(e, w, i, Still);
    NoneIsAtMost(w.lib, w1.lib, op);
    var w2 := w1.(lib := GetVar(e, w1.lib, "MER").0);
    VarLogs(e, w1.lib, "MER", Still);
    LogsOn(w.lib, w1.lib, w2.lib, Still);
    ZeroLogs(e, w2, i, Still);
    LogsOn(w.lib, w2.lib, ZeroAtHome(e, w2, i).lib, Still);
    NoneIsAtMost(w.lib, ZeroAtHome(e, w2, i).lib, op);
    var v, a := if velo > 0.0 then velo else 40.0, if accl > 0.0 then accl else 1.0;
    HomeAtMost(e, w2, i, v, velo, a, w.axes[i].cfg.useLsp);
    HomeMoveIs(v, velo, a, w.axes[i].cfg.useLsp);
    AtMostOne(w.lib, w2.lib, Home(e, w2, i, v, velo, a, w.axes[i].cfg.useLsp).0.lib, op);
  }

  /** Whatever the link does, a call starts no other motion than the one it was asked for, and
      that at most once; calls that are not motion commands start none. */
  lemma OnlyWhatWasAsked(e: Env, w: World, c: Cmd)
    ensures
      if c.DoMove? || c.DoJog? || c.DoHome? || (c.DoForceHome? && c.i < |w.axes|)
      then AtMost(w.lib, Next(e, w, c).lib, Asked(w, c))
      else NoMove(w.lib, Next(e, w, c).lib)
  {
    hide Poll, Configure, Move, MoveVelocity, Home, ForceHome, Stop, SetPosition, SetClosedLoop, WriteParam,
      EnsureChannel, HomeMove;
    var w1 := Later(w);
    if c.DoMove? || c.DoJog? || c.DoHome? || c.DoForceHome? {
      if c.i < |w.axes| {
        match c
        case DoMove(i, pos, relative, speed, acc) => MoveAtMost(e, w1, i, pos, relative, speed, acc);
        case DoJog(i, speed, acc) => JogAtMost(e, w1, i, speed, acc);
        case DoHome(i, v, velo, acc, forwards) =>
          HomeAtMost(e, w1, i, v, velo, acc, forwards);
          HomeMoveIs(v, velo, acc, forwards);
        case DoForceHome(i, velo, accl) => ForceHomeAtMost(e, w1, i, velo, accl);
      }
    } else { OthersStandStill(e, w1, c); }
  }

  lemma HomeMoveIs(maxVelocity: real, velo: real, acc: real, forwards: bool)
    ensures HomeMove(maxVelocity, velo, acc, forwards)
         == Homing(if maxVelocity == 0.0 then velo else maxVelocity, acc, forwards)
  {
  }

  lemma OthersStandStill(e: Env, w: World, c: Cmd)
    requires !(c.DoMove? || c.DoJog? || c.DoHome? || c.DoForceHome?)
    ensures NoMove(w.lib, Step(e, w, c).0.lib)
  {
    hide Step;
    OnlyItsOwn(e, w, c);
  }

  /** A home that is not rejected at once moves at a speed other than 0, towards the limit
      asked for. */
  lemma HomeHeadsForItsLimit(maxVelocity: real, velo: real, acc: real, forwards: bool)
    requires !(maxVelocity == 0.0 && velo <= 0.0)
    ensures HomeMove(maxVelocity, velo, acc, forwards).MoveVel?
    ensures if forwards then HomeMove(maxVelocity, velo, acc, forwards).speed > 0.0
            else HomeMove(maxVelocity, velo, acc, forwards).speed < 0.0
  {
  }

  // ----- What success means -----

  /** The drive with this id acknowledged the command. */
  ghost predicate Taken(l: Lib, r: Lib, id: byte, op: Op) {
    exists k :: |l.sent| <= k < |r.sent| && r.sent[k].dest == id && r.sent[k].op == op && r.sent[k].ok
  }

  lemma TakenOn(l: Lib, m: Lib, n: Lib, r: Lib, id: byte, op: Op)
    requires Onward(l, m) && Taken(m, n, id, op) && Onward(n, r)
    ensures Taken(l, r, id, op)
  {
    var k :| |m.sent| <= k < |n.sent| && n.sent[k].dest == id && n.sent[k].op == op && n.sent[k].ok;
    assert r.sent[k] == n.sent[k];
  }

  lemma LaunchTaken(e: Env, l: Lib, op: Op, id: byte)
    requires Addressed(l, id) && Launch(e, l, op).1
    ensures Taken(l, Launch(e, l, op).0, id, op)
  {
    hide ClearLimitSwitchEvent, Talks;
    var l' := ClearLimitSwitchEvent(e, l);
    TalkOnward(l, l');
    StillAddressed(l, l', id);
    assert Launch(e, l, op).0.sent[|l'.sent|] == Call(id, op, true, Send(e, l', op).1.val);
  }

  lemma StillAddressed(l: Lib, r: Lib, id: byte)
    requires Talks(l, r) && Addressed(l, id)
    ensures Addressed(r, id)
  {
  }

  /** A move, jog or home that reports success was acknowledged by its axis's own drive, with
      the very position or velocity asked for. */
  lemma SuccessWasTaken(e: Env, w: World, c: Cmd)
    requires (c.DoMove? || c.DoJog? || c.DoHome?) && c.i < |w.axes| && Step(e, w, c).1
    ensures Taken(w.lib, Step(e, w, c).0.lib, w.axes[c.i].cfg.id, Asked(w, c))
  {
    hide Ready, Launch, SetEventOnMotionComplete, SetEventOnLimitSwitch, Talks, Quiet, Addressed, HomeMove, Taken,
      Onward;
    var w1 := Ready(e, w, c.i).0;
    var id, op := w.axes[c.i].cfg.id, Asked(w, c);
    if c.DoHome? { HomeMoveIs(c.maxVelocity, c.velo, c.acc, c.forwards); }
    ReadyQuiet(e, w, c.i);
    QuietOnward(w, w1, c.i);
    LaunchTaken(e, w1.lib, op, id);
    var l := Launch(e, w1.lib, op).0;
    TalkOnward(l, SetEventOnMotionComplete(e, l));
    TalkOnward(l, l) by { TalkNothing(l); }
    if c.DoHome? { TalkOnward(l, SetEventOnLimitSwitch(e, l, c.forwards).0); }
    TakenOn(w.lib, w1.lib, l, Step(e, w, c).0.lib, id, op);
  }

  lemma TalkNothing(l: Lib)
    ensures Talks(l, l)
  {
  }

  lemma QuietOnward(w: World, x: World, i: nat)
    requires Quiet(w, x, i)
    ensures Onward(w.lib, x.lib)
  {
  }
}
