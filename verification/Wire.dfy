/** What the driver's calls put on the wire: every call logged, call by call. */
module Wire {
  import opened Codec
  import opened Masks
  import opened TmlLib
  import opened Supervisor

  /** p holds of every call made from l to r. */
  ghost predicate Logs(l: Lib, r: Lib, p: Op -> bool) {
    l.sent <= r.sent && forall k :: |l.sent| <= k < |r.sent| ==> p(r.sent[k].op)
  }

  lemma LogsOn(l: Lib, m: Lib, r: Lib, p: Op -> bool)
    requires Logs(l, m, p) && Logs(m, r, p)
    ensures Logs(l, r, p)
  {
    forall k | |l.sent| <= k < |r.sent| ensures p(r.sent[k].op) {
      if k < |m.sent| { assert r.sent[k] == m.sent[k]; }
    }
  }

  lemma LogsNothing(l: Lib, r: Lib, p: Op -> bool)
    requires r.sent == l.sent
    ensures Logs(l, r, p)
  {
  }

  // ----- The library -----

  ghost predicate Reads(p: Op -> bool) { forall name: string :: p(Read(name)) }

  /** What initialising an axis may send, and disarming one. */
  ghost predicate Inits(p: Op -> bool) {
    && Reads(p) && p(EndInit)
    && forall v: word :: p(Write("SCR", v)) && p(Write("MER_MASK", v)) && p(Write("MER", v))
  }

  lemma SendLogs(e: Env, l: Lib, op: Op, p: Op -> bool)
    requires p(op)
    ensures Logs(l, Send(e, l, op).0, p)
  {
  }

  lemma VarLogs(e: Env, l: Lib, name: string, p: Op -> bool)
    requires Reads(p)
    ensures Logs(l, GetVar(e, l, name).0, p) && Logs(l, Fetch(e, l, name).0, p)
  {
    hide Send;
    assert p(Read(name));
    SendLogs(e, l, Read(name), p);
  }

  lemma SetLogs(e: Env, l: Lib, name: string, val: word, n: int, p: Op -> bool)
    ensures p(Write(name, val)) ==> Logs(l, SetVar(e, l, name, val).0, p)
    ensures p(WriteLong(name, n)) ==> Logs(l, SetLong(e, l, name, n).0, p)
  {
    hide Send;
    if p(Write(name, val)) { SendLogs(e, l, Write(name, val), p); }
    if p(WriteLong(name, n)) { SendLogs(e, l, WriteLong(name, n), p); }
  }

  lemma {:induction false} ReadAllLogs(e: Env, l: Lib, names: seq<string>, p: Op -> bool)
    requires Reads(p)
    ensures Logs(l, ReadAll(e, l, names), p)
    decreases |names|
  {
    hide GetVar, Talks, Reads;
    if names != [] {
      var l' := GetVar(e, l, names[0]).0;
      VarLogs(e, l, names[0], p);
      ReadAllLogs(e, l', names[1..], p);
      LogsOn(l, l', ReadAll(e, l', names[1..]), p);
    }
  }

  lemma {:induction false} EndInitLogs(e: Env, l: Lib, tries: nat, p: Op -> bool)
    requires p(EndInit)
    ensures Logs(l, DriveInitialisation(e, l, tries).0, p)
    decreases tries
  {
    hide Send, Talks;
    if tries > 0 && ActiveChan(l).Some? {
      var (l', a) := Send(e, l, EndInit);
      SendLogs(e, l, EndInit, p);
      if !a.ok {
        EndInitLogs(e, l', tries - 1, p);
        LogsOn(l, l', DriveInitialisation(e, l', tries - 1).0, p);
      }
    }
  }

  lemma ClearBitsLogs(e: Env, l: Lib, name: string, lsp: bool, lsn: bool, p: Op -> bool)
    requires Reads(p) && forall v: word :: p(Write(name, v))
    ensures Logs(l, ClearBits(e, l, name, lsp, lsn), p)
  {
    hide Talks, Cleared, Send, Fetch, Reads, Logs;
    var (l', m) := Fetch(e, l, name);
    VarLogs(e, l, name, p);
    SendLogs(e, l', Write(name, Cleared(m, lsp, lsn)), p);
    LogsOn(l, l', Send(e, l', Write(name, Cleared(m, lsp, lsn))).0, p);
  }

  lemma DisarmLogs(e: Env, l: Lib, p: Op -> bool)
    requires Inits(p)
    ensures Logs(l, ClearLimitSwitchEvent(e, l), p)
  {
    hide Talks, ClearBits, Reads, Logs;
    var l' := ClearBits(e, l, "MER_MASK", true, true);
    ClearBitsLogs(e, l, "MER_MASK", true, true, p);
    ClearBitsLogs(e, l', "MER", true, true, p);
    LogsOn(l, l', ClearBits(e, l', "MER", true, true), p);
  }

  lemma DisableLogs(e: Env, l: Lib, lsp: bool, lsn: bool, p: Op -> bool)
    requires Inits(p)
    ensures Logs(l, DisableLimitProtection(e, l, lsp, lsn), p)
  {
    hide Talks, Cleared, Send, Fetch, ClearBits, Reads, Logs;
    var (l1, m) := Fetch(e, l, "MER_MASK");
    VarLogs(e, l, "MER_MASK", p);
    var l2 := Send(e, l1, Write("MER_MASK", Cleared(m, lsp, lsn))).0;
    SendLogs(e, l1, Write("MER_MASK", Cleared(m, lsp, lsn)), p);
    LogsOn(l, l1, l2, p);
    ClearBitsLogs(e, l2, "MER", lsp, lsn, p);
    LogsOn(l, l2, ClearBits(e, l2, "MER", lsp, lsn), p);
  }

  /** A register read, then another call. */
  lemma FetchThenLogs(e: Env, l: Lib, name: string, op: Op, p: Op -> bool)
    requires Reads(p) && p(op)
    ensures Logs(l, Send(e, Fetch(e, l, name).0, op).0, p)
  {
    hide Send, Fetch, Talks, Reads, Logs;
    VarLogs(e, l, name, p);
    SendLogs(e, Fetch(e, l, name).0, op, p);
    LogsOn(l, Fetch(e, l, name).0, Send(e, Fetch(e, l, name).0, op).0, p);
  }

  // ----- Initialising and selecting -----

  lemma AfterEndInitLogs(e: Env, l: Lib, a: Axis, p: Op -> bool)
    requires Inits(p)
    ensures Logs(l, AfterEndInit(e, l, a), p)
  {
    hide Talks, ReadAll, GetVar, SetVar, DisableLimitProtection, Logs;
    var l1 := ReadAll(e, l, ["MER", "MER_MASK"]);
    ReadAllLogs(e, l, ["MER", "MER_MASK"], p);
    var l' := SetVar(e, l1, "SCR", a.cfg.scr).0;
    SetLogs(e, l1, "SCR", a.cfg.scr, 0, p);
    VarLogs(e, l', "APOS", p);
    LogsOn(l1, l', GetVar(e, l', "APOS").0, p);
    LogsOn(l, l1, GetVar(e, l', "APOS").0, p);
    var l2 := if a.cfg.scr != 0 then GetVar(e, l', "APOS").0 else l1;
    DisableLogs(e, l2, a.cfg.ignoreLsp, a.cfg.ignoreLsn, p);
    LogsOn(l, l2, DisableLimitProtection(e, l2, a.cfg.ignoreLsp, a.cfg.ignoreLsn), p);
  }

  lemma ReinitLogs(e: Env, l: Lib, a: Axis, p: Op -> bool)
    requires Inits(p)
    ensures Logs(l, Reinit(e, l, a).0, p)
  {
    hide Talks, DriveInitialisation, AfterEndInit;
    var (l1, idx) := Hold(e, l, a);
    if idx >= 0 {
      var l2 := SetupAxis(e, l1, a.cfg.id, idx).0;
      var l3 := SelectAxis(e, l2, a.cfg.id).0;
      EndInitLogs(e, l3, ENDINIT_TRIES, p);
      var (l4, ok) := BringUp(e, l1, a.cfg.id, idx);
      assert Logs(l, l4, p);
      AfterEndInitLogs(e, l4, a, p);
      LogsOn(l, l4, AfterEndInit(e, l4, a), p);
    }
  }

  lemma ReconnectLogs(e: Env, w: World, i: nat, now: real, p: Op -> bool)
    requires i < |w.axes| && Inits(p)
    ensures Logs(w.lib, Reconnect(e, w, i, now).0.lib, p)
  {
    hide OpenChannel, CloseChannel, SelectChannel, Reinit, FlagAll, Recovered;
    var (l, fd) := OpenChannel(e, CloseChannel(w.lib, w.fd), now);
    ReinitLogs(e, StartedOver(SelectChannel(e, Tick(l), fd).0), w.axes[i].(setupIdx := -1), p);
  }

  lemma SelectLogs(e: Env, w: World, i: nat, p: Op -> bool)
    requires i < |w.axes| && Inits(p)
    ensures Logs(w.lib, Select(e, w, i).0.lib, p)
  {
    hide TrySelect, SelectAxis, Reconnect;
    if w.axes[i].configured && w.fd >= 0 {
      var (l, ok) := TrySelect(e, w.lib, w.fd, SELECT_TRIES);
      if !ok { ReconnectLogs(e, w.(lib := Tick(l)), i, Now(e, l), p); }
    }
  }

  // ----- Power -----

  lemma {:induction false} AwaitLogs(e: Env, l: Lib, n: nat, p: Op -> bool)
    requires Reads(p)
    ensures Logs(l, AwaitPower(e, l, n).0, p)
    decreases n
  {
    hide GetVar, Talks, AxisIsOn, Reads;
    if n > 0 {
      var (l', _, srl) := GetVar(e, l, "SRL");
      VarLogs(e, l, "SRL", p);
      if !AxisIsOn(srl) {
        AwaitLogs(e, l', n - 1, p);
        LogsOn(l, l', AwaitPower(e, l', n - 1).0, p);
      }
    }
  }

  lemma PowerOnLogs(e: Env, w: World, i: nat, p: Op -> bool)
    requires i < |w.axes| && Inits(p) && p(AxisOn)
    ensures Logs(w.lib, PowerOn(e, w, i).0.lib, p)
  {
    hide Select, AwaitPower, Talks, Send, Reads, Logs;
    var w1 := Select(e, w, i).0;
    LogsNothing(w.lib, w.lib, p);
    SelectLogs(e, w, i, p);
    var l := Send(e, w1.lib, AxisOn).0;
    SendLogs(e, w1.lib, AxisOn, p);
    AwaitLogs(e, l, POWER_POLLS, p);
    LogsOn(w1.lib, l, AwaitPower(e, l, POWER_POLLS).0, p);
    LogsOn(w.lib, w1.lib, SwitchOn(e, w1.lib).0, p);
  }

  lemma PowerOffLogs(e: Env, w: World, i: nat, p: Op -> bool)
    requires i < |w.axes| && Inits(p) && p(AxisOff)
    ensures Logs(w.lib, PowerOff(e, w, i).0.lib, p)
  {
    hide Select, Send, Inits, Logs;
    var w1 := Select(e, w, i).0;
    LogsNothing(w.lib, w.lib, p);
    SelectLogs(e, w, i, p);
    SendLogs(e, w1.lib, AxisOff, p);
    LogsOn(w.lib, w1.lib, Send(e, w1.lib, AxisOff).0, p);
  }

  lemma ReadyLogs(e: Env, w: World, i: nat, p: Op -> bool)
    requires i < |w.axes| && Inits(p) && p(AxisOn)
    ensures Logs(w.lib, Ready(e, w, i).0.lib, p)
  {
    hide Select, PowerOn, Inits, Logs;
    var w1 := Select(e, w, i).0;
    LogsNothing(w.lib, w.lib, p);
    SelectLogs(e, w, i, p);
    PowerOnLogs(e, w1, i, p);
    LogsOn(w.lib, w1.lib, PowerOn(e, w1, i).0.lib, p);
  }

  // ----- Motion -----

  lemma LaunchLogs(e: Env, l: Lib, op: Op, p: Op -> bool)
    requires Inits(p) && p(op)
    ensures Logs(l, Launch(e, l, op).0, p)
  {
    hide ClearLimitSwitchEvent, Send, Talks, Inits, Logs;
    DisarmLogs(e, l, p);
    SendLogs(e, ClearLimitSwitchEvent(e, l), op, p);
    LogsOn(l, ClearLimitSwitchEvent(e, l), Launch(e, l, op).0, p);
  }

  lemma CompleteLogs(e: Env, l: Lib, p: Op -> bool)
    requires Reads(p) && forall m: word :: p(Write("SRL_MASK", WithComplete(m)))
    ensures Logs(l, SetEventOnMotionComplete(e, l), p)
  {
    hide Send, Fetch, Reads, Logs, WithComplete;
    FetchThenLogs(e, l, "SRL_MASK", Write("SRL_MASK", WithComplete(Fetch(e, l, "SRL_MASK").1)), p);
  }

  lemma ArmLogs(e: Env, l: Lib, positive: bool, p: Op -> bool)
    requires Inits(p)
    ensures Logs(l, SetEventOnLimitSwitch(e, l, positive).0, p)
  {
    hide Send, Fetch, Armed, Reads, Logs;
    FetchThenLogs(e, l, "MER_MASK", Write("MER_MASK", Armed(Fetch(e, l, "MER_MASK").1, positive)), p);
  }

  lemma MoveLogs(e: Env, w: World, i: nat, pos: int, relative: bool, speed: real, acc: real, p: Op -> bool)
    requires i < |w.axes| && Inits(p) && p(AxisOn) && p(MoveOp(pos, relative, speed, acc))
    requires forall m: word :: p(Write("SRL_MASK", WithComplete(m)))
    ensures Logs(w.lib, Move(e, w, i, pos, relative, speed, acc).0.lib, p)
  {
    hide Ready, Launch, SetEventOnMotionComplete, Talks, Logs, Reads, MoveOp, Released, Started, WithComplete;
    var op, w1 := MoveOp(pos, relative, speed, acc), Ready(e, w, i).0;
    ReadyLogs(e, w, i, p);
    var l := Launch(e, w1.lib, op).0;
    LaunchLogs(e, w1.lib, op, p);
    LogsOn(w.lib, w1.lib, l, p);
    CompleteLogs(e, l, p);
    LogsOn(w.lib, l, SetEventOnMotionComplete(e, l), p);
  }

  lemma JogLogs(e: Env, w: World, i: nat, speed: real, acc: real, p: Op -> bool)
    requires i < |w.axes| && Inits(p) && p(AxisOn) && p(MoveVel(speed, acc))
    ensures Logs(w.lib, MoveVelocity(e, w, i, speed, acc).0.lib, p)
  {
    hide Ready, Launch, Logs, Inits, Released, Started;
    var w1 := Ready(e, w, i).0;
    ReadyLogs(e, w, i, p);
    LaunchLogs(e, w1.lib, MoveVel(speed, acc), p);
    LogsOn(w.lib, w1.lib, Launch(e, w1.lib, MoveVel(speed, acc)).0, p);
  }

  lemma HomeLogs(e: Env, w: World, i: nat, maxVelocity: real, velo: real, acc: real, forwards: bool, p: Op -> bool)
    requires i < |w.axes| && Inits(p) && p(AxisOn) && p(HomeMove(maxVelocity, velo, acc, forwards))
    ensures Logs(w.lib, Home(e, w, i, maxVelocity, velo, acc, forwards).0.lib, p)
  {
    hide Ready, Launch, SetEventOnLimitSwitch, Talks, Logs, Inits, HomingStarted, HomeMove;
    var op, w1 := HomeMove(maxVelocity, velo, acc, forwards), Ready(e, w, i).0;
    LogsNothing(w.lib, w.lib, p);
    ReadyLogs(e, w, i, p);
    var l := Launch(e, w1.lib, op).0;
    LaunchLogs(e, w1.lib, op, p);
    LogsOn(w.lib, w1.lib, l, p);
    ArmLogs(e, l, forwards, p);
    LogsOn(w.lib, l, SetEventOnLimitSwitch(e, l, forwards).0, p);
  }

  lemma ZeroLogs(e: Env, w: World, i: nat, p: Op -> bool)
    requires i < |w.axes| && Inits(p) && p(Sap(0))
    ensures Logs(w.lib, ZeroAtHome(e, w, i).lib, p)
  {
    hide Select, ClearLimitSwitchEvent, Send, Talks, Logs, Inits, AtHome;
    var w1 := Select(e, w, i).0;
    SelectLogs(e, w, i, p);
    var l := Send(e, w1.lib, Sap(0)).0;
    SendLogs(e, w1.lib, Sap(0), p);
    DisarmLogs(e, l, p);
    LogsOn(w1.lib, l, ClearLimitSwitchEvent(e, l), p);
    LogsOn(w.lib, w1.lib, ZeroPosition(e, w1.lib), p);
  }

  lemma ForceHomeLogs(e: Env, w: World, i: nat, velo: real, accl: real, p: Op -> bool)
    requires i < |w.axes| && Inits(p) && p(AxisOn) && p(Sap(0))
    requires
      var v, a := if velo > 0.0 then velo else 40.0, if accl > 0.0 then accl else 1.0;
      p(HomeMove(v, velo, a, w.axes[i].cfg.useLsp))
    ensures Logs(w.lib, ForceHome(e, w, i, velo, accl).0.lib, p)
  {
    hide Select, GetVar, ZeroAtHome, Home, Talks, Logs, Reads, LimitBit, HomeMove;
    LogsNothing(w.lib, w.lib, p);
    var w1 := Select(e, w, i).0;
    SelectLogs(e, w, i, p);
    var w2 := w1.(lib := GetVar(e, w1.lib, "MER").0);
    VarLogs(e, w1.lib, "MER", p);
    LogsOn(w.lib, w1.lib, w2.lib, p);
    ZeroLogs(e, w2, i, p);
    LogsOn(w.lib, w2.lib, ZeroAtHome(e, w2, i).lib, p);
    var v, a, lsp := if velo > 0.0 then velo else 40.0, if accl > 0.0 then accl else 1.0, w.axes[i].cfg.useLsp;
    HomeLogs(e, w2, i, v, velo, a, lsp, p);
    LogsOn(w.lib, w2.lib, Home(e, w2, i, v, velo, a, lsp).0.lib, p);
  }

  lemma StopLogs(e: Env, w: World, i: nat, p: Op -> bool)
    requires i < |w.axes| && Inits(p) && p(Abort)
    ensures Logs(w.lib, Stop(e, w, i).0.lib, p)
  {
    hide Select, ClearLimitSwitchEvent, Send, Talks, Halted, Inits, Logs;
    LogsNothing(w.lib, w.lib, p);
    var w1 := Select(e, w, i).0;
    SelectLogs(e, w, i, p);
    var l := Send(e, w1.lib, Abort).0;
    SendLogs(e, w1.lib, Abort, p);
    DisarmLogs(e, l, p);
    LogsOn(w.lib, w1.lib, l, p);
    LogsOn(w.lib, l, ClearLimitSwitchEvent(e, l), p);
  }

  // ----- Everything else -----

  lemma SetPositionLogs(e: Env, w: World, i: nat, pos: int, p: Op -> bool)
    requires i < |w.axes| && Inits(p) && p(Sap(pos))
    ensures Logs(w.lib, SetPosition(e, w, i, pos).0.lib, p)
  {
    hide Select, Send, Inits, Logs;
    LogsNothing(w.lib, w.lib, p);
    var w1 := Select(e, w, i).0;
    SelectLogs(e, w, i, p);
    SendLogs(e, w1.lib, Sap(pos), p);
    LogsOn(w.lib, w1.lib, Send(e, w1.lib, Sap(pos)).0, p);
  }

  lemma ParamLogs(e: Env, w: World, i: nat, c: Param, p: Op -> bool)
    requires i < |w.axes| && Inits(p)
    requires match c
             case ResetFaultParam => p(Write("MER", 0))
             case SaveEepromParam => true
             case ResetDriveParam => p(Reset)
             case ClearEncoderParam => p(WriteLong("APOS", 0))
             case ClearStepsParam => p(WriteLong("TPOS", 0))
    ensures Logs(w.lib, WriteParam(e, w, i, c).0.lib, p)
  {
    hide Select, SetLong, Fetch, Send, Talks, Reads, Logs;
    var w1 := Select(e, w, i).0;
    SelectLogs(e, w, i, p);
    LogsNothing(w1.lib, w1.lib, p);
    match c {
      case ResetFaultParam => FetchThenLogs(e, w1.lib, "MER", Write("MER", 0), p);
      case SaveEepromParam =>
      case ResetDriveParam => SendLogs(e, w1.lib, Reset, p);
      case ClearEncoderParam => SetLogs(e, w1.lib, "APOS", 0, 0, p);
      case ClearStepsParam => SetLogs(e, w1.lib, "TPOS", 0, 0, p);
    }
    LogsOn(w.lib, w1.lib, Carry(e, w1.lib, c).0, p);
  }

  lemma ClosedLoopLogs(e: Env, w: World, i: nat, on: bool, p: Op -> bool)
    requires i < |w.axes| && Inits(p) && p(if on then AxisOn else AxisOff)
    ensures Logs(w.lib, SetClosedLoop(e, w, i, on).0.lib, p)
  {
    hide PowerOn, PowerOff, Inits, Logs;
    LogsNothing(w.lib, w.lib, p);
    if on { PowerOnLogs(e, w, i, p); } else { PowerOffLogs(e, w, i, p); }
  }

  lemma ConfigureLogs(e: Env, w: World, i: nat, c: Config, p: Op -> bool)
    requires i < |w.axes| && Inits(p)
    ensures Logs(w.lib, Configure(e, w, i, c).lib, p)
  {
    hide Reinit, Inits;
    ReinitLogs(e, SelectChannel(e, w.lib, w.fd).0, Configured(w.axes[i], c), p);
  }

  lemma PollReinitLogs(e: Env, w: World, i: nat, p: Op -> bool)
    requires i < |w.axes| && Inits(p)
    ensures Logs(w.lib, PollReinit(e, w, i).0.lib, p)
  {
    hide Reinit, Down, CountedDown, BackedOff, Restored, Inits;
    ReinitLogs(e, SelectChannel(e, w.lib, w.fd).0, w.axes[i], p);
  }

  lemma StatusLogs(e: Env, l: Lib, polls: nat, p: Op -> bool)
    requires Reads(p)
    ensures Logs(l, ReadStatus(e, l, polls).0, p)
  {
    hide GetVar, ReadAll, Talks, Faulty, Reads, Logs;
    var l1 := GetVar(e, l, "TPOS").0;
    var l2 := GetVar(e, l1, "APOS").0;
    var (l3, _, srl) := GetVar(e, l2, "SRL");
    var l4 := GetVar(e, l3, "MER").0;
    VarLogs(e, l, "TPOS", p);
    VarLogs(e, l1, "APOS", p);
    VarLogs(e, l2, "SRL", p);
    VarLogs(e, l3, "MER", p);
    var names := (if Faulty(srl) then ["SRH"] else []) + (if polls % 10 == 0 then SLOW_READS else []);
    ReadAllLogs(e, l4, names, p);
    LogsOn(l, l1, l2, p);
    LogsOn(l, l2, l3, p);
    LogsOn(l, l3, l4, p);
    LogsOn(l, l4, ReadAll(e, l4, names), p);
  }

  lemma ObserveLogs(e: Env, w: World, i: nat, p: Op -> bool)
    requires i < |w.axes| && Inits(p) && p(Sap(0))
    ensures Logs(w.lib, Observe(e, w, i).0.lib, p)
  {
    hide Select, ReadStatus, Observed, ZeroAtHome, Talks, Reached, SelectLost, Logs, Reads;
    var w1 := Select(e, w, i).0;
    SelectLogs(e, w, i, p);
    var (l, r) := ReadStatus(e, w1.lib, w1.axes[i].polls);
    StatusLogs(e, w1.lib, w1.axes[i].polls, p);
    LogsOn(w.lib, w1.lib, l, p);
    var w2 := Talked(w1, i, l, Observed(w1.axes[i], r));
    ZeroLogs(e, w2, i, p);
    LogsOn(w.lib, w2.lib, ZeroAtHome(e, w2, i).lib, p);
  }

  lemma PollLogs(e: Env, w: World, i: nat, p: Op -> bool)
    requires i < |w.axes| && Inits(p) && p(Sap(0))
    ensures Logs(w.lib, Poll(e, w, i).0.lib, p)
  {
    hide PollReinit, Observe, Logs, Inits;
    LogsNothing(w.lib, w.lib, p);
    var w1 := PollReinit(e, w, i).0;
    PollReinitLogs(e, w, i, p);
    ObserveLogs(e, w1, i, p);
    LogsOn(w.lib, w1.lib, Observe(e, w1, i).0.lib, p);
  }

  // ----- Motion commands -----

  predicate IsMove(op: Op) { op.MoveAbs? || op.MoveRel? || op.MoveVel? }

  predicate Still(op: Op) { !IsMove(op) }

  ghost predicate NoMove(l: Lib, r: Lib) { Logs(l, r, Still) }

  lemma StillInits()
    ensures Inits(Still) && forall m: word :: Still(Write("SRL_MASK", WithComplete(m)))
  {
  }

  lemma ReadyNoMove(e: Env, w: World, i: nat)
    requires i < |w.axes|
    ensures NoMove(w.lib, Ready(e, w, i).0.lib)
  {
    hide Ready, Inits;
    StillInits();
    ReadyLogs(e, w, i, Still);
  }
}
