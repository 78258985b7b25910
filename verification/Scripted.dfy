/** What each call sends, from its first call to its last. */
module Scripted {
  import opened Codec
  import opened Masks
  import opened TmlLib
  import opened Supervisor
  import opened Channels
  import opened Initialising
  import opened AxisEffects
  import opened Lifting
  import opened Connection
  import opened Slots
  import opened AxisMotion
  import opened MaskRegister
  import opened Coupling
  import opened Commanded
  import opened CoupledRuns
  import opened Maps
  import opened Isolation
  import opened Scripts

  // ----- Selecting, and power -----

  /** The channel is open, and its map has the names that everything starts from. */
  ghost predicate Open(e: Env, w: World) {
    && e.native && Connected(w) && w.fd >= 0
    && (ActiveChan(w.lib).Some? ==> Complete(ActiveChan(w.lib).value.vars))
  }

  ghost predicate Stands(e: Env, w: World, i: nat) { Open(e, w) && i < |w.axes| && w.axes[i].configured }

  /** Natively selecting an axis sends nothing. */
  lemma SelectSilent(e: Env, w: World, i: nat)
    requires Stands(e, w, i)
    ensures
      var (r, ok) := Select(e, w, i);
      && ok && r == w.(lib := r.lib) && r.lib.sent == w.lib.sent && Stands(e, r, i) && Aimed(r.lib)
      && ActiveChan(w.lib).Some? && ActiveChan(r.lib).value.vars == ActiveChan(w.lib).value.vars
  {
    hide Select, OneChannel, Complete;
    NativeSelect(e, w, i);
    SelectTables(e, w, i);
    SelectKeepsConnected(e, w, i);
  }

  ghost predicate Aimed(l: Lib) { ActiveChan(l).Some? && Complete(ActiveChan(l).value.vars) }

  lemma StillAimed(l: Lib, r: Lib)
    requires Aimed(l) && Talks(l, r)
    ensures Aimed(r) && ActiveChan(r) == ActiveChan(l)
  {
    hide Complete;
  }

  lemma AimedKnows(l: Lib, name: string)
    requires Aimed(l) && name in DEFAULTS
    ensures ActiveChan(l).Some? && name in ActiveChan(l).value.vars
  {
  }

  lemma BitIs(m: word)
    ensures AxisIsOn(m) <==> HasBit(m, 0x8000)
  {
  }

  /** SRL read up to n times, until it has the bit. */
  ghost predicate Waited(l: Lib, r: Lib, n: nat, ok: bool) {
    && l.sent <= r.sent && |r.sent| <= |l.sent| + n && (if ok then |r.sent| > |l.sent| else |r.sent| == |l.sent| + n)
    && forall k :: |l.sent| <= k < |r.sent| ==>
         r.sent[k].op == Read("SRL") && (HasBit(Got(r.sent[k]), 0x8000) <==> ok && k == |r.sent| - 1)
  }

  lemma {:induction false} AwaitWaits(e: Env, l: Lib, n: nat)
    requires Aimed(l)
    ensures
      var (r, ok) := AwaitPower(e, l, n);
      Waited(l, r, n, ok)
    decreases n
  {
    hide GetVar, Talks, AxisIsOn, HasBit, Complete;
    if n > 0 {
      var (l', _, srl) := GetVar(e, l, "SRL");
      VarIs(e, l);
      BitIs(srl);
      StillAimed(l, l');
      if !AxisIsOn(srl) {
        AwaitWaits(e, l', n - 1);
        var (r, ok) := AwaitPower(e, l', n - 1);
        forall k | |l.sent| <= k < |r.sent|
          ensures r.sent[k].op == Read("SRL") && (HasBit(Got(r.sent[k]), 0x8000) <==> ok && k == |r.sent| - 1) {
          if k < |l'.sent| { assert r.sent[k] == l'.sent[k]; }
        }
      }
    }
  }

  lemma VarIs(e: Env, l: Lib)
    requires Aimed(l)
    ensures
      var (r, _, v) := GetVar(e, l, "SRL");
      && |r.sent| == |l.sent| + 1 && l.sent <= r.sent && r.sent[|l.sent|].op == Read("SRL")
      && Got(r.sent[|l.sent|]) == v
  {
    hide Brought, MemAfter;
    AimedKnows(l, "SRL");
  }

  lemma SwitchOnPlays(e: Env, l: Lib)
    requires Aimed(l)
    ensures
      var (r, ok) := SwitchOn(e, l);
      Played(l, r, ok, [PowerUp]) && ActiveChan(r) == ActiveChan(l)
  {
    hide AwaitPower, Brought, MemAfter, Plays, HasBit, Talks;
    var (r, ok) := SwitchOn(e, l);
    var (l', a) := Send(e, l, AxisOn);
    StillAimed(l, l');
    StillAimed(l, r);
    if a.ok { AwaitWaits(e, l', POWER_POLLS); }
    PowerUpIs(l, l', r, a.ok, ok);
    PlayedOne(l, r, PowerUp);
  }

  lemma PowerUpIs(l: Lib, m: Lib, r: Lib, on: bool, ok: bool)
    requires l.sent <= m.sent && |m.sent| == |l.sent| + 1 && m.sent[|l.sent|].op == AxisOn && m.sent[|l.sent|].ok == on
    requires if on then Waited(m, r, POWER_POLLS, ok) else r == m && !ok
    ensures l.sent <= r.sent
    ensures if ok then Done(r.sent[|l.sent|..], PowerUp) else Failed(r.sent[|l.sent|..], PowerUp)
  {
    hide HasBit;
    var cs := r.sent[|l.sent|..];
    assert cs[0] == m.sent[|l.sent|];
    if on {
      forall k | 1 <= k < |cs|
        ensures cs[k].op == Read("SRL") && (HasBit(Got(cs[k]), 0x8000) <==> ok && k == |cs| - 1) {
        assert cs[k] == r.sent[|l.sent| + k];
      }
    }
  }

  function Power(a: Axis): seq<Piece> { if a.powered then [] else [PowerUp] }

  lemma ReadyPlays(e: Env, w: World, i: nat)
    requires Stands(e, w, i)
    ensures
      var (x, ok) := Ready(e, w, i);
      Played(w.lib, x.lib, ok, Power(w.axes[i])) && Aimed(x.lib)
  {
    hide Select, SwitchOn, Powered, Played, Open, Aimed, Complete, Talks;
    SelectSilent(e, w, i);
    var w1 := Select(e, w, i).0;
    PlayedNothing(w.lib, w1.lib);
    SelectSilent(e, w1, i);
    var l := Select(e, w1, i).0.lib;
    SwitchOnPlays(e, l);
    StillAimed(l, SwitchOn(e, l).0);
    SamePlayed(l, w.lib, SwitchOn(e, l).0, SwitchOn(e, l).1, [PowerUp]);
  }

  // ----- Motion commands -----

  lemma LaunchPlays(e: Env, l: Lib, op: Op)
    requires Aimed(l)
    ensures
      var (r, ok) := Launch(e, l, op);
      Played(l, r, ok, DISARM + [Must(op)]) && Aimed(r)
  {
    hide ClearLimitSwitchEvent, Send, Played, Talks, Complete;
    var l' := ClearLimitSwitchEvent(e, l);
    DisarmPlays(e, l);
    SendPlays(e, l', op);
    PlayedOn(l, l', Send(e, l', op).0, Send(e, l', op).1.ok, DISARM, [Must(op)]);
  }

  lemma CompletePlays(e: Env, l: Lib)
    requires Aimed(l)
    ensures Played(l, SetEventOnMotionComplete(e, l), true, [MayRaise("SRL_MASK", 0x400)])
  {
    hide Fetch, Send, Played, Talks, Complete, WithComplete, More;
    var m := Fetch(e, l, "SRL_MASK").1;
    MoreIs(m);
    ChangePlays(e, l, "SRL_MASK", WithComplete(m), MayRaise("SRL_MASK", 0x400));
  }

  lemma ArmPlays(e: Env, l: Lib, positive: bool)
    requires Aimed(l)
    ensures
      var (r, ok) := SetEventOnLimitSwitch(e, l, positive);
      Played(l, r, ok, [Raise("MER_MASK", if positive then 0x40 else 0x80)])
  {
    hide Fetch, Send, Played, Talks, Complete, Armed, More;
    var m := Fetch(e, l, "MER_MASK").1;
    MoreIs(m);
    ChangePlays(e, l, "MER_MASK", Armed(m, positive), Raise("MER_MASK", if positive then 0x40 else 0x80));
  }

  /** One part after the other; a part that fails is the last. */
  lemma Then(l: Lib, m: Lib, r: Lib, first: bool, ok: bool, p: seq<Piece>, q: seq<Piece>)
    requires Played(l, m, first, p)
    requires if first then Played(m, r, ok, q) else r == m && !ok
    ensures Played(l, r, ok, p + q)
  {
    hide Played;
    if first { PlayedOn(l, m, r, ok, p, q); } else { PlayedUpTo(l, m, p, q); }
  }

  function MoveScript(a: Axis, pos: int, relative: bool, speed: real, acc: real): seq<Piece> {
    Power(a)
    + (DISARM + [Must(if relative then MoveRel(pos, speed, acc) else MoveAbs(pos, speed, acc))]
       + [MayRaise("SRL_MASK", 0x400)])
  }

  lemma LaunchMovePlays(e: Env, l: Lib, op: Op)
    requires Aimed(l)
    ensures
      var (r, ok) := LaunchMove(e, l, op);
      Played(l, r, ok, DISARM + [Must(op)] + [MayRaise("SRL_MASK", 0x400)])
  {
    hide Launch, SetEventOnMotionComplete, Played, Talks, Aimed;
    var (l', ok) := Launch(e, l, op);
    LaunchPlays(e, l, op);
    CompletePlays(e, l');
    Then(l, l', LaunchMove(e, l, op).0, ok, ok, DISARM + [Must(op)], [MayRaise("SRL_MASK", 0x400)]);
  }

  lemma MovePlays(e: Env, w: World, i: nat, pos: int, relative: bool, speed: real, acc: real)
    requires Stands(e, w, i)
    ensures
      var (x, ok) := Move(e, w, i, pos, relative, speed, acc);
      Played(w.lib, x.lib, ok, MoveScript(w.axes[i], pos, relative, speed, acc))
  {
    hide Ready, LaunchMove, Played, Open, Aimed, Released, Started, Power;
    var (w1, ready) := Ready(e, w, i);
    var op := MoveOp(pos, relative, speed, acc);
    ReadyPlays(e, w, i);
    LaunchMovePlays(e, w1.lib, op);
    var (x, ok) := Move(e, w, i, pos, relative, speed, acc);
    Then(w.lib, w1.lib, x.lib, ready, ok, Power(w.axes[i]), DISARM + [Must(op)] + [MayRaise("SRL_MASK", 0x400)]);
  }

  lemma JogPlays(e: Env, w: World, i: nat, speed: real, acc: real)
    requires Stands(e, w, i)
    ensures
      var (x, ok) := MoveVelocity(e, w, i, speed, acc);
      Played(w.lib, x.lib, ok, Power(w.axes[i]) + (DISARM + [Must(MoveVel(speed, acc))]))
  {
    hide Ready, Launch, Played, Open, Aimed, Released, Started, Power;
    var (w1, ready) := Ready(e, w, i);
    ReadyPlays(e, w, i);
    LaunchPlays(e, w1.lib, MoveVel(speed, acc));
    var (x, ok) := MoveVelocity(e, w, i, speed, acc);
    Then(w.lib, w1.lib, x.lib, ready, ok, Power(w.axes[i]), DISARM + [Must(MoveVel(speed, acc))]);
  }

  // ----- Homes -----

  function HomeScript(a: Axis, maxVelocity: real, velo: real, acc: real, forwards: bool): seq<Piece> {
    if maxVelocity == 0.0 && velo <= 0.0 then [Refused]
    else
      Power(a)
      + (DISARM + [Must(Homing(if maxVelocity == 0.0 then velo else maxVelocity, acc, forwards))]
         + [Raise("MER_MASK", if forwards then 0x40 else 0x80)])
  }

  lemma LaunchHomePlays(e: Env, l: Lib, op: Op, forwards: bool)
    requires Aimed(l)
    ensures
      var (r, ok) := LaunchHome(e, l, op, forwards);
      Played(l, r, ok, DISARM + [Must(op)] + [Raise("MER_MASK", if forwards then 0x40 else 0x80)])
  {
    hide Launch, SetEventOnLimitSwitch, Played, Talks, Aimed;
    var (l', first) := Launch(e, l, op);
    LaunchPlays(e, l, op);
    ArmPlays(e, l', forwards);
    var (r, ok) := LaunchHome(e, l, op, forwards);
    Then(l, l', r, first, ok, DISARM + [Must(op)], [Raise("MER_MASK", if forwards then 0x40 else 0x80)]);
  }

  lemma HomePlays(e: Env, w: World, i: nat, maxVelocity: real, velo: real, acc: real, forwards: bool)
    requires Stands(e, w, i)
    ensures
      var (x, ok) := Home(e, w, i, maxVelocity, velo, acc, forwards);
      Played(w.lib, x.lib, ok, HomeScript(w.axes[i], maxVelocity, velo, acc, forwards))
  {
    hide Ready, LaunchHome, HomeMove, Homing, Played, Open, Aimed, HomingStarted, Power;
    if maxVelocity == 0.0 && velo <= 0.0 {
      assert w.lib.sent[|w.lib.sent|..] == [];
      PlayedOne(w.lib, w.lib, Refused);
    } else {
      var (w1, ready) := Ready(e, w, i);
      var op := HomeMove(maxVelocity, velo, acc, forwards);
      HomeMoveIs(maxVelocity, velo, acc, forwards);
      ReadyPlays(e, w, i);
      LaunchHomePlays(e, w1.lib, op, forwards);
      var (x, ok) := Home(e, w, i, maxVelocity, velo, acc, forwards);
      Then(w.lib, w1.lib, x.lib, ready, ok, Power(w.axes[i]),
        DISARM + [Must(op)] + [Raise("MER_MASK", if forwards then 0x40 else 0x80)]);
    }
  }

  lemma ZeroPlays(e: Env, w: World, i: nat)
    requires Stands(e, w, i)
    ensures Played(w.lib, ZeroAtHome(e, w, i).lib, true, [Ask(Sap(0))] + DISARM)
  {
    hide Select, Send, ClearLimitSwitchEvent, Played, Open, Complete, Talks, AtHome;
    SelectSilent(e, w, i);
    var l := Select(e, w, i).0.lib;
    var l' := Send(e, l, Sap(0)).0;
    SendPlays(e, l, Sap(0));
    DisarmPlays(e, l');
    PlayedOn(l, l', ClearLimitSwitchEvent(e, l'), true, [Ask(Sap(0))], DISARM);
    SamePlayed(l, w.lib, ZeroAtHome(e, w, i).lib, true, [Ask(Sap(0))] + DISARM);
  }

  /** Forced homing reads MER; with the switch made it zeroes the position, without it homes. */
  function ForceScript(a: Axis, velo: real, accl: real, found: bool): seq<Piece> {
    [See("MER", if a.cfg.useLsp then 0x40 else 0x80, found)]
    + if found then [Ask(Sap(0))] + DISARM
      else HomeScript(a, if velo > 0.0 then velo else 40.0, velo, if accl > 0.0 then accl else 1.0, a.cfg.useLsp)
  }

  lemma SeePlays(e: Env, l: Lib, lsp: bool)
    requires Aimed(l)
    ensures
      var (r, _, m) := GetVar(e, l, "MER");
      Played(l, r, true, [See("MER", if lsp then 0x40 else 0x80, LimitBit(m, lsp))]) && Aimed(r)
  {
    hide Brought, MemAfter, Plays, Complete;
    AimedKnows(l, "MER");
    var (r, _, m) := GetVar(e, l, "MER");
    TalksKeeps(l, r);
    assert r.sent[|l.sent|..] == [r.sent[|l.sent|]];
    PlayedOne(l, r, See("MER", if lsp then 0x40 else 0x80, LimitBit(m, lsp)));
  }

  lemma ForceHomePlays(e: Env, w: World, i: nat, velo: real, accl: real) returns (found: bool)
    requires Stands(e, w, i)
    ensures
      var (x, ok) := ForceHome(e, w, i, velo, accl);
      Played(w.lib, x.lib, ok, ForceScript(w.axes[i], velo, accl, found)) && (found ==> ok)
  {
    hide Select, GetVar, ZeroAtHome, Home, LimitBit, Played, Open, Aimed, Talks, HomeScript;
    SelectSilent(e, w, i);
    var w1 := Select(e, w, i).0;
    var a := w.axes[i];
    var (l, _, m) := GetVar(e, w1.lib, "MER");
    var w2 := w1.(lib := l);
    found := LimitBit(m, a.cfg.useLsp);
    SeePlays(e, w1.lib, a.cfg.useLsp);
    var see := [See("MER", if a.cfg.useLsp then 0x40 else 0x80, found)];
    SamePlayed(w1.lib, w.lib, l, true, see);
    StaysOpen(e, w1, i, l);
    ZeroPlays(e, w2, i);
    var v, acc := if velo > 0.0 then velo else 40.0, if accl > 0.0 then accl else 1.0;
    HomePlays(e, w2, i, v, velo, acc, a.cfg.useLsp);
    var (x, ok) := ForceHome(e, w, i, velo, accl);
    PlayedOn(w.lib, l, x.lib, ok, see,
      if found then [Ask(Sap(0))] + DISARM else HomeScript(a, v, velo, acc, a.cfg.useLsp));
  }

  lemma StaysOpen(e: Env, w: World, i: nat, l: Lib)
    requires Stands(e, w, i) && Talks(w.lib, l)
    ensures Stands(e, w.(lib := l), i)
  {
    hide Complete;
    SameChannelsKeepsOne(w.lib, l, w.fd);
  }

  // ----- The other commands -----

  lemma StopPlays(e: Env, w: World, i: nat)
    requires Stands(e, w, i)
    ensures
      var (x, ok) := Stop(e, w, i);
      ok && Played(w.lib, x.lib, true, [Ask(Abort)] + if w.axes[i].motion.homing then DISARM else [])
  {
    hide Select, Send, ClearLimitSwitchEvent, Played, Open, Complete, Talks, Halted;
    SelectSilent(e, w, i);
    var l := Select(e, w, i).0.lib;
    var l' := Send(e, l, Abort).0;
    SendPlays(e, l, Abort);
    var x := Stop(e, w, i).0;
    if w.axes[i].motion.homing {
      DisarmPlays(e, l');
      PlayedOn(l, l', x.lib, true, [Ask(Abort)], DISARM);
    } else { assert [Ask(Abort)] + [] == [Ask(Abort)]; }
    SamePlayed(l, w.lib, x.lib, true, [Ask(Abort)] + if w.axes[i].motion.homing then DISARM else []);
  }

  lemma SetPositionPlays(e: Env, w: World, i: nat, pos: int)
    requires Stands(e, w, i)
    ensures
      var (x, ok) := SetPosition(e, w, i, pos);
      Played(w.lib, x.lib, ok, [Must(Sap(pos))])
  {
    hide Select, Send, Played, Open, Complete;
    SelectSilent(e, w, i);
    var l := Select(e, w, i).0.lib;
    SendPlays(e, l, Sap(pos));
    SamePlayed(l, w.lib, Send(e, l, Sap(pos)).0, Send(e, l, Sap(pos)).1.ok, [Must(Sap(pos))]);
  }

  function LoopScript(a: Axis, on: bool): seq<Piece> {
    if on then Power(a) else if a.powered then [Ask(AxisOff)] else []
  }

  lemma ClosedLoopPlays(e: Env, w: World, i: nat, on: bool)
    requires Stands(e, w, i)
    ensures
      var (x, ok) := SetClosedLoop(e, w, i, on);
      Played(w.lib, x.lib, ok, LoopScript(w.axes[i], on))
  {
    hide Select, Send, SwitchOn, Played, Open, Aimed, Powered, Depowered;
    SelectSilent(e, w, i);
    PlayedNothing(w.lib, w.lib);
    var l := Select(e, w, i).0.lib;
    if on {
      SwitchOnPlays(e, l);
      SamePlayed(l, w.lib, SwitchOn(e, l).0, SwitchOn(e, l).1, [PowerUp]);
    } else {
      AimedActive(l);
      SendPlays(e, l, AxisOff);
      SamePlayed(l, w.lib, Send(e, l, AxisOff).0, true, [Ask(AxisOff)]);
    }
  }

  lemma AimedActive(l: Lib)
    requires Aimed(l)
    ensures ActiveChan(l).Some?
  {
  }

  function ParamScript(p: Param): seq<Piece> {
    match p
    case ResetFaultParam => [Ask(Read("MER"))] + [Ask(Write("MER", 0))]
    case SaveEepromParam => []
    case ResetDriveParam => [Ask(Reset)]
    case ClearEncoderParam => [Must(WriteLong("APOS", 0))]
    case ClearStepsParam => [Must(WriteLong("TPOS", 0))]
  }

  lemma CarryPlays(e: Env, l: Lib, p: Param)
    requires Aimed(l)
    ensures
      var (r, ok) := Supervisor.Carry(e, l, p);
      Played(l, r, ok, ParamScript(p))
  {
    hide Send, SetLong, Played, Talks;
    PlayedNothing(l, l);
    AimedKnows(l, "APOS");
    AimedKnows(l, "TPOS");
    match p
    case ResetFaultParam =>
      SendPlays(e, l, Read("MER"));
      var l' := Send(e, l, Read("MER")).0;
      SendPlays(e, l', Write("MER", 0));
      PlayedOn(l, l', Send(e, l', Write("MER", 0)).0, true, [Ask(Read("MER"))], [Ask(Write("MER", 0))]);
    case SaveEepromParam =>
    case ResetDriveParam => SendPlays(e, l, Reset);
    case ClearEncoderParam => SetPlays(e, l, "APOS", 0);
    case ClearStepsParam => SetPlays(e, l, "TPOS", 0);
  }

  lemma ParamPlays(e: Env, w: World, i: nat, p: Param)
    requires Stands(e, w, i)
    ensures
      var (x, ok) := WriteParam(e, w, i, p);
      Played(w.lib, x.lib, ok, ParamScript(p))
  {
    hide Select, Supervisor.Carry, Played, Open, Aimed, ParamScript;
    SelectSilent(e, w, i);
    var l := Select(e, w, i).0.lib;
    CarryPlays(e, l, p);
    SamePlayed(l, w.lib, Supervisor.Carry(e, l, p).0, Supervisor.Carry(e, l, p).1, ParamScript(p));
  }

  // ----- Initialising -----

  /** ENDINIT; MER and MER_MASK for display; SCR if it is configured; the limits to be ignored. */
  function InitScript(c: Config): seq<Piece> {
    [EndInits]
    + ([Ask(Read("MER"))] + [Ask(Read("MER_MASK"))]
       + (if c.scr != 0 then [Ask(Write("SCR", c.scr))] + [Ask(Read("APOS"))] else [])
       + (if c.ignoreLsp || c.ignoreLsn then [Ignore(c.ignoreLsp, c.ignoreLsn)] else []))
  }

  lemma EndInitPlays(e: Env, l: Lib, id: byte)
    requires Addressed(l, id)
    ensures
      var (r, ok) := DriveInitialisation(e, l, ENDINIT_TRIES);
      Played(l, r, ok, [EndInits]) && ActiveChan(r) == ActiveChan(l)
  {
    hide DriveInitialisation, Plays, Talks;
    var (r, ok) := DriveInitialisation(e, l, ENDINIT_TRIES);
    var count := EndInitsSent(e, l, id, ENDINIT_TRIES);
    TalksKeeps(l, r);
    var cs := r.sent[|l.sent|..];
    forall k | 0 <= k < |cs| ensures cs[k].op == EndInit && cs[k].ok == (ok && k == |cs| - 1) {
      assert cs[k] == r.sent[|l.sent| + k];
    }
    PlayedOne(l, r, EndInits);
  }

  lemma IgnorePlays(e: Env, l: Lib, lsp: bool, lsn: bool)
    requires Aimed(l)
    ensures Played(l, DisableLimitProtection(e, l, lsp, lsn), true, [Ignore(lsp, lsn)])
  {
    hide Fetch, Send, ClearBits, Cleared, Plays, Less, Talks, Complete, UnsetDone;
    var (l1, m) := Fetch(e, l, "MER_MASK");
    LessIs(m, lsp, lsn);
    FetchIs(e, l, "MER_MASK");
    var (l2, a) := Send(e, l1, Write("MER_MASK", Cleared(m, lsp, lsn)));
    SentOne(e, l1, Write("MER_MASK", Cleared(m, lsp, lsn)));
    var r := DisableLimitProtection(e, l, lsp, lsn);
    if a.ok { UnsetIs(e, l2, "MER", lsp, lsn); }
    var cs := r.sent[|l.sent|..];
    assert cs[0] == l1.sent[|l.sent|] && cs[1] == l2.sent[|l1.sent|];
    assert cs[2..] == r.sent[|l2.sent|..];
    PlayedOne(l, r, Ignore(lsp, lsn));
  }

  lemma SentOne(e: Env, l: Lib, op: Op)
    requires ActiveChan(l).Some?
    ensures
      var (r, a) := Send(e, l, op);
      && |r.sent| == |l.sent| + 1 && l.sent <= r.sent && ActiveChan(r) == ActiveChan(l)
      && r.sent[|l.sent|].op == op && r.sent[|l.sent|].ok == a.ok
  {
    hide Brought, MemAfter;
    TalksKeeps(l, Send(e, l, op).0);
  }

  lemma SettlePlays(e: Env, l: Lib, a: Axis)
    requires Aimed(l)
    ensures Played(l, AfterEndInit(e, l, a), true, InitScript(a.cfg)[1..])
  {
    hide GetVar, SetVar, DisableLimitProtection, Played, Talks, Aimed;
    var c := a.cfg;
    var l1 := ReadAll(e, l, ["MER", "MER_MASK"]);
    TwoReadsPlay(e, l, "MER", "MER_MASK");
    StillAimed(l, l1);
    var l' := SetVar(e, l1, "SCR", c.scr).0;
    var l2 := if c.scr != 0 then GetVar(e, l', "APOS").0 else l1;
    var scr := if c.scr != 0 then [Ask(Write("SCR", c.scr))] + [Ask(Read("APOS"))] else [];
    StorePlays(e, l1, c.scr);
    PlayedNothing(l1, l1);
    var looks := [Ask(Read("MER"))] + [Ask(Read("MER_MASK"))];
    PlayedOn(l, l1, l2, true, looks, scr);
    IgnorePlays(e, l2, c.ignoreLsp, c.ignoreLsn);
    PlayedNothing(l2, l2);
    var rest := if c.ignoreLsp || c.ignoreLsn then [Ignore(c.ignoreLsp, c.ignoreLsn)] else [];
    PlayedOn(l, l2, AfterEndInit(e, l, a), true, looks + scr, rest);
    assert InitScript(c)[1..] == looks + scr + rest;
  }

  lemma ReadPlays(e: Env, l: Lib, name: string)
    requires Aimed(l) && name in DEFAULTS
    ensures Played(l, GetVar(e, l, name).0, true, [Ask(Read(name))]) && Aimed(GetVar(e, l, name).0)
  {
    hide GetVar, Played, Complete;
    AimedKnows(l, name);
    VarPlays(e, l, name);
  }

  lemma TwoReadsPlay(e: Env, l: Lib, a: string, b: string)
    requires Aimed(l) && a in DEFAULTS && b in DEFAULTS
    ensures Played(l, ReadAll(e, l, [a, b]), true, [Ask(Read(a))] + [Ask(Read(b))])
  {
    hide GetVar, Played, Aimed, Talks;
    ReadPlays(e, l, a);
    var l' := GetVar(e, l, a).0;
    ReadPlays(e, l', b);
    assert [a, b][1..] == [b] && [b][1..] == [];
    assert ReadAll(e, l, [a, b]) == ReadAll(e, l', [b]);
    assert ReadAll(e, l', [b]) == GetVar(e, l', b).0;
    PlayedOn(l, l', GetVar(e, l', b).0, true, [Ask(Read(a))], [Ask(Read(b))]);
  }

  lemma StorePlays(e: Env, l: Lib, v: word)
    requires Aimed(l)
    ensures
      var l' := SetVar(e, l, "SCR", v).0;
      Played(l, GetVar(e, l', "APOS").0, true, [Ask(Write("SCR", v))] + [Ask(Read("APOS"))])
      && Aimed(GetVar(e, l', "APOS").0)
  {
    hide Send, GetVar, Played, Complete, Talks;
    AimedKnows(l, "SCR");
    SendPlays(e, l, Write("SCR", v));
    var l' := SetVar(e, l, "SCR", v).0;
    ReadPlays(e, l', "APOS");
    PlayedOn(l, l', GetVar(e, l', "APOS").0, true, [Ask(Write("SCR", v))], [Ask(Read("APOS"))]);
  }

  /** A setup is in hand, or a slot is free to load one. */
  predicate Supplied(l: Lib, a: Axis) {
    if a.setupIdx < 0 then FreeSlot(l.tab.setups, 0).Some? else SetupLoaded(l, a.setupIdx)
  }

  lemma BringUpPlays(e: Env, l: Lib, id: byte, idx: int)
    requires e.native && Aimed(l) && SetupLoaded(l, idx)
    ensures
      var (r, ok) := BringUp(e, l, id, idx);
      Played(l, r, ok, [EndInits]) && Aimed(r)
  {
    hide DriveInitialisation, Played, Talks;
    var l1 := SetupAxis(e, l, id, idx).0;
    var l2 := SelectAxis(e, l1, id).0;
    assert Addressed(l2, id) && Aimed(l2);
    EndInitPlays(e, l2, id);
    SamePlayed(l2, l, DriveInitialisation(e, l2, ENDINIT_TRIES).0, DriveInitialisation(e, l2, ENDINIT_TRIES).1,
      [EndInits]);
  }

  /** Initialising sends nothing if there is no setup to be had, and otherwise its script, which
      comes to its end exactly if ENDINIT is acknowledged. */
  lemma ReinitPlays(e: Env, l: Lib, a: Axis)
    requires e.native && Aimed(l) && (a.setupIdx >= 0 ==> SetupLoaded(l, a.setupIdx))
    ensures
      var (r, _, ok) := Reinit(e, l, a);
      if Supplied(l, a) then Played(l, r, ok, InitScript(a.cfg)) else r.sent == l.sent && !ok
  {
    hide BringUp, AfterEndInit, Played, Talks, Complete;
    var (l1, idx) := Hold(e, l, a);
    if Supplied(l, a) {
      assert SetupLoaded(l1, idx) && Aimed(l1);
      BringUpPlays(e, l1, a.cfg.id, idx);
      var (l2, first) := BringUp(e, l1, a.cfg.id, idx);
      SamePlayed(l1, l, l2, first, [EndInits]);
      SettlePlays(e, l2, a);
      var (r, _, ok) := Reinit(e, l, a);
      Then(l, l2, r, first, ok, [EndInits], InitScript(a.cfg)[1..]);
      assert [EndInits] + InitScript(a.cfg)[1..] == InitScript(a.cfg);
    }
  }

  lemma ConfigurePlays(e: Env, w: World, i: nat, c: Config)
    requires Open(e, w) && i < |w.axes| && (w.axes[i].setupIdx >= 0 ==> SetupLoaded(w.lib, w.axes[i].setupIdx))
    ensures
      var x := Configure(e, w, i, c);
      if Supplied(w.lib, w.axes[i]) then Played(w.lib, x.lib, !x.axes[i].needsReinit, InitScript(c))
      else x.lib.sent == w.lib.sent && x.axes[i].needsReinit
  {
    hide Reinit, Configured, FirstTried, Connected, Played, InitScript, SelectChannel;
    var a, l := Configured(w.axes[i], c), SelectChannel(e, w.lib, w.fd).0;
    SelectedAims(e, w);
    ConfiguredAxis(w.axes[i], c, -1, true);
    ReinitPlays(e, l, a);
    ConfiguredAxis(w.axes[i], c, Reinit(e, l, a).1.setupIdx, Reinit(e, l, a).2);
    if Supplied(w.lib, w.axes[i]) { SamePlayed(l, w.lib, Reinit(e, l, a).0, Reinit(e, l, a).2, InitScript(c)); }
  }

  lemma SelectedAims(e: Env, w: World)
    requires Open(e, w)
    ensures
      var l := SelectChannel(e, w.lib, w.fd).0;
      l.tab == w.lib.tab && l.sent == w.lib.sent && Aimed(l)
  {
    hide Complete;
    SelectTheOne(e, w.lib, w.fd);
    OneChannelIsInOrder(w.lib, w.fd);
  }

  // ----- Polls -----

  const STATUS := [Ask(Read("TPOS"))] + [Ask(Read("APOS"))] + [Ask(Read("SRL"))] + [Ask(Read("MER"))] + [Peeks]

  lemma {:induction false} ReadAllPeeks(e: Env, l: Lib, names: seq<string>)
    ensures
      var r := ReadAll(e, l, names);
      l.sent <= r.sent && forall k :: |l.sent| <= k < |r.sent| ==> r.sent[k].op.Read?
    decreases |names|
  {
    hide GetVar, Talks;
    if names != [] {
      var l' := GetVar(e, l, names[0]).0;
      OnlyARead(e, l, names[0]);
      ReadAllPeeks(e, l', names[1..]);
      var r := ReadAll(e, l, names);
      forall k | |l.sent| <= k < |r.sent| ensures r.sent[k].op.Read? {
        if k < |l'.sent| { assert r.sent[k] == l'.sent[k]; }
      }
    }
  }

  lemma OnlyARead(e: Env, l: Lib, name: string)
    ensures
      var r := GetVar(e, l, name).0;
      l.sent <= r.sent && forall k :: |l.sent| <= k < |r.sent| ==> r.sent[k].op.Read?
  {
    hide Brought, MemAfter;
  }

  lemma StatusPlays(e: Env, l: Lib, polls: nat)
    requires Aimed(l)
    ensures Played(l, ReadStatus(e, l, polls).0, true, STATUS)
  {
    hide GetVar, ReadAll, Faulty, Plays, Played, Aimed, Talks;
    var l1 := GetVar(e, l, "TPOS").0;
    ReadPlays(e, l, "TPOS");
    var l2 := GetVar(e, l1, "APOS").0;
    ReadPlays(e, l1, "APOS");
    var (l3, _, srl) := GetVar(e, l2, "SRL");
    ReadPlays(e, l2, "SRL");
    var l4 := GetVar(e, l3, "MER").0;
    ReadPlays(e, l3, "MER");
    var names := (if Faulty(srl) then ["SRH"] else []) + (if polls % 10 == 0 then SLOW_READS else []);
    var r := ReadAll(e, l4, names);
    ReadAllPeeks(e, l4, names);
    PeeksAre(l4, r);
    PlayedOn(l, l1, l2, true, [Ask(Read("TPOS"))], [Ask(Read("APOS"))]);
    PlayedOn(l, l2, l3, true, [Ask(Read("TPOS"))] + [Ask(Read("APOS"))], [Ask(Read("SRL"))]);
    PlayedOn(l, l3, l4, true, [Ask(Read("TPOS"))] + [Ask(Read("APOS"))] + [Ask(Read("SRL"))], [Ask(Read("MER"))]);
    PlayedOn(l, l4, r, true, STATUS[..4], [Peeks]);
    assert STATUS == STATUS[..4] + [Peeks];
  }

  lemma PeeksAre(l: Lib, r: Lib)
    requires l.sent <= r.sent && forall k :: |l.sent| <= k < |r.sent| ==> r.sent[k].op.Read?
    ensures Played(l, r, true, [Peeks])
  {
    hide Plays;
    PlayedOne(l, r, Peeks);
  }

  /** The registers are read; if that ends a home, the position is zeroed and the event disarmed. */
  function WatchScript(over: bool): seq<Piece> { STATUS + if over then [Ask(Sap(0))] + DISARM else [] }

  predicate Over(a: Axis, b: Axis) { a.motion.homing && !b.motion.homing }

  lemma ObservePlays(e: Env, w: World, i: nat)
    requires Stands(e, w, i)
    ensures
      var x := Observe(e, w, i).0;
      Played(w.lib, x.lib, true, WatchScript(Over(w.axes[i], x.axes[i])))
  {
    hide Select, ReadStatus, Observed, Reached, ZeroAtHome, Played, Open, Aimed, Talks;
    SelectSilent(e, w, i);
    var w1 := Select(e, w, i).0;
    var (l, r) := ReadStatus(e, w1.lib, w1.axes[i].polls);
    var a := Observed(w1.axes[i], r);
    StatusPlays(e, w1.lib, w1.axes[i].polls);
    SamePlayed(w1.lib, w.lib, l, true, STATUS);
    ObservedHoming(w1.axes[i], r);
    var w2 := Talked(w1, i, l, a);
    TalkedOpen(e, w1, i, l, a);
    if r.ok && Reached(a.motion, r.mer) {
      ReachedHomes(a.motion, r.mer);
      ZeroPlays(e, w2, i);
      ZeroEnds(e, w2, i);
      PlayedOn(w.lib, l, ZeroAtHome(e, w2, i).lib, true, STATUS, [Ask(Sap(0))] + DISARM);
    } else { assert STATUS + [] == STATUS; }
  }

  lemma ReachedHomes(p: Motion, mer: word)
    ensures Reached(p, mer) ==> p.homing
  {
  }

  lemma ZeroEnds(e: Env, w: World, i: nat)
    requires i < |w.axes|
    ensures !ZeroAtHome(e, w, i).axes[i].motion.homing
  {
    hide Select, ZeroPosition;
    AtHomeNotHoming(Select(e, w, i).0.axes[i]);
  }

  lemma TalkedOpen(e: Env, w: World, i: nat, l: Lib, a: Axis)
    requires Stands(e, w, i) && Talks(w.lib, l) && a.configured
    ensures Stands(e, Talked(w, i, l, a), i)
  {
    hide Complete;
    SameChannelsKeepsOne(w.lib, l, w.fd);
  }

  /** A poll of an axis that waits for its initialisation, and one of an axis that does not. */
  ghost predicate PollActs(w: World, x: World, a: Axis, b: Axis) {
    if !a.needsReinit then Played(w.lib, x.lib, true, WatchScript(Over(a, b)))
    else if a.countdown > 0 || !Supplied(w.lib, a) then x.lib.sent == w.lib.sent && b.needsReinit
    else if b.needsReinit then Played(w.lib, x.lib, false, InitScript(a.cfg))
    else Played(w.lib, x.lib, true, InitScript(a.cfg) + WatchScript(Over(a, b)))
  }

  lemma PollPlays(e: Env, w: World, i: nat)
    requires Stands(e, w, i) && (w.axes[i].setupIdx >= 0 ==> SetupLoaded(w.lib, w.axes[i].setupIdx))
    ensures
      var x := Poll(e, w, i).0;
      PollActs(w, x, w.axes[i], x.axes[i])
  {
    hide PollReinit, Observe, Played, InitScript, WatchScript, Supplied, Connected, Complete, SetupLoaded;
    var a := w.axes[i];
    var (w1, go) := PollReinit(e, w, i);
    if !a.needsReinit {
      NotFlagged(e, w, i);
      ObservePlays(e, w, i);
    } else {
      PollReinitPlays(e, w, i);
      if go {
        ObservePlays(e, w1, i);
        ObserveCounters(e, w1, i);
        var x := Observe(e, w1, i).0;
        PlayedOn(w.lib, w1.lib, x.lib, true, InitScript(a.cfg), WatchScript(Over(a, x.axes[i])));
      }
    }
  }

  lemma NotFlagged(e: Env, w: World, i: nat)
    requires i < |w.axes| && !w.axes[i].needsReinit
    ensures PollReinit(e, w, i) == (w, true)
  {
  }

  lemma PollReinitPlays(e: Env, w: World, i: nat)
    requires Stands(e, w, i) && (w.axes[i].setupIdx >= 0 ==> SetupLoaded(w.lib, w.axes[i].setupIdx))
    requires w.axes[i].needsReinit
    ensures
      var (x, go) := PollReinit(e, w, i);
      var a, b := w.axes[i], x.axes[i];
      && b.motion == a.motion && b.needsReinit == !go
      && (if a.countdown > 0 || !Supplied(w.lib, a) then x.lib.sent == w.lib.sent && !go
          else Played(w.lib, x.lib, go, InitScript(a.cfg)))
      && (go ==> Stands(e, x, i))
  {
    hide Reinit, BackedOff, Restored, CountedDown, Played, InitScript, SelectChannel, Connected, Supplied, Complete;
    var a, l := w.axes[i], SelectChannel(e, w.lib, w.fd).0;
    WaitingAxis(a);
    PollReinitEffect(e, w, i);
    if a.countdown == 0 {
      SelectedAims(e, w);
      SuppliedAlike(w.lib, l, a);
      ReinitPlays(e, l, a);
      var (r, a', ok) := Reinit(e, l, a);
      FailedAxis(a, a'.setupIdx);
      RestoredAxis(a, a'.setupIdx);
      PollKeepsConnected(e, w, i);
      if Supplied(l, a) { SamePlayed(l, w.lib, r, ok, InitScript(a.cfg)); }
      if ok { StillComplete(e, l, a); }
    }
  }

  lemma SuppliedAlike(l: Lib, r: Lib, a: Axis)
    requires r.tab == l.tab
    ensures Supplied(r, a) <==> Supplied(l, a)
  {
  }

  lemma StillComplete(e: Env, l: Lib, a: Axis)
    requires Aimed(l)
    ensures
      var r := Reinit(e, l, a).0;
      ActiveChan(r).Some? ==> Complete(ActiveChan(r).value.vars)
  {
    hide AfterEndInit, DriveInitialisation, Talks;
    var (l1, idx) := Hold(e, l, a);
    if idx >= 0 {
      var l2 := SetupAxis(e, l1, a.cfg.id, idx).0;
      var l3 := SelectAxis(e, l2, a.cfg.id).0;
      var l4 := DriveInitialisation(e, l3, ENDINIT_TRIES).0;
      TalksKeeps(l3, l4);
      TalksKeeps(l4, AfterEndInit(e, l4, a));
    }
  }

  // ----- Main result -----

  /** What call c, made in world w and ending in x with this result, has sent. */
  ghost predicate InScript(w: World, c: Cmd, x: World, ok: bool)
    requires !c.CtrlPoll? && c.i < |w.axes| == |x.axes|
  {
    var a, b := w.axes[c.i], x.axes[c.i];
    if c.DoConfigure? then
      (if Supplied(w.lib, a) then Played(w.lib, x.lib, !b.needsReinit, InitScript(c.c))
       else x.lib.sent == w.lib.sent && b.needsReinit)
    else if !a.configured then x.lib.sent == w.lib.sent
    else
      match c
      case DoPoll(_) => PollActs(w, x, a, b)
      case DoMove(_, pos, relative, speed, acc) => Played(w.lib, x.lib, ok, MoveScript(a, pos, relative, speed, acc))
      case DoJog(_, speed, acc) => Played(w.lib, x.lib, ok, Power(a) + (DISARM + [Must(MoveVel(speed, acc))]))
      case DoHome(_, v, velo, acc, forwards) => Played(w.lib, x.lib, ok, HomeScript(a, v, velo, acc, forwards))
      case DoForceHome(_, velo, accl) =>
        exists found :: Played(w.lib, x.lib, ok, ForceScript(a, velo, accl, found)) && (found ==> ok)
      case DoStop(_) => ok && Played(w.lib, x.lib, true, [Ask(Abort)] + if a.motion.homing then DISARM else [])
      case DoSetPosition(_, pos) => Played(w.lib, x.lib, ok, [Must(Sap(pos))])
      case DoClosedLoop(_, on) => Played(w.lib, x.lib, ok, LoopScript(a, on))
      case DoParam(_, p) => Played(w.lib, x.lib, ok, ParamScript(p))
  }

  lemma StepPlays(e: Env, w: World, c: Cmd)
    requires Open(e, w) && !c.CtrlPoll? && c.i < |w.axes|
    requires w.axes[c.i].setupIdx >= 0 ==> SetupLoaded(w.lib, w.axes[c.i].setupIdx)
    ensures InScript(w, c, Step(e, w, c).0, Step(e, w, c).1)
  {
    hide Poll, Configure, Move, MoveVelocity, Home, ForceHome, Stop, SetPosition, SetClosedLoop, WriteParam, Played,
      Open, PollActs, Supplied, SetupLoaded, MoveScript, HomeScript, ForceScript, InitScript;
    if c.DoConfigure? { ConfigurePlays(e, w, c.i, c.c); }
    else if !w.axes[c.i].configured { Nothing(e, w, c); }
    else {
      match c
      case DoPoll(i) => PollPlays(e, w, i);
      case DoMove(i, pos, relative, speed, acc) => MovePlays(e, w, i, pos, relative, speed, acc);
      case DoJog(i, speed, acc) => JogPlays(e, w, i, speed, acc);
      case DoHome(i, v, velo, acc, forwards) => HomePlays(e, w, i, v, velo, acc, forwards);
      case DoForceHome(i, velo, accl) => var found := ForceHomePlays(e, w, i, velo, accl);
      case DoStop(i) => StopPlays(e, w, i);
      case DoSetPosition(i, pos) => SetPositionPlays(e, w, i, pos);
      case DoClosedLoop(i, on) => ClosedLoopPlays(e, w, i, on);
      case DoParam(i, p) => ParamPlays(e, w, i, p);
    }
  }

  lemma Nothing(e: Env, w: World, c: Cmd)
    requires !c.CtrlPoll? && !c.DoConfigure? && c.i < |w.axes| && !w.axes[c.i].configured
    requires Open(e, w)
    ensures Step(e, w, c).0.lib.sent == w.lib.sent
  {
    hide Step, Open;
    Ignored(e, w, c);
  }

  lemma CompleteHandedOn(e: Env)
    ensures HandedOn(e, Complete)
  {
  }

  lemma HeldIsLoaded(w: World, i: nat)
    requires Conserved(w) && i < |w.axes| && w.axes[i].setupIdx >= 0
    ensures SetupLoaded(w.lib, w.axes[i].setupIdx)
  {
    hide Budget, Opened;
  }

  /** In every native run, with the channel open: what a call sends, from its first call on to its
      last, is its script - all of it if the call reports success, and if it fails up to the first
      piece that failed. */
  lemma EveryCallPlaysItsScript(e: Env, n: nat, mem: map<byte, Mem>, cs: seq<Cmd>, c: Cmd)
    requires e.native && !c.CtrlPoll? && c.i < n && Run(e, Boot(e, n, mem), cs).fd >= 0
    ensures
      var w := Later(Run(e, Boot(e, n, mem), cs));
      InScript(w, c, Step(e, w, c).0, Step(e, w, c).1)
  {
    hide Run, Boot, Step, Conserved, InScript, SetupLoaded, HandedOn, Connected;
    var v := Run(e, Boot(e, n, mem), cs);
    AlwaysConnected(e, n, mem, cs);
    AlwaysConserved(e, n, mem, cs);
    CompleteHandedOn(e);
    MapsInRuns(e, Complete, n, mem, cs);
    LaterOpen(e, v);
    if v.axes[c.i].setupIdx >= 0 {
      HeldIsLoaded(v, c.i);
      StillLoaded(v, v.axes[c.i].setupIdx);
    }
    StepPlays(e, Later(v), c);
  }

  lemma LaterOpen(e: Env, w: World)
    requires e.native && Connected(w) && w.fd >= 0 && AllMaps(Complete, w.lib)
    ensures Open(e, Later(w))
  {
    hide Complete;
    SameChannelsKeepsOne(w.lib, Tick(w.lib), w.fd);
  }

  lemma StillLoaded(w: World, idx: int)
    requires SetupLoaded(w.lib, idx)
    ensures SetupLoaded(Later(w).lib, idx)
  {
  }
}
