/** The controller and its axes: what each call on them does.

    A World is everything one controller owns - the shared channel, the clock reading of its
    last reconnect, the axes - and the library state behind it. Every public call is one
    step, held under the controller's lock from beginning to end. */
module Supervisor {
  import opened Codec
  import opened Masks
  import opened TmlLib

  const ENSURE_PERIOD: real := 10.0
  const COOLDOWN: real := 3.0
  const SELECT_TRIES := 3
  const POWER_POLLS := 50
  const MAX_BACKOFF := 30

  /** SRL and MER bits the driver looks at. */
  predicate MotionComplete(srl: word) { srl / 0x0400 % 2 == 1 }
  predicate AxisIsOn(srl: word) { srl / 0x8000 % 2 == 1 }
  predicate Faulty(srl: word) { srl / 0x0100 % 4 != 0 }
  predicate AtHomeSwitch(mer: word) { mer / 0x0100 % 2 == 1 }

  /** What TmlAxisConfig says about an axis. */
  datatype Config = Config(id: byte, file: string, useLsp: bool, ignoreLsp: bool, ignoreLsn: bool, scr: word)

  /** The driver's idea of the motion, and the flags about it that it publishes. */
  datatype Motion = Motion(stopping: bool, homing: bool, moveSeen: bool, towardLsp: bool, done: bool, moving: bool,
    homed: bool)

  /** TmlAxis: configuration, driver state, and the flags it publishes. */
  datatype Axis = Axis(
    cfg: Config, configured: bool, setupIdx: int, needsReinit: bool, countdown: nat, backoff: nat, polls: nat,
    activated: bool, powered: bool, motion: Motion, atHome: bool, commsError: bool, active: bool)

  const NEW_AXIS := Axis(Config(0, "", false, false, false, 0), false, -1, false, 0, 1, 0, false, false,
                         Motion(false, false, false, false, false, false, false), false, false, false)

  /** A reconnect given up because the channel just opened could not be selected leaves the
      axes unflagged. `stale` are the axes that were left so on the channel now open and have
      been neither initialised nor flagged since; `orphans` counts such reconnects. */
  datatype World = World(fd: int, last: real, lib: Lib, axes: seq<Axis>, stale: set<nat>, orphans: nat)

  function Now(e: Env, l: Lib): real { e.clock(l.t) }

  function With(w: World, i: nat, a: Axis): World
    requires i < |w.axes|
  {
    w.(axes := w.axes[i := a])
  }

  /** Axis i has been initialised or flagged. */
  function Renewed(w: World, i: nat): World { w.(stale := w.stale - {i}) }

  /** The library moved on to l, and axis i became a. */
  function Talked(w: World, i: nat, l: Lib, a: Axis): (r: World)
    requires i < |w.axes|
    ensures |r.axes| == |w.axes|
  {
    w.(lib := l, axes := w.axes[i := a])
  }

  // ----- Start -----

  /** The constructor opens the channel; whether it worked or not, the clock is noted after it.
      The reading before it only dates the attempt in the record of openings. */
  function Boot(e: Env, n: nat, mem: map<byte, Mem>): (r: World)
    ensures |r.axes| == n
  {
    var l := EmptyLib(mem);
    var (l', fd) := OpenChannel(e, Tick(l), Now(e, l));
    World(fd, Now(e, l'), Tick(l'), seq(n, _ => NEW_AXIS), {}, 0)
  }

  // ----- The controller's own reconnect -----

  /** The axis must set itself up again on the new channel. */
  function Flagged(a: Axis): Axis {
    a.(setupIdx := -1, needsReinit := true, countdown := 0, backoff := 1,
       activated := false, powered := false, motion := a.motion.(stopping := false))
  }

  function FlaggedUnless(a: Axis, spared: bool, publish: bool): Axis {
    if !a.configured || spared then a else if publish then Flagged(a).(active := false) else Flagged(a)
  }

  /** Every configured axis but `except` is flagged; `publish` also takes TML_ACTIVE down. */
  function FlagAll(axes: seq<Axis>, except: int, publish: bool): (r: seq<Axis>)
    ensures |r| == |axes|
    ensures forall j :: 0 <= j < |axes| ==> r[j] == FlaggedUnless(axes[j], j == except, publish)
  {
    seq(|axes|, j requires 0 <= j < |axes| => FlaggedUnless(axes[j], j == except, publish))
  }

  /** A time stamp in the first second of the epoch counts as none. */
  predicate Recent(now: real, last: real, period: real) { last >= 1.0 && now - last < period }

  function EnsureChannel(e: Env, w: World): (r: (World, bool))
    ensures |r.0.axes| == |w.axes|
  {
    if w.fd >= 0 then (w, true)
    else
      var now, l := Now(e, w.lib), Tick(w.lib);
      if Recent(now, w.last, ENSURE_PERIOD) then (w.(lib := l), false)
      else
        var (l', fd) := OpenChannel(e, l, now);
        if fd < 0 then (w.(lib := l', last := now), false)
        else (w.(lib := StartedOver(l'), last := now, fd := fd, axes := FlagAll(w.axes, -1, false), stale := {}), true)
  }

  // ----- Initialising an axis -----

  /** Variables read one after the other, for display only. */
  function ReadAll(e: Env, l: Lib, names: seq<string>): (r: Lib)
    ensures Talks(l, r) && r.mem == l.mem
    decreases |names|
  {
    if names == [] then l
    else
      var l' := GetVar(e, l, names[0]).0;
      var r := ReadAll(e, l', names[1..]);
      assert Talks(l, r) by { TalksOn(l, l', r); }
      r
  }

  /** What follows a successful ENDINIT; none of it can fail the initialisation. */
  function AfterEndInit(e: Env, l: Lib, a: Axis): (r: Lib)
    ensures Talks(l, r)
  {
    var l1 := ReadAll(e, l, ["MER", "MER_MASK"]);
    var l2 := if a.cfg.scr != 0 then GetVar(e, SetVar(e, l1, "SCR", a.cfg.scr).0, "APOS").0 else l1;
    var r := if a.cfg.ignoreLsp || a.cfg.ignoreLsn then DisableLimitProtection(e, l2, a.cfg.ignoreLsp, a.cfg.ignoreLsn)
      else l2;
    assert Talks(l, r) by {
      if a.cfg.scr != 0 { TalksOn(l1, SetVar(e, l1, "SCR", a.cfg.scr).0, l2); TalksOn(l, l1, l2); }
      if a.cfg.ignoreLsp || a.cfg.ignoreLsn { TalksOn(l, l2, r); }
    }
    r
  }

  /** SetupAxis, SelectAxis, ENDINIT. */
  function BringUp(e: Env, l: Lib, id: byte, idx: int): (r: (Lib, bool)) {
    var (l1, ok1) := SetupAxis(e, l, id, idx);
    if !ok1 then (l1, false)
    else
      var (l2, ok2) := SelectAxis(e, l1, id);
      if !ok2 then (l2, false) else DriveInitialisation(e, l2, ENDINIT_TRIES)
  }

  function SetUp(e: Env, l: Lib, a: Axis, idx: int): (r: (Lib, bool)) {
    var (l', ok) := BringUp(e, l, a.cfg.id, idx);
    (if ok then AfterEndInit(e, l', a) else l', ok)
  }

  /** The setup the axis holds, or a newly loaded one. */
  function Hold(e: Env, l: Lib, a: Axis): (r: (Lib, int)) {
    if a.setupIdx < 0 then LoadSetup(e, l, a.cfg.file) else (l, a.setupIdx)
  }

  /** A setup is loaded unless the axis still holds one; then the axis is set up with it. */
  function Reinit(e: Env, l: Lib, a: Axis): (r: (Lib, Axis, bool))
    ensures r.1 == a.(setupIdx := r.1.setupIdx)
  {
    var (l1, idx) := Hold(e, l, a);
    if idx < 0 then (l1, a.(setupIdx := idx), false)
    else var (l2, ok) := SetUp(e, l1, a, idx); (l2, a.(setupIdx := idx), ok)
  }

  // ----- Selecting an axis, with its three tiers -----

  function TrySelect(e: Env, l: Lib, fd: int, tries: nat): (r: (Lib, bool))
    ensures r.0 == l.(t := r.0.t, tab := l.tab.(active := r.0.tab.active)) && r.0.t >= l.t
    ensures !r.1 ==> r.0.tab == l.tab
    decreases tries
  {
    if tries == 0 then (l, false)
    else
      var (l', ok) := SelectChannel(e, l, fd);
      if ok then (l', true) else TrySelect(e, l', fd, tries - 1)
  }

  /** This axis after its own re-initialisation on a new channel. */
  function Recovered(a: Axis, ok: bool): Axis {
    if ok then a.(powered := false, motion := a.motion.(stopping := false), needsReinit := false, activated := true,
      active := true)
    else a.(activated := false, powered := false, needsReinit := true, countdown := 1, backoff := 1, active := false)
  }

  /** The axes that take themselves to be initialised. */
  function Unflagged(axes: seq<Axis>): set<nat> {
    set j: nat | j < |axes| && axes[j].configured && !axes[j].needsReinit
  }

  /** On a channel just opened: select it, flag the others, set this one up. */
  function Resume(e: Env, w: World, i: nat): (r: (World, bool))
    requires i < |w.axes|
    ensures |r.0.axes| == |w.axes|
  {
    var (l, ok) := SelectChannel(e, w.lib, w.fd);
    if !ok then (w.(lib := l, stale := Unflagged(w.axes), orphans := w.orphans + 1), false)
    else
      var (l', a, done) := Reinit(e, StartedOver(l), w.axes[i].(setupIdx := -1));
      (w.(lib := l', axes := FlagAll(w.axes, i, true)[i := Recovered(a, done)], stale := {}), done)
  }

  /** Tier 3. `now` is the reading that got past the cooldown. */
  function Reconnect(e: Env, w: World, i: nat, now: real): (r: (World, bool))
    requires i < |w.axes|
    ensures |r.0.axes| == |w.axes|
  {
    var (l, fd) := OpenChannel(e, CloseChannel(w.lib, w.fd), now);
    var w1 := w.(fd := if fd < 0 then -1 else fd, last := Now(e, l), lib := Tick(l));
    if fd < 0 then (w1, false) else Resume(e, w1, i)
  }

  /** The library has lost this axis's setup. */
  function Lost(a: Axis): Axis { a.(needsReinit := true, activated := false, countdown := 0, backoff := 1) }

  function Select(e: Env, w: World, i: nat): (r: (World, bool))
    requires i < |w.axes|
    ensures |r.0.axes| == |w.axes|
  {
    var a := w.axes[i];
    if !a.configured || w.fd < 0 then (w, false)
    else
      var (l, ok) := TrySelect(e, w.lib, w.fd, SELECT_TRIES);
      if !ok then
        var now := Now(e, l);
        if Recent(now, w.last, COOLDOWN) then (w.(lib := Tick(l)), false)
        else Reconnect(e, w.(lib := Tick(l)), i, now)
      else
        var (l', sel) := SelectAxis(e, l, a.cfg.id);
        if sel then (w.(lib := l'), true)
        else (With(Renewed(w.(lib := l'), i), i, Lost(a)), false)
  }

  // ----- Power -----

  /** SRL is read until AXIS_ON shows, at most n times. */
  function AwaitPower(e: Env, l: Lib, n: nat): (r: (Lib, bool))
    ensures Talks(l, r.0) && r.0.mem == l.mem
    decreases n
  {
    if n == 0 then (l, false)
    else
      var (l', _, srl) := GetVar(e, l, "SRL");
      if AxisIsOn(srl) then (l', true)
      else
        var r := AwaitPower(e, l', n - 1);
        assert Talks(l, r.0) by { TalksOn(l, l', r.0); }
        r
  }

  /** AXISON, and its effect awaited. */
  function SwitchOn(e: Env, l: Lib): (r: (Lib, bool))
    ensures Talks(l, r.0) && r.0.mem == l.mem
  {
    var (l', a) := Send(e, l, AxisOn);
    if !a.ok then (l', false)
    else
      var r := AwaitPower(e, l', POWER_POLLS);
      assert Talks(l, r.0) by { TalksOn(l, l', r.0); }
      r
  }

  function Powered(a: Axis): Axis { a.(powered := true, activated := true, active := true) }

  function PowerOn(e: Env, w: World, i: nat): (r: (World, bool))
    requires i < |w.axes|
    ensures |r.0.axes| == |w.axes|
  {
    if w.axes[i].powered then (w, true)
    else
      var (w1, ok) := Select(e, w, i);
      if !ok then (w1, false)
      else
        var (l, on) := SwitchOn(e, w1.lib);
        (Talked(w1, i, l, if on then Powered(w1.axes[i]) else w1.axes[i]), on)
  }

  function Depowered(a: Axis): Axis { a.(powered := false, active := false) }

  function PowerOff(e: Env, w: World, i: nat): (r: (World, bool))
    requires i < |w.axes|
    ensures |r.0.axes| == |w.axes|
  {
    if !w.axes[i].powered then (w, true)
    else
      var (w1, ok) := Select(e, w, i);
      if !ok then (w1, false)
      else
        (Talked(w1, i, Send(e, w1.lib, AxisOff).0, Depowered(w1.axes[i])), true)
  }

  // ----- Motion commands -----

  /** Selected and powered: what every motion command needs before it touches the drive. */
  function Ready(e: Env, w: World, i: nat): (r: (World, bool))
    requires i < |w.axes|
    ensures |r.0.axes| == |w.axes|
  {
    if !w.axes[i].configured then (w, false)
    else
      var (w1, ok) := Select(e, w, i);
      if !ok then (w1, false) else PowerOn(e, w1, i)
  }

  function Started(a: Axis): Axis { a.(motion := a.motion.(done := false, moving := true)) }

  /** A move or jog past power-on gives up homing and the stop latch. */
  function Released(a: Axis): Axis { a.(motion := a.motion.(homing := false, stopping := false)) }

  /** A limit event left armed is disarmed first; then the motion. */
  function Launch(e: Env, l: Lib, op: Op): (r: (Lib, bool))
    ensures Talks(l, r.0)
  {
    var l' := ClearLimitSwitchEvent(e, l);
    var (r, a) := Send(e, l', op);
    assert Talks(l, r) by { TalksOn(l, l', r); }
    (r, a.ok)
  }

  function LaunchMove(e: Env, l: Lib, op: Op): (r: (Lib, bool))
    ensures Talks(l, r.0)
  {
    var (l', ok) := Launch(e, l, op);
    if !ok then (l', false)
    else
      var r := SetEventOnMotionComplete(e, l');
      assert Talks(l, r) by { TalksOn(l, l', r); }
      (r, true)
  }

  function MoveOp(pos: int, relative: bool, speed: real, acc: real): Op {
    if relative then MoveRel(pos, speed, acc) else MoveAbs(pos, speed, acc)
  }

  function Move(e: Env, w: World, i: nat, pos: int, relative: bool, speed: real, acc: real): (r: (World, bool))
    requires i < |w.axes|
    ensures |r.0.axes| == |w.axes|
  {
    var (w1, ready) := Ready(e, w, i);
    if !ready then (w1, false)
    else
      var a := Released(w1.axes[i]);
      var (l, ok) := LaunchMove(e, w1.lib, MoveOp(pos, relative, speed, acc));
      (Talked(w1, i, l, if ok then Started(a) else a), ok)
  }

  function MoveVelocity(e: Env, w: World, i: nat, speed: real, acc: real): (r: (World, bool))
    requires i < |w.axes|
    ensures |r.0.axes| == |w.axes|
  {
    var (w1, ready) := Ready(e, w, i);
    if !ready then (w1, false)
    else
      var a := Released(w1.axes[i]);
      var (l, ok) := Launch(e, w1.lib, MoveVel(speed, acc));
      (Talked(w1, i, l, if ok then Started(a) else a), ok)
  }

  /** The velocity move of a home: towards the positive limit if `forwards`. */
  function HomeMove(maxVelocity: real, velo: real, acc: real, forwards: bool): Op {
    var v := Magnitude(if maxVelocity == 0.0 then velo else maxVelocity);
    MoveVel(if forwards then v else -v, Magnitude(if acc == 0.0 then 1.0 else acc))
  }

  /** The axis once a home move is under way. */
  function HomingStarted(a: Axis, forwards: bool): Axis {
    Started(a.(motion := a.motion.(homing := true, moveSeen := false, towardLsp := forwards, stopping := false,
      homed := false)))
  }

  /** The home move, and the event on the limit it heads for. */
  function LaunchHome(e: Env, l: Lib, op: Op, forwards: bool): (r: (Lib, bool))
    ensures Talks(l, r.0)
  {
    var (l', ok) := Launch(e, l, op);
    if !ok then (l', false)
    else
      var r := SetEventOnLimitSwitch(e, l', forwards);
      assert Talks(l, r.0) by { TalksOn(l, l', r.0); }
      r
  }

  /** `velo` is the motor record's VELO, the fallback for a zero homing velocity. */
  function Home(e: Env, w: World, i: nat, maxVelocity: real, velo: real, acc: real, forwards: bool): (r: (World, bool))
    requires i < |w.axes|
    ensures |r.0.axes| == |w.axes|
  {
    if maxVelocity == 0.0 && velo <= 0.0 then (w, false)
    else
      var (w1, ready) := Ready(e, w, i);
      if !ready then (w1, false)
      else
        var (l, ok) := LaunchHome(e, w1.lib, HomeMove(maxVelocity, velo, acc, forwards), forwards);
        (Talked(w1, i, l, if ok then HomingStarted(w1.axes[i], forwards) else w1.axes[i]), ok)
  }

  /** Position zeroed and the limit event disarmed. */
  function ZeroPosition(e: Env, l: Lib): (r: Lib)
    ensures Talks(l, r)
  {
    var l' := Send(e, l, Sap(0)).0;
    var r := ClearLimitSwitchEvent(e, l');
    assert Talks(l, r) by { TalksOn(l, l', r); }
    r
  }

  function AtHome(a: Axis): Axis { a.(motion := a.motion.(homing := false, homed := true), atHome := true) }

  /** This happens whatever selecting the axis said. */
  function ZeroAtHome(e: Env, w: World, i: nat): (r: World)
    requires i < |w.axes|
    ensures |r.axes| == |w.axes|
  {
    var w1 := Select(e, w, i).0;
    Talked(w1, i, ZeroPosition(e, w1.lib), AtHome(w1.axes[i]))
  }

  function LimitBit(mer: word, lsp: bool): bool { if lsp then HasLsp(mer) else HasLsn(mer) }

  function ForceHome(e: Env, w: World, i: nat, velo: real, accl: real): (r: (World, bool))
    requires i < |w.axes|
    ensures |r.0.axes| == |w.axes|
  {
    if !w.axes[i].configured then (w, false)
    else
      var (w1, ok) := Select(e, w, i);
      if !ok then (w1, false)
      else
        var (l, _, mer) := GetVar(e, w1.lib, "MER");
        var w2 := w1.(lib := l);
        if LimitBit(mer, w.axes[i].cfg.useLsp) then (ZeroAtHome(e, w2, i), true)
        else Home(e, w2, i, if velo > 0.0 then velo else 40.0, velo, if accl > 0.0 then accl else 1.0,
          w.axes[i].cfg.useLsp)
  }

  function Halted(a: Axis): Axis {
    a.(motion := a.motion.(homing := false, stopping := true, done := true, moving := false))
  }

  function Halt(e: Env, l: Lib, homing: bool): (r: Lib)
    ensures Talks(l, r)
  {
    var l' := Send(e, l, Abort).0;
    if !homing then l'
    else
      var r := ClearLimitSwitchEvent(e, l');
      assert Talks(l, r) by { TalksOn(l, l', r); }
      r
  }

  /** The stop goes out even if selecting the axis failed; the latch is set in any case. */
  function Stop(e: Env, w: World, i: nat): (r: (World, bool))
    requires i < |w.axes|
    ensures |r.0.axes| == |w.axes|
  {
    if !w.axes[i].configured then (w, false)
    else
      var w1 := Select(e, w, i).0;
      (Talked(w1, i, Halt(e, w1.lib, w1.axes[i].motion.homing), Halted(w1.axes[i])), true)
  }

  function SetPosition(e: Env, w: World, i: nat, pos: int): (r: (World, bool))
    requires i < |w.axes|
    ensures |r.0.axes| == |w.axes|
  {
    if !w.axes[i].configured then (w, false)
    else
      var (w1, ok) := Select(e, w, i);
      if !ok then (w1, false)
      else var (l, a) := Send(e, w1.lib, Sap(pos)); (w1.(lib := l), a.ok)
  }

  function SetClosedLoop(e: Env, w: World, i: nat, on: bool): (r: (World, bool))
    requires i < |w.axes|
    ensures |r.0.axes| == |w.axes|
  {
    if !w.axes[i].configured then (w, false)
    else if on then PowerOn(e, w, i)
    else PowerOff(e, w, i)
  }

  // ----- Command parameters -----

  datatype Param = ResetFaultParam | SaveEepromParam | ResetDriveParam | ClearEncoderParam | ClearStepsParam

  /** The call itself; saving to EEPROM is not part of this library and does nothing. */
  function Carry(e: Env, l: Lib, p: Param): (r: (Lib, bool))
    ensures Talks(l, r.0)
  {
    match p
    case ResetFaultParam => (ResetFault(e, l), true)
    case SaveEepromParam => (l, true)
    case ResetDriveParam => (ResetDrive(e, l), true)
    case ClearEncoderParam => SetLong(e, l, "APOS", 0)
    case ClearStepsParam => SetLong(e, l, "TPOS", 0)
  }

  /** Only the two counters report that the axis could not be selected. */
  function WriteParam(e: Env, w: World, i: nat, p: Param): (r: (World, bool))
    requires i < |w.axes|
    ensures |r.0.axes| == |w.axes|
  {
    var (w1, ok) := Select(e, w, i);
    if !ok then (w1, !(p.ClearEncoderParam? || p.ClearStepsParam?))
    else var (l, done) := Carry(e, w1.lib, p); (w1.(lib := l), done)
  }

  // ----- Configuration -----

  function Configured(a: Axis, c: Config): Axis { a.(cfg := c, configured := true) }

  function AwaitingChannel(a: Axis): Axis {
    a.(activated := false, needsReinit := true, countdown := 0, backoff := 1, active := false, commsError := true)
  }

  function FirstTried(a: Axis, ok: bool): Axis { a.(activated := ok, needsReinit := !ok, active := ok) }

  function Configure(e: Env, w: World, i: nat, c: Config): (r: World)
    requires i < |w.axes|
    ensures |r.axes| == |w.axes|
  {
    var a := Configured(w.axes[i], c);
    if w.fd < 0 then
      With(Renewed(w, i), i, AwaitingChannel(a))
    else
      var (l, a', ok) := Reinit(e, SelectChannel(e, w.lib, w.fd).0, a);
      With(Renewed(w.(lib := l), i), i, FirstTried(a', ok))
  }

  // ----- Polling -----

  function Doubled(backoff: nat): nat {
    var d := if backoff < MAX_BACKOFF then 2 * backoff else backoff;
    if d > MAX_BACKOFF then MAX_BACKOFF else d
  }

  /** After a failed re-initialisation: the wait before the next try, and the one after that. */
  function BackedOff(a: Axis): Axis {
    a.(countdown := a.backoff, backoff := Doubled(a.backoff), commsError := true)
  }

  function Down(a: Axis): Axis { a.(active := false, commsError := true) }

  function CountedDown(a: Axis): Axis
    requires a.countdown > 0
  {
    a.(countdown := a.countdown - 1, commsError := true)
  }

  function Restored(a: Axis): Axis { a.(needsReinit := false, activated := true, active := true, commsError := false) }

  /** The part of poll for an axis that awaits initialisation; true if poll goes on. */
  function PollReinit(e: Env, w: World, i: nat): (r: (World, bool))
    requires i < |w.axes|
    ensures |r.0.axes| == |w.axes|
  {
    var a := w.axes[i];
    if !a.needsReinit then (w, true)
    else if w.fd < 0 then (With(w, i, Down(a)), false)
    else if a.countdown > 0 then (With(w, i, CountedDown(a)), false)
    else
      var (l, a', ok) := Reinit(e, SelectChannel(e, w.lib, w.fd).0, a);
      if !ok then (With(w.(lib := l), i, BackedOff(a')), false)
      else (With(Renewed(w.(lib := l), i), i, Restored(a')), true)
  }

  /** What one poll read: TPOS and SRL must have come through; a register that did not is 0. */
  datatype Readings = Readings(ok: bool, srl: word, mer: word)

  const SLOW_READS := ["MCR", "MSR", "ISR", "CSPD", "POTM", "ENABLE_OFF", "PCR"]

  function ReadStatus(e: Env, l: Lib, polls: nat): (r: (Lib, Readings))
    ensures Talks(l, r.0) && r.0.mem == l.mem
  {
    var (l1, posOk, _) := GetVar(e, l, "TPOS");
    var l2 := GetVar(e, l1, "APOS").0;
    var (l3, srlOk, srl) := GetVar(e, l2, "SRL");
    var (l4, _, mer) := GetVar(e, l3, "MER");
    var l5 := ReadAll(e, l4, (if Faulty(srl) then ["SRH"] else []) + (if polls % 10 == 0 then SLOW_READS else []));
    assert Talks(l, l5) by { TalksOn(l, l1, l2); TalksOn(l, l2, l3); TalksOn(l, l3, l4); TalksOn(l, l4, l5); }
    (l5, Readings(posOk && srlOk, srl, mer))
  }

  /** What a reading of SRL makes of the motion state. The stop latch holds "done" until the
      drive itself reports motion complete. */
  function Seen(p: Motion, srl: word): Motion {
    var complete := MotionComplete(srl) || p.stopping;
    var moving := !complete && AxisIsOn(srl);
    p.(stopping := p.stopping && !MotionComplete(srl), moveSeen := p.moveSeen || (p.homing && moving),
       done := complete, moving := moving)
  }

  /** A poll's readings turned into driver state and published flags. */
  function Digest(a: Axis, r: Readings): Axis {
    var on := AxisIsOn(r.srl);
    var activated := a.activated || (on && !a.powered);
    a.(motion := Seen(a.motion, r.srl), powered := on, activated := activated, commsError := false,
       atHome := if a.motion.homing then a.atHome else AtHomeSwitch(r.mer), active := activated && on)
  }

  /** A home move is over when the motor has stopped after having been seen to move, or
      stands on the switch it was sent to. */
  predicate Reached(p: Motion, mer: word) {
    p.homing && p.done && (p.moveSeen || LimitBit(mer, p.towardLsp))
  }

  function SelectLost(a: Axis): Axis { a.(activated := false, powered := false, active := false, commsError := true) }

  /** The axis once its registers have been read. */
  function Observed(a: Axis, r: Readings): Axis {
    var a' := a.(polls := a.polls + 1);
    if r.ok then Digest(a', r) else a'.(commsError := true)
  }

  /** The part of a poll for an initialised axis: select, read, publish. */
  function Observe(e: Env, w: World, i: nat): (r: (World, bool))
    requires i < |w.axes|
    ensures |r.0.axes| == |w.axes|
  {
    var (w1, ok) := Select(e, w, i);
    if !ok then (With(w1, i, SelectLost(w1.axes[i])), false)
    else
      var (l, r) := ReadStatus(e, w1.lib, w1.axes[i].polls);
      var a := Observed(w1.axes[i], r);
      var w2 := Talked(w1, i, l, a);
      (if r.ok && Reached(a.motion, r.mer) then ZeroAtHome(e, w2, i) else w2, r.ok && a.motion.moving)
  }

  /** An axis poll; the second result is what it reports as moving. */
  function Poll(e: Env, w: World, i: nat): (r: (World, bool))
    requires i < |w.axes|
    ensures |r.0.axes| == |w.axes|
  {
    if !w.axes[i].configured then (w, false)
    else
      var (w1, go) := PollReinit(e, w, i);
      if go then Observe(e, w1, i) else (w1, false)
  }

  // ----- Runs -----

  datatype Cmd =
    | CtrlPoll
    | DoPoll(i: nat)
    | DoConfigure(i: nat, c: Config)
    | DoMove(i: nat, pos: int, relative: bool, speed: real, acc: real)
    | DoJog(i: nat, speed: real, acc: real)
    | DoHome(i: nat, maxVelocity: real, velo: real, acc: real, forwards: bool)
    | DoForceHome(i: nat, velo: real, accl: real)
    | DoStop(i: nat)
    | DoSetPosition(i: nat, pos: int)
    | DoClosedLoop(i: nat, on: bool)
    | DoParam(i: nat, p: Param)

  /** One call, and its boolean result: "moving" for a poll, success for a command. A call for
      an axis that does not exist changes nothing. */
  function Step(e: Env, w: World, c: Cmd): (r: (World, bool))
    ensures |r.0.axes| == |w.axes|
  {
    if c.CtrlPoll? then EnsureChannel(e, w)
    else if c.i >= |w.axes| then (w, false)
    else
      match c
      case DoPoll(i) => Poll(e, w, i)
      case DoConfigure(i, cfg) => (Configure(e, w, i, cfg), true)
      case DoMove(i, pos, relative, speed, acc) => Move(e, w, i, pos, relative, speed, acc)
      case DoJog(i, speed, acc) => MoveVelocity(e, w, i, speed, acc)
      case DoHome(i, v, velo, acc, forwards) => Home(e, w, i, v, velo, acc, forwards)
      case DoForceHome(i, velo, accl) => ForceHome(e, w, i, velo, accl)
      case DoStop(i) => Stop(e, w, i)
      case DoSetPosition(i, pos) => SetPosition(e, w, i, pos)
      case DoClosedLoop(i, on) => SetClosedLoop(e, w, i, on)
      case DoParam(i, p) => WriteParam(e, w, i, p)
  }

  /** Time passes between calls. */
  function Later(w: World): World { w.(lib := Tick(w.lib)) }

  function Next(e: Env, w: World, c: Cmd): (r: World)
    ensures |r.axes| == |w.axes|
  {
    Step(e, Later(w), c).0
  }

  function Run(e: Env, w: World, cs: seq<Cmd>): (r: World)
    ensures |r.axes| == |w.axes|
  {
    if cs == [] then w else Next(e, Run(e, w, cs[..|cs| - 1]), cs[|cs| - 1])
  }
}
