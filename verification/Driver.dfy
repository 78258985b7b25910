/** The controller and its axes as objects that update their fields, against the functions on
    worlds in Supervisor. Axis methods that reach through to the controller are methods of the
    controller here, with the axis's number. */
module DriverCode {
  import opened Codec
  import opened Masks
  import opened TmlLib
  import opened Supervisor
  import opened LibraryCode

  /** Driver state and published flags of one axis. */
  class TmlAxis {
    var cfg: Config
    var configured: bool
    var setupIdx: int
    var needsReinit: bool
    var countdown: nat
    var backoff: nat
    var polls: nat
    var activated: bool
    var powered: bool
    var motion: Motion
    var atHome: bool
    var commsError: bool
    var active: bool

    function View(): Axis
      reads this
    {
      Axis(cfg, configured, setupIdx, needsReinit, countdown, backoff, polls,
           activated, powered, motion, atHome, commsError, active)
    }

    constructor ()
      ensures View() == NEW_AXIS
    {
      cfg, configured := Config(0, "", false, false, false, 0), false;
      setupIdx, needsReinit, countdown, backoff, polls := -1, false, 0, 1, 0;
      activated, powered := false, false;
      motion := Motion(false, false, false, false, false, false, false);
      atHome, commsError, active := false, false, false;
    }

    method ForgetSetup()
      modifies this`setupIdx, this`needsReinit, this`countdown, this`backoff
      ensures setupIdx == -1 && needsReinit && countdown == 0 && backoff == 1
    {
      setupIdx, needsReinit, countdown, backoff := -1, true, 0, 1;
    }

    method Flag()
      modifies this
      ensures View() == Flagged(old(View()))
    {
      ForgetSetup();
      activated, powered, motion := false, false, motion.(stopping := false);
    }

    method PublishInactive()
      modifies this
      ensures View() == old(View()).(active := false)
    {
      active := false;
    }

    method HoldSetup(idx: int)
      modifies this`setupIdx
      ensures View() == old(View()).(setupIdx := idx)
    {
      setupIdx := idx;
    }

    method SetRecovered(ok: bool)
      modifies this
      ensures View() == Recovered(old(View()), ok)
    {
      powered, needsReinit, activated, active := false, !ok, ok, ok;
      if ok { motion := motion.(stopping := false); } else { countdown, backoff := 1, 1; }
    }

    method SetLost()
      modifies this
      ensures View() == Lost(old(View()))
    {
      needsReinit, activated, countdown, backoff := true, false, 0, 1;
    }

    method SetPowered()
      modifies this
      ensures View() == Powered(old(View()))
    {
      powered, activated, active := true, true, true;
    }

    method SetDepowered()
      modifies this
      ensures View() == Depowered(old(View()))
    {
      powered, active := false, false;
    }

    method Release()
      modifies this
      ensures View() == Released(old(View()))
    {
      motion := motion.(homing := false, stopping := false);
    }

    method SetStarted()
      modifies this
      ensures View() == Started(old(View()))
    {
      motion := motion.(done := false, moving := true);
    }

    method StartHoming(forwards: bool)
      modifies this
      ensures View() == HomingStarted(old(View()), forwards)
    {
      motion := motion.(homing := true, moveSeen := false, towardLsp := forwards, stopping := false,
                        done := false, moving := true, homed := false);
    }

    method SetAtHome()
      modifies this
      ensures View() == AtHome(old(View()))
    {
      motion, atHome := motion.(homing := false, homed := true), true;
    }

    method SetHalted()
      modifies this
      ensures View() == Halted(old(View()))
    {
      motion := motion.(homing := false, stopping := true, done := true, moving := false);
    }

    method SetConfigured(c: Config)
      modifies this
      ensures View() == Configured(old(View()), c)
    {
      cfg, configured := c, true;
    }

    method AwaitChannel()
      modifies this
      ensures View() == AwaitingChannel(old(View()))
    {
      activated, needsReinit, countdown, backoff := false, true, 0, 1;
      active, commsError := false, true;
    }

    method SetFirstTried(ok: bool)
      modifies this
      ensures View() == FirstTried(old(View()), ok)
    {
      activated, needsReinit, active := ok, !ok, ok;
    }

    method SetDown()
      modifies this
      ensures View() == Down(old(View()))
    {
      active, commsError := false, true;
    }

    method CountDown()
      requires countdown > 0
      modifies this
      ensures View() == CountedDown(old(View()))
    {
      countdown, commsError := countdown - 1, true;
    }

    method BackOff()
      modifies this
      ensures View() == BackedOff(old(View()))
    {
      countdown := backoff;
      if backoff < MAX_BACKOFF { backoff := backoff * 2; }
      if backoff > MAX_BACKOFF { backoff := MAX_BACKOFF; }
      commsError := true;
    }

    method Restore()
      modifies this
      ensures View() == Restored(old(View()))
    {
      needsReinit, activated, active, commsError := false, true, true, false;
    }

    method LoseSelection()
      modifies this
      ensures View() == SelectLost(old(View()))
    {
      activated, powered, active, commsError := false, false, false, true;
    }

    /** The stop latch, and whether a home has been seen to move. */
    method SeeMotion(srl: word) returns (isMoving: bool)
      modifies this`motion
      ensures motion == Seen(old(motion), srl) && isMoving == motion.moving
    {
      var complete := MotionComplete(srl);
      if motion.stopping {
        if complete { motion := motion.(stopping := false); } else { complete := true; }
      }
      isMoving := !complete && AxisIsOn(srl);
      if motion.homing && isMoving { motion := motion.(moveSeen := true); }
      motion := motion.(done := complete, moving := isMoving);
    }

    /** Power state as the drive reports it. */
    method SyncPower(on: bool)
      modifies this`powered, this`activated
      ensures powered == on && activated == (old(activated) || (on && !old(powered)))
    {
      if on && !powered { powered, activated := true, true; }
      else if !on && powered { powered := false; }
    }

    /** The status mapping of poll. */
    method MapStatus(r: Readings) returns (isMoving: bool)
      modifies this
      ensures View() == Digest(old(View()), r) && isMoving == motion.moving
    {
      hide Seen;
      isMoving := SeeMotion(r.srl);
      SeenStillHoming(old(motion), r.srl);
      SyncPower(AxisIsOn(r.srl));
      commsError := false;
      if !motion.homing { atHome := AtHomeSwitch(r.mer); }
      active := activated && AxisIsOn(r.srl);
    }

    method Publish(r: Readings) returns (isMoving: bool)
      modifies this
      ensures View() == Observed(old(View()), r) && isMoving == (r.ok && motion.moving)
    {
      hide Digest;
      polls := polls + 1;
      if r.ok { isMoving := MapStatus(r); }
      else {
        commsError := true;
        isMoving := false;
      }
    }
  }

  lemma SeenStillHoming(p: Motion, srl: word)
    ensures Seen(p, srl).homing == p.homing
  {
  }

  /** The controller with its shared channel. `stale` and `orphans` only record what reconnects
      that were given up half way have left behind. */
  class TmlController {
    const lib: Library
    const axes: seq<TmlAxis>
    var fd: int
    var last: real
    ghost var stale: set<nat>
    ghost var orphans: nat

    ghost predicate Valid() {
      forall j, k :: 0 <= j < k < |axes| ==> axes[j] != axes[k]
    }

    ghost function AxisViews(): (r: seq<Axis>)
      reads axes
      ensures |r| == |axes|
    {
      seq(|axes|, j requires 0 <= j < |axes| reads axes => axes[j].View())
    }

    ghost function View(): World
      reads this, axes, lib, lib.channels, lib.setups
    {
      World(fd, last, lib.View(), AxisViews(), stale, orphans)
    }

    constructor (env: Env, n: nat, mem: map<byte, Mem>)
      ensures Valid() && fresh(axes) && fresh(lib) && fresh(lib.channels) && fresh(lib.setups)
      ensures |axes| == n && lib.env == env && View() == Boot(env, n, mem)
    {
      hide EmptyLib, TmlLib.OpenChannel;
      var l := new Library(env, mem);
      var start := l.ReadClock();
      var channel := l.OpenChannel(start);
      var now := l.ReadClock();
      var all := NewAxes(n);
      lib, axes, fd, last := l, all, channel, now;
      stale, orphans := {}, 0;
      new;
      assert AxisViews() == seq(n, _ => NEW_AXIS);
    }

    static method NewAxes(n: nat) returns (all: seq<TmlAxis>)
      ensures |all| == n && fresh(all)
      ensures forall j, k :: 0 <= j < k < n ==> all[j] != all[k]
      ensures forall j :: 0 <= j < n ==> all[j].View() == NEW_AXIS
    {
      all := [];
      for i := 0 to n
        invariant |all| == i && fresh(all)
        invariant forall j, k :: 0 <= j < k < i ==> all[j] != all[k]
        invariant forall j :: 0 <= j < i ==> all[j].View() == NEW_AXIS
      {
        var a := new TmlAxis();
        all := all + [a];
      }
    }

    /** Since the earlier state only the library and axis i have changed. */
    twostate lemma TalkedSince(i: nat)
      requires Valid() && i < |axes| && unchanged(this)
      requires forall j :: 0 <= j < |axes| && j != i ==> unchanged(axes[j])
      ensures View() == Talked(old(View()), i, lib.View(), axes[i].View())
    {
      assert AxisViews() == old(AxisViews())[i := axes[i].View()];
    }

    /** Since the earlier state only the library has changed. */
    twostate lemma LibOnly()
      requires unchanged(this) && forall j :: 0 <= j < |axes| ==> unchanged(axes[j])
      ensures View() == old(View()).(lib := lib.View())
    {
      assert AxisViews() == old(AxisViews());
    }

    // ----- Reconnecting -----

    method FlagAll(except: int, publish: bool)
      requires Valid()
      modifies axes
      ensures AxisViews() == Supervisor.FlagAll(old(AxisViews()), except, publish)
    {
      hide Flagged;
      for k := 0 to |axes|
        invariant forall j :: 0 <= j < k ==> axes[j].View() == Supervisor.FlagAll(old(AxisViews()), except, publish)[j]
        invariant forall j :: k <= j < |axes| ==> axes[j].View() == old(AxisViews())[j]
      {
        if axes[k].configured && k != except {
          axes[k].Flag();
          if publish { axes[k].PublishInactive(); }
        }
      }
    }

    method EnsureChannel() returns (ok: bool)
      requires Valid()
      modifies this, axes, lib, lib.channels
      ensures (View(), ok) == Supervisor.EnsureChannel(lib.env, old(View()))
    {
      hide TmlLib.OpenChannel, Flagged;
      if fd >= 0 { return true; }
      var now := lib.ReadClock();
      if Recent(now, last, ENSURE_PERIOD) {
        assert AxisViews() == old(AxisViews());
        return false;
      }
      last := now;
      var newFd := lib.OpenChannel(now);
      assert AxisViews() == old(AxisViews());
      if newFd < 0 { return false; }
      fd, stale := newFd, {};
      lib.StartOver();
      FlagAll(-1, false);
      ok := true;
    }

    // ----- Initialising an axis -----

    method AfterEndInit(i: nat)
      requires i < |axes|
      modifies lib
      ensures lib.View() == Supervisor.AfterEndInit(lib.env, old(lib.View()), axes[i].View())
    {
      hide TmlLib.GetVar, TmlLib.SetVar, TmlLib.DisableLimitProtection, Talks;
      ghost var l := lib.View();
      var _, _ := lib.GetVar("MER");
      var _, _ := lib.GetVar("MER_MASK");
      TwoReads(lib.env, l, "MER", "MER_MASK");
      if axes[i].cfg.scr != 0 {
        var _ := lib.SetVar("SCR", axes[i].cfg.scr);
        var _, _ := lib.GetVar("APOS");
      }
      if axes[i].cfg.ignoreLsp || axes[i].cfg.ignoreLsn {
        lib.DisableLimitProtection(axes[i].cfg.ignoreLsp, axes[i].cfg.ignoreLsn);
      }
    }

    method BringUp(i: nat, idx: int) returns (ok: bool)
      requires i < |axes|
      modifies lib, lib.channels
      ensures (lib.View(), ok) == Supervisor.BringUp(lib.env, old(lib.View()), axes[i].cfg.id, idx)
    {
      hide TmlLib.SetupAxis, TmlLib.SelectAxis, TmlLib.DriveInitialisation, Talks;
      ok := lib.SetupAxis(axes[i].cfg.id, idx);
      if !ok { return; }
      ok := lib.SelectAxis(axes[i].cfg.id);
      if !ok { return; }
      ok := lib.DriveInitialisation();
    }

    /** The setup the axis holds, or a newly loaded one. */
    method Hold(i: nat) returns (idx: int)
      requires i < |axes|
      modifies axes[i], lib.setups
      ensures (lib.View(), idx) == Supervisor.Hold(lib.env, old(lib.View()), old(axes[i].View()))
      ensures axes[i].View() == old(axes[i].View()).(setupIdx := idx)
    {
      hide TmlLib.LoadSetup;
      if axes[i].setupIdx < 0 {
        idx := lib.LoadSetup(axes[i].cfg.file);
        axes[i].HoldSetup(idx);
      } else { idx := axes[i].setupIdx; }
    }

    method SetUp(i: nat, idx: int) returns (ok: bool)
      requires i < |axes|
      modifies lib, lib.channels
      ensures (lib.View(), ok) == Supervisor.SetUp(lib.env, old(lib.View()), axes[i].View(), idx)
    {
      hide Supervisor.BringUp, Supervisor.AfterEndInit;
      ok := BringUp(i, idx);
      if ok { AfterEndInit(i); }
    }

    method Reinit(i: nat) returns (ok: bool)
      requires i < |axes|
      modifies axes[i], lib, lib.channels, lib.setups
      ensures (lib.View(), axes[i].View(), ok) == Supervisor.Reinit(lib.env, old(lib.View()), old(axes[i].View()))
    {
      hide Supervisor.Hold, Supervisor.SetUp;
      var idx := Hold(i);
      if idx < 0 { return false; }
      SettledAlike(lib.env, lib.View(), old(axes[i].View()), idx);
      ok := SetUp(i, idx);
    }

    // ----- Selecting an axis -----

    method TrySelect() returns (ok: bool)
      modifies lib
      ensures (lib.View(), ok) == Supervisor.TrySelect(lib.env, old(lib.View()), fd, SELECT_TRIES)
    {
      hide TmlLib.SelectChannel;
      var tries := 0;
      ok := false;
      while tries < SELECT_TRIES && !ok
        invariant tries <= SELECT_TRIES
        invariant !ok ==> Supervisor.TrySelect(lib.env, old(lib.View()), fd, SELECT_TRIES)
                          == Supervisor.TrySelect(lib.env, lib.View(), fd, SELECT_TRIES - tries)
        invariant ok ==> Supervisor.TrySelect(lib.env, old(lib.View()), fd, SELECT_TRIES) == (lib.View(), true)
      {
        ok := lib.SelectChannel(fd);
        tries := tries + 1;
      }
    }

    /** Every other axis flagged, this one set up afresh. */
    method StartOver(i: nat) returns (ok: bool)
      requires Valid() && i < |axes|
      modifies axes, lib, lib.channels, lib.setups
      ensures
        var (l, a, r) := Supervisor.Reinit(lib.env, StartedOver(old(lib.View())), old(axes[i].View()).(setupIdx := -1));
        && ok == r && lib.View() == l
        && AxisViews() == Supervisor.FlagAll(old(AxisViews()), i, true)[i := Recovered(a, r)]
    {
      hide Supervisor.Reinit, Recovered, Flagged;
      lib.StartOver();
      FlagAll(i, true);
      ghost var flagged := AxisViews();
      assert AxisViews()[i] == old(AxisViews())[i];
      axes[i].HoldSetup(-1);
      ok := Reinit(i);
      axes[i].SetRecovered(ok);
      assert AxisViews() == flagged[i := axes[i].View()];
    }

    method Reopen(now: real) returns (up: bool)
      modifies this, lib, lib.channels
      ensures
        var (l, newFd) := TmlLib.OpenChannel(lib.env, TmlLib.CloseChannel(old(lib.View()), old(fd)), now);
        && up == (newFd >= 0) && fd == (if up then newFd else -1) && last == Now(lib.env, l) && lib.View() == Tick(l)
      ensures stale == old(stale) && orphans == old(orphans)
    {
      hide TmlLib.OpenChannel, TmlLib.CloseChannel;
      lib.CloseChannel(fd);
      fd := lib.OpenChannel(now);
      last := lib.ReadClock();
      up := fd >= 0;
      if !up { fd := -1; }
    }

    method Resume(i: nat) returns (ok: bool)
      requires Valid() && i < |axes|
      modifies this, axes, lib, lib.channels, lib.setups
      ensures (View(), ok) == Supervisor.Resume(lib.env, old(View()), i)
    {
      hide TmlLib.SelectChannel, Supervisor.Reinit, Supervisor.FlagAll, Recovered;
      ok := lib.SelectChannel(fd);
      assert AxisViews() == old(AxisViews());
      if !ok {
        stale, orphans := Unflagged(AxisViews()), orphans + 1;
        return;
      }
      assert axes[i].View() == old(View()).axes[i];
      ok := StartOver(i);
      stale := {};
    }

    /** The third tier. */
    method Reconnect(i: nat, now: real) returns (ok: bool)
      requires Valid() && i < |axes|
      modifies this, axes, lib, lib.channels, lib.setups
      ensures (View(), ok) == Supervisor.Reconnect(lib.env, old(View()), i, now)
    {
      hide TmlLib.OpenChannel, TmlLib.CloseChannel, Supervisor.Resume;
      ok := Reopen(now);
      assert AxisViews() == old(AxisViews());
      if ok { ok := Resume(i); }
    }

    method Select(i: nat) returns (ok: bool)
      requires Valid() && i < |axes|
      modifies this, axes, lib, lib.channels, lib.setups
      ensures (View(), ok) == Supervisor.Select(lib.env, old(View()), i)
    {
      hide Supervisor.TrySelect, TmlLib.SelectAxis, Supervisor.Reconnect, Lost;
      if !axes[i].configured || fd < 0 { return false; }
      ok := TrySelect();
      if !ok {
        var now := lib.ReadClock();
        LibOnly();
        if Recent(now, last, COOLDOWN) { return false; }
        ok := Reconnect(i, now);
        return;
      }
      ok := lib.SelectAxis(axes[i].cfg.id);
      LibOnly();
      if !ok {
        label Chosen:
        axes[i].SetLost();
        TalkedSince@Chosen(i);
        stale := stale - {i};
      }
    }

    // ----- Power -----

    method AwaitPower() returns (on: bool)
      modifies lib
      ensures (lib.View(), on) == Supervisor.AwaitPower(lib.env, old(lib.View()), POWER_POLLS)
    {
      hide TmlLib.GetVar, AxisIsOn, Talks;
      var n := 0;
      on := false;
      while n < POWER_POLLS && !on
        invariant n <= POWER_POLLS
        invariant !on ==> Supervisor.AwaitPower(lib.env, old(lib.View()), POWER_POLLS)
                          == Supervisor.AwaitPower(lib.env, lib.View(), POWER_POLLS - n)
        invariant on ==> Supervisor.AwaitPower(lib.env, old(lib.View()), POWER_POLLS) == (lib.View(), true)
      {
        var _, srl := lib.GetVar("SRL");
        on := AxisIsOn(srl);
        n := n + 1;
      }
    }

    method SwitchOn() returns (on: bool)
      modifies lib
      ensures (lib.View(), on) == Supervisor.SwitchOn(lib.env, old(lib.View()))
    {
      hide Supervisor.AwaitPower, TmlLib.Send, Talks;
      var a := lib.Send(AxisOn);
      if !a.ok { return false; }
      on := AwaitPower();
    }

    method PowerOn(i: nat) returns (ok: bool)
      requires Valid() && i < |axes|
      modifies this, axes, lib, lib.channels, lib.setups
      ensures (View(), ok) == Supervisor.PowerOn(lib.env, old(View()), i)
    {
      hide Supervisor.Select, Supervisor.SwitchOn, Powered, Talked;
      if axes[i].powered { return true; }
      ok := Select(i);
      if !ok { return; }
      label Chosen:
      ok := SwitchOn();
      if ok { axes[i].SetPowered(); }
      TalkedSince@Chosen(i);
    }

    method PowerOff(i: nat) returns (ok: bool)
      requires Valid() && i < |axes|
      modifies this, axes, lib, lib.channels, lib.setups
      ensures (View(), ok) == Supervisor.PowerOff(lib.env, old(View()), i)
    {
      hide Supervisor.Select, TmlLib.Send, Depowered, Talked;
      if !axes[i].powered { return true; }
      ok := Select(i);
      if !ok { return; }
      label Chosen:
      var _ := lib.Send(AxisOff);
      axes[i].SetDepowered();
      TalkedSince@Chosen(i);
    }

    // ----- Motion commands -----

    method Ready(i: nat) returns (ok: bool)
      requires Valid() && i < |axes|
      modifies this, axes, lib, lib.channels, lib.setups
      ensures (View(), ok) == Supervisor.Ready(lib.env, old(View()), i)
    {
      hide Supervisor.Select, Supervisor.PowerOn;
      if !axes[i].configured { return false; }
      ok := Select(i);
      if !ok { return; }
      ok := PowerOn(i);
    }

    method Launch(op: Op) returns (ok: bool)
      modifies lib
      ensures (lib.View(), ok) == Supervisor.Launch(lib.env, old(lib.View()), op)
    {
      hide TmlLib.ClearLimitSwitchEvent, TmlLib.Send, Talks;
      lib.ClearLimitSwitchEvent();
      var a := lib.Send(op);
      ok := a.ok;
    }

    method Move(i: nat, pos: int, relative: bool, speed: real, acc: real) returns (ok: bool)
      requires Valid() && i < |axes|
      modifies this, axes, lib, lib.channels, lib.setups
      ensures (View(), ok) == Supervisor.Move(lib.env, old(View()), i, pos, relative, speed, acc)
    {
      hide Supervisor.Ready, Supervisor.Launch, TmlLib.SetEventOnMotionComplete, Released, Started, Talked, Talks;
      ok := Ready(i);
      if !ok { return; }
      label Powered:
      axes[i].Release();
      ok := Launch(MoveOp(pos, relative, speed, acc));
      if ok {
        lib.SetEventOnMotionComplete();
        axes[i].SetStarted();
      }
      TalkedSince@Powered(i);
    }

    method MoveVelocity(i: nat, speed: real, acc: real) returns (ok: bool)
      requires Valid() && i < |axes|
      modifies this, axes, lib, lib.channels, lib.setups
      ensures (View(), ok) == Supervisor.MoveVelocity(lib.env, old(View()), i, speed, acc)
    {
      hide Supervisor.Ready, Supervisor.Launch, Released, Started, Talked;
      ok := Ready(i);
      if !ok { return; }
      label Powered:
      axes[i].Release();
      ok := Launch(MoveVel(speed, acc));
      if ok { axes[i].SetStarted(); }
      TalkedSince@Powered(i);
    }

    method LaunchHome(op: Op, forwards: bool) returns (ok: bool)
      modifies lib
      ensures (lib.View(), ok) == Supervisor.LaunchHome(lib.env, old(lib.View()), op, forwards)
    {
      hide Supervisor.Launch, TmlLib.SetEventOnLimitSwitch, Talks;
      ok := Launch(op);
      if ok { ok := lib.SetEventOnLimitSwitch(forwards); }
    }

    method Home(i: nat, maxVelocity: real, velo: real, acc: real, forwards: bool) returns (ok: bool)
      requires Valid() && i < |axes|
      modifies this, axes, lib, lib.channels, lib.setups
      ensures (View(), ok) == Supervisor.Home(lib.env, old(View()), i, maxVelocity, velo, acc, forwards)
    {
      hide Supervisor.Ready, Supervisor.LaunchHome, HomingStarted, Talked;
      var velocity, acceleration := maxVelocity, acc;
      if velocity == 0.0 {
        if velo <= 0.0 { return false; }
        velocity := velo;
      }
      if acceleration == 0.0 { acceleration := 1.0; }
      ok := Ready(i);
      if !ok { return; }
      label Powered:
      var speed := if forwards then Magnitude(velocity) else -Magnitude(velocity);
      ok := LaunchHome(MoveVel(speed, Magnitude(acceleration)), forwards);
      if ok { axes[i].StartHoming(forwards); }
      TalkedSince@Powered(i);
    }

    method ZeroPosition()
      modifies lib
      ensures lib.View() == Supervisor.ZeroPosition(lib.env, old(lib.View()))
    {
      hide TmlLib.ClearLimitSwitchEvent, TmlLib.Send, Talks;
      var _ := lib.Send(Sap(0));
      lib.ClearLimitSwitchEvent();
    }

    method ZeroAtHome(i: nat)
      requires Valid() && i < |axes|
      modifies this, axes, lib, lib.channels, lib.setups
      ensures View() == Supervisor.ZeroAtHome(lib.env, old(View()), i)
    {
      hide Supervisor.Select, Supervisor.ZeroPosition, AtHome, Talked;
      var _ := Select(i);
      label Chosen:
      ZeroPosition();
      axes[i].SetAtHome();
      TalkedSince@Chosen(i);
    }

    method ForceHome(i: nat, velo: real, accl: real) returns (ok: bool)
      requires Valid() && i < |axes|
      modifies this, axes, lib, lib.channels, lib.setups
      ensures (View(), ok) == Supervisor.ForceHome(lib.env, old(View()), i, velo, accl)
    {
      hide Supervisor.Select, TmlLib.GetVar, Supervisor.ZeroAtHome, Supervisor.Home, LimitBit;
      if !axes[i].configured { return false; }
      var lsp := axes[i].cfg.useLsp;
      ok := Select(i);
      if !ok { return; }
      label Chosen:
      var _, mer := lib.GetVar("MER");
      LibOnly@Chosen();
      if LimitBit(mer, lsp) { ZeroAtHome(i); }
      else { ok := Home(i, if velo > 0.0 then velo else 40.0, velo, if accl > 0.0 then accl else 1.0, lsp); }
    }

    method Halt(homing: bool)
      modifies lib
      ensures lib.View() == Supervisor.Halt(lib.env, old(lib.View()), homing)
    {
      hide TmlLib.ClearLimitSwitchEvent, TmlLib.Send, Talks;
      var _ := lib.Send(Abort);
      if homing { lib.ClearLimitSwitchEvent(); }
    }

    method Stop(i: nat) returns (ok: bool)
      requires Valid() && i < |axes|
      modifies this, axes, lib, lib.channels, lib.setups
      ensures (View(), ok) == Supervisor.Stop(lib.env, old(View()), i)
    {
      hide Supervisor.Select, Supervisor.Halt, Halted, Talked;
      if !axes[i].configured { return false; }
      var _ := Select(i);
      label Chosen:
      Halt(axes[i].motion.homing);
      axes[i].SetHalted();
      TalkedSince@Chosen(i);
      ok := true;
    }

    method SetPosition(i: nat, pos: int) returns (ok: bool)
      requires Valid() && i < |axes|
      modifies this, axes, lib, lib.channels, lib.setups
      ensures (View(), ok) == Supervisor.SetPosition(lib.env, old(View()), i, pos)
    {
      hide Supervisor.Select, TmlLib.Send;
      if !axes[i].configured { return false; }
      ok := Select(i);
      if !ok { return; }
      label Chosen:
      var a := lib.Send(Sap(pos));
      LibOnly@Chosen();
      ok := a.ok;
    }

    method SetClosedLoop(i: nat, on: bool) returns (ok: bool)
      requires Valid() && i < |axes|
      modifies this, axes, lib, lib.channels, lib.setups
      ensures (View(), ok) == Supervisor.SetClosedLoop(lib.env, old(View()), i, on)
    {
      hide Supervisor.PowerOn, Supervisor.PowerOff;
      if !axes[i].configured { return false; }
      if on { ok := PowerOn(i); } else { ok := PowerOff(i); }
    }

    method WriteParam(i: nat, p: Param) returns (ok: bool)
      requires Valid() && i < |axes|
      modifies this, axes, lib, lib.channels, lib.setups
      ensures (View(), ok) == Supervisor.WriteParam(lib.env, old(View()), i, p)
    {
      hide Supervisor.Select, TmlLib.SetLong, TmlLib.ResetFault, TmlLib.ResetDrive;
      ok := Select(i);
      if !ok { return !(p.ClearEncoderParam? || p.ClearStepsParam?); }
      label Chosen:
      match p {
        case ResetFaultParam => lib.ResetFault();
        case SaveEepromParam =>
        case ResetDriveParam => lib.ResetDrive();
        case ClearEncoderParam => ok := lib.SetLong("APOS", 0);
        case ClearStepsParam => ok := lib.SetLong("TPOS", 0);
      }
      LibOnly@Chosen();
    }

    // ----- Configuring and polling -----

    method Configure(i: nat, c: Config)
      requires Valid() && i < |axes|
      modifies this, axes, lib, lib.channels, lib.setups
      ensures View() == Supervisor.Configure(lib.env, old(View()), i, c)
    {
      hide Supervisor.Reinit, TmlLib.SelectChannel, Configured, AwaitingChannel, FirstTried;
      axes[i].SetConfigured(c);
      if fd < 0 { axes[i].AwaitChannel(); }
      else {
        var _ := lib.SelectChannel(fd);
        var ok := Reinit(i);
        axes[i].SetFirstTried(ok);
      }
      TalkedSince(i);
      stale := stale - {i};
    }

    method PollReinit(i: nat) returns (go: bool)
      requires Valid() && i < |axes|
      modifies this`stale, axes, lib, lib.channels, lib.setups
      ensures (View(), go) == Supervisor.PollReinit(lib.env, old(View()), i)
    {
      hide Supervisor.Reinit, TmlLib.SelectChannel, Down, CountedDown, BackedOff, Restored;
      if !axes[i].needsReinit { return true; }
      go := false;
      if fd < 0 { axes[i].SetDown(); }
      else if axes[i].countdown > 0 { axes[i].CountDown(); }
      else {
        var _ := lib.SelectChannel(fd);
        go := Reinit(i);
        if go { axes[i].Restore(); } else { axes[i].BackOff(); }
      }
      TalkedSince(i);
      if go { stale := stale - {i}; }
    }

    method ReadAll(names: seq<string>)
      modifies lib
      ensures lib.View() == Supervisor.ReadAll(lib.env, old(lib.View()), names)
    {
      hide TmlLib.GetVar, Talks;
      for k := 0 to |names|
        invariant Supervisor.ReadAll(lib.env, old(lib.View()), names)
          == Supervisor.ReadAll(lib.env, lib.View(), names[k..])
      {
        var _, _ := lib.GetVar(names[k]);
      }
    }

    method ReadStatus(polls: nat) returns (r: Readings)
      modifies lib
      ensures (lib.View(), r) == Supervisor.ReadStatus(lib.env, old(lib.View()), polls)
    {
      hide TmlLib.GetVar, Supervisor.ReadAll, Talks, Faulty;
      var posOk, _ := lib.GetVar("TPOS");
      var _, _ := lib.GetVar("APOS");
      var srlOk, srl := lib.GetVar("SRL");
      var _, mer := lib.GetVar("MER");
      ReadAll((if Faulty(srl) then ["SRH"] else []) + (if polls % 10 == 0 then SLOW_READS else []));
      r := Readings(posOk && srlOk, srl, mer);
    }

    method Observe(i: nat) returns (moving: bool)
      requires Valid() && i < |axes|
      modifies this, axes, lib, lib.channels, lib.setups
      ensures (View(), moving) == Supervisor.Observe(lib.env, old(View()), i)
    {
      hide Supervisor.Select, Supervisor.ReadStatus, Observed, SelectLost, Reached, Supervisor.ZeroAtHome, Talked;
      var ok := Select(i);
      label Chosen:
      if !ok {
        axes[i].LoseSelection();
        TalkedSince@Chosen(i);
        TalkedNothing(old@Chosen(View()), i, axes[i].View());
        return false;
      }
      var r := ReadStatus(axes[i].polls);
      moving := axes[i].Publish(r);
      TalkedSince@Chosen(i);
      if r.ok && Reached(axes[i].motion, r.mer) { ZeroAtHome(i); }
    }

    method Poll(i: nat) returns (moving: bool)
      requires Valid() && i < |axes|
      modifies this, axes, lib, lib.channels, lib.setups
      ensures (View(), moving) == Supervisor.Poll(lib.env, old(View()), i)
    {
      hide Supervisor.PollReinit, Supervisor.Observe;
      if !axes[i].configured { return false; }
      var go := PollReinit(i);
      if !go { return false; }
      moving := Observe(i);
    }

    /** Any one call on the controller or an axis is one step of a run. */
    method Serve(c: Cmd) returns (r: bool)
      requires Valid()
      modifies this, axes, lib, lib.channels, lib.setups
      ensures (View(), r) == Step(lib.env, old(View()), c)
    {
      hide Supervisor.EnsureChannel, Supervisor.Poll, Supervisor.Configure, Supervisor.Move, Supervisor.MoveVelocity,
        Supervisor.Home, Supervisor.ForceHome, Supervisor.Stop, Supervisor.SetPosition, Supervisor.SetClosedLoop,
        Supervisor.WriteParam;
      if c.CtrlPoll? { r := EnsureChannel(); return; }
      if c.i >= |axes| { return false; }
      match c {
        case DoPoll(i) => r := Poll(i);
        case DoConfigure(i, cfg) => Configure(i, cfg); r := true;
        case DoMove(i, pos, relative, speed, acc) => r := Move(i, pos, relative, speed, acc);
        case DoJog(i, speed, acc) => r := MoveVelocity(i, speed, acc);
        case DoHome(i, v, velo, acc, forwards) => r := Home(i, v, velo, acc, forwards);
        case DoForceHome(i, velo, accl) => r := ForceHome(i, velo, accl);
        case DoStop(i) => r := Stop(i);
        case DoSetPosition(i, pos) => r := SetPosition(i, pos);
        case DoClosedLoop(i, on) => r := SetClosedLoop(i, on);
        case DoParam(i, p) => r := WriteParam(i, p);
      }
    }
  }

  lemma TalkedNothing(w: World, i: nat, a: Axis)
    requires i < |w.axes|
    ensures Talked(w, i, w.lib, a) == With(w, i, a)
  {
  }

  /** Setting up does not look at the index the axis already has. */
  lemma SettledAlike(e: Env, l: Lib, a: Axis, idx: int)
    ensures Supervisor.SetUp(e, l, a.(setupIdx := idx), idx) == Supervisor.SetUp(e, l, a, idx)
  {
    hide Supervisor.BringUp, Talks, ReadAll, DisableLimitProtection;
  }

  lemma TwoReads(e: Env, l: Lib, first: string, second: string)
    ensures ReadAll(e, l, [first, second]) == TmlLib.GetVar(e, TmlLib.GetVar(e, l, first).0, second).0
  {
    hide TmlLib.GetVar, Talks;
    var l' := TmlLib.GetVar(e, l, first).0;
    assert [first, second][1..] == [second];
    assert ReadAll(e, l', [second]) == TmlLib.GetVar(e, l', second).0;
  }
}
