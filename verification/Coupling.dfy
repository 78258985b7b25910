/** The driver's homing state and the drive's limit events, where nothing goes unanswered. */
module Coupling {
  import opened Codec
  import opened Masks
  import opened TmlLib
  import opened Supervisor
  import opened Channels
  import opened Initialising
  import opened AxisEffects
  import opened Lifting
  import opened Connection
  import opened AxisMotion
  import opened AxisOutcomes
  import opened Isolation
  import opened MaskRegister

  // ----- The mask that goes with a motion state -----

  /** The limits an axis has been told to ignore, by an initialisation since its home was taken. */
  datatype Drop = Drop(lsp: bool, lsn: bool)

  const NO_DROP := Drop(false, false)

  function Ignoring(d: Drop, c: Config): Drop { Drop(d.lsp || c.ignoreLsp, d.lsn || c.ignoreLsn) }

  /** The limit bit armed is that of the limit being homed to, unless it has been dropped; the
      rest is the drive's own. */
  function Expected(homing: bool, towardLsp: bool, d: Drop, own: word): word {
    LimitsSet(own, homing && towardLsp && !d.lsp, homing && !towardLsp && !d.lsn)
  }

  lemma WithTwice(m: word, a: bool, b: bool, c: bool, d: bool)
    ensures LimitsSet(LimitsSet(m, a, b), c, d) == LimitsSet(m, c, d)
  {
    WithBits(m, a, b);
    WithBits(LimitsSet(m, a, b), c, d);
    WithBits(m, c, d);
    BitsDetermine(LimitsSet(LimitsSet(m, a, b), c, d), LimitsSet(m, c, d));
  }

  lemma ExpectedCleared(homing: bool, towardLsp: bool, d: Drop, own: word, lsp: bool, lsn: bool)
    ensures Cleared(Expected(homing, towardLsp, d, own), lsp, lsn)
         == Expected(homing, towardLsp, Drop(d.lsp || lsp, d.lsn || lsn), own)
  {
    hide HasLsp, HasLsn, LimitsSet, SameElsewhere;
    var a, b := homing && towardLsp && !d.lsp, homing && !towardLsp && !d.lsn;
    WithBits(own, a, b);
    WithTwice(own, a, b, a && !lsp, b && !lsn);
  }

  lemma ExpectedArmed(own: word, forwards: bool)
    ensures Armed(LimitsSet(own, false, false), forwards) == Expected(true, forwards, NO_DROP, own)
  {
    hide HasLsp, HasLsn, LimitsSet, SameElsewhere;
    WithBits(own, false, false);
    WithTwice(own, false, false, forwards, !forwards);
  }

  /** One call's effect on mask and homing state of its own axis, as far as they go together.
      `taken` says that the call was a home and went through. */
  ghost predicate InStep(e: Env, w: World, x: World, i: nat, taken: bool) {
    && |x.axes| == |w.axes| && i < |w.axes|
    && var m, n := Mask(e, w.lib, w.axes[i].cfg.id), Mask(e, x.lib, w.axes[i].cfg.id);
       var p, q := w.axes[i].motion, x.axes[i].motion;
       || (n == m && q.homing == p.homing && q.towardLsp == p.towardLsp && !taken)
       || (n == Cleared(m, true, true) && !q.homing)
       || (n == m && !p.homing && !q.homing)
       || (n == Armed(Cleared(m, true, true), q.towardLsp) && q.homing && taken)
  }

  lemma InStepExpected(e: Env, w: World, x: World, i: nat, taken: bool, d: Drop, own: word)
    requires InStep(e, w, x, i, taken)
    requires Mask(e, w.lib, w.axes[i].cfg.id) == Expected(w.axes[i].motion.homing, w.axes[i].motion.towardLsp, d, own)
    ensures Mask(e, x.lib, w.axes[i].cfg.id)
         == Expected(x.axes[i].motion.homing, x.axes[i].motion.towardLsp, if taken then NO_DROP else d, own)
  {
    hide Mask, Cleared, Armed, LimitsSet;
    ExpectedCleared(w.axes[i].motion.homing, w.axes[i].motion.towardLsp, d, own, true, true);
    ExpectedArmed(own, x.axes[i].motion.towardLsp);
  }

  // ----- The calls for a configured axis on an open channel -----

  ghost predicate Sound(e: Env, w: World) { Acked(e) && Connected(w) && w.fd >= 0 }

  /** If there is an active channel, its map fits the axis's drive. */
  ghost predicate MapFits(e: Env, w: World, i: nat)
    requires i < |w.axes|
  {
    ActiveChan(w.lib).Some? ==> Fits(e, w.axes[i].cfg.id, ActiveChan(w.lib).value.vars)
  }

  ghost predicate SoundFor(e: Env, w: World, i: nat) {
    Sound(e, w) && i < |w.axes| && w.axes[i].configured && MapFits(e, w, i)
  }

  /** No register was written, and the homing state of the axis is the same. */
  ghost predicate Untouched(w: World, x: World, i: nat) {
    && |x.axes| == |w.axes| && i < |w.axes| && x.lib.mem == w.lib.mem
    && x.axes[i].motion.homing == w.axes[i].motion.homing && x.axes[i].motion.towardLsp == w.axes[i].motion.towardLsp
    && x.axes[i].cfg.id == w.axes[i].cfg.id
  }

  lemma UntouchedInStep(e: Env, w: World, x: World, i: nat)
    requires Untouched(w, x, i)
    ensures InStep(e, w, x, i, false)
  {
    hide Cleared, Armed;
    SameMem(e, w.lib, x.lib, w.axes[i].cfg.id);
  }

  /** Natively selecting changes no more of the tables than which axis is selected. */
  lemma SelectTables(e: Env, w: World, i: nat)
    requires e.native && Connected(w) && i < |w.axes|
    ensures
      var l := Select(e, w, i).0.lib;
      && l.tab.setups == w.lib.tab.setups
      && (ActiveChan(l).Some? ==> ActiveChan(w.lib).Some? && ActiveChan(l).value.vars == ActiveChan(w.lib).value.vars)
  {
    hide Reconnect;
    if w.axes[i].configured && w.fd >= 0 { TrySelectStays(e, w.lib, w.fd, SELECT_TRIES); }
  }

  lemma SelectSound(e: Env, w: World, i: nat)
    requires SoundFor(e, w, i)
    ensures
      var (r, ok) := Select(e, w, i);
      && ok && r == w.(lib := r.lib) && r.lib.mem == w.lib.mem
      && Fitted(e, r.lib, w.axes[i].cfg.id) && SoundFor(e, r, i)
  {
    hide Select, OneChannel, Fits;
    NativeSelect(e, w, i);
    SelectKeepsConnected(e, w, i);
    SelectTables(e, w, i);
  }

  lemma AckedHere(e: Env, w: World, i: nat)
    requires SoundFor(e, w, i)
    ensures Acked(e) && e.native && Connected(w) && Sound(e, w) && w.fd >= 0 && i < |w.axes| && w.axes[i].configured
  {
    hide OneChannel;
  }

  lemma QuietUntouched(w: World, x: World, i: nat)
    requires Quiet(w, x, i) && x.lib.mem == w.lib.mem
    ensures Untouched(w, x, i)
  {
  }

  lemma PowerOnUntouched(e: Env, w: World, i: nat)
    requires SoundFor(e, w, i)
    ensures Untouched(w, PowerOn(e, w, i).0, i)
    ensures Fitted(e, w.lib, w.axes[i].cfg.id) ==> Fitted(e, PowerOn(e, w, i).0.lib, w.axes[i].cfg.id)
  {
    hide Select, SwitchOn, Powered, Quiet, SoundFor, Fitted, Talks;
    AckedHere(e, w, i);
    var w1 := Select(e, w, i).0;
    SelectSound(e, w, i);
    TalkStaysFitted(e, w1.lib, SwitchOn(e, w1.lib).0, w.axes[i].cfg.id);
    PowerOnQuiet(e, w, i);
    QuietUntouched(w, PowerOn(e, w, i).0, i);
  }

  lemma PowerOffUntouched(e: Env, w: World, i: nat)
    requires SoundFor(e, w, i)
    ensures Untouched(w, PowerOff(e, w, i).0, i)
  {
    hide Select, Send, Depowered, Quiet, SoundFor, Fitted;
    AckedHere(e, w, i);
    SelectSound(e, w, i);
    NothingStored(e, Select(e, w, i).0.lib, AxisOff);
    PowerOffQuiet(e, w, i);
    QuietUntouched(w, PowerOff(e, w, i).0, i);
  }

  lemma ReadyUntouched(e: Env, w: World, i: nat)
    requires SoundFor(e, w, i)
    ensures Untouched(w, Ready(e, w, i).0, i) && Fitted(e, Ready(e, w, i).0.lib, w.axes[i].cfg.id)
  {
    hide Select, PowerOn, Sound, MapFits, Fitted;
    SelectSound(e, w, i);
    PowerOnUntouched(e, Select(e, w, i).0, i);
  }

  /** From an untouched world: the mask was cleared and the axis is not homing. */
  lemma ClearedInStep(e: Env, w: World, w1: World, i: nat, l: Lib, a: Axis, taken: bool)
    requires Untouched(w, w1, i)
    requires Mask(e, l, w.axes[i].cfg.id) == Cleared(Mask(e, w1.lib, w.axes[i].cfg.id), true, true)
    requires !a.motion.homing
    ensures InStep(e, w, Talked(w1, i, l, a), i, taken)
  {
    hide Cleared, Armed;
    SameMem(e, w.lib, w1.lib, w.axes[i].cfg.id);
  }

  lemma ReleasedNotHoming(a: Axis, ok: bool)
    ensures !(if ok then Started(Released(a)) else Released(a)).motion.homing
  {
  }

  lemma MoveInStep(e: Env, w: World, i: nat, pos: int, relative: bool, speed: real, acc: real)
    requires SoundFor(e, w, i)
    ensures InStep(e, w, Move(e, w, i, pos, relative, speed, acc).0, i, false)
  {
    hide Ready, LaunchMove, SoundFor, Untouched, InStep, Mask, Cleared, Fitted, Released, Started, Talked;
    AckedHere(e, w, i);
    var (w1, ready) := Ready(e, w, i);
    ReadyUntouched(e, w, i);
    if ready {
      var op := MoveOp(pos, relative, speed, acc);
      AckedLaunchMove(e, w1.lib, op, w.axes[i].cfg.id);
      ReleasedNotHoming(w1.axes[i], true);
      ClearedInStep(e, w, w1, i, LaunchMove(e, w1.lib, op).0, Started(Released(w1.axes[i])), false);
    } else { UntouchedInStep(e, w, w1, i); }
  }

  lemma JogInStep(e: Env, w: World, i: nat, speed: real, acc: real)
    requires SoundFor(e, w, i)
    ensures InStep(e, w, MoveVelocity(e, w, i, speed, acc).0, i, false)
  {
    hide Ready, Launch, SoundFor, Untouched, InStep, Mask, Cleared, Fitted, Released, Started, Talked;
    AckedHere(e, w, i);
    var (w1, ready) := Ready(e, w, i);
    ReadyUntouched(e, w, i);
    if ready {
      AckedLaunch(e, w1.lib, MoveVel(speed, acc), w.axes[i].cfg.id);
      ReleasedNotHoming(w1.axes[i], true);
      ClearedInStep(e, w, w1, i, Launch(e, w1.lib, MoveVel(speed, acc)).0, Started(Released(w1.axes[i])), false);
    } else { UntouchedInStep(e, w, w1, i); }
  }

  lemma ArmedInStep(e: Env, w: World, w1: World, i: nat, l: Lib, forwards: bool)
    requires Untouched(w, w1, i)
    requires Mask(e, l, w.axes[i].cfg.id) == Armed(Cleared(Mask(e, w1.lib, w.axes[i].cfg.id), true, true), forwards)
    ensures InStep(e, w, Talked(w1, i, l, HomingStarted(w1.axes[i], forwards)), i, true)
  {
    hide Cleared, Armed;
    SameMem(e, w.lib, w1.lib, w.axes[i].cfg.id);
  }

  lemma HomeInStep(e: Env, w: World, i: nat, maxVelocity: real, velo: real, acc: real, forwards: bool)
    requires SoundFor(e, w, i)
    ensures
      var (x, ok) := Home(e, w, i, maxVelocity, velo, acc, forwards);
      InStep(e, w, x, i, ok)
  {
    hide Ready, LaunchHome, HomeMove, SoundFor, InStep, Mask, Cleared, Armed, Fitted, HomingStarted, Talked;
    AckedHere(e, w, i);
    UntouchedInStep(e, w, w, i);
    var (w1, ready) := Ready(e, w, i);
    ReadyUntouched(e, w, i);
    UntouchedInStep(e, w, w1, i);
    if ready {
      var op := HomeMove(maxVelocity, velo, acc, forwards);
      HomeHarmless(maxVelocity, velo, acc, forwards);
      AckedLaunchHome(e, w1.lib, op, forwards, w.axes[i].cfg.id);
      ArmedInStep(e, w, w1, i, LaunchHome(e, w1.lib, op, forwards).0, forwards);
    }
  }

  lemma HomeHarmless(maxVelocity: real, velo: real, acc: real, forwards: bool)
    ensures Harmless(HomeMove(maxVelocity, velo, acc, forwards))
  {
  }

  lemma AtHomeNotHoming(a: Axis)
    ensures !AtHome(a).motion.homing && !Halted(a).motion.homing
  {
  }

  lemma ZeroInStep(e: Env, w: World, i: nat, taken: bool)
    requires SoundFor(e, w, i)
    ensures InStep(e, w, ZeroAtHome(e, w, i), i, taken)
  {
    hide Select, ZeroPosition, AtHome, SoundFor, InStep, Mask, Cleared, Fitted, Talked;
    AckedHere(e, w, i);
    var w1 := Select(e, w, i).0;
    SelectSound(e, w, i);
    AckedZero(e, w1.lib, w.axes[i].cfg.id);
    AtHomeNotHoming(w1.axes[i]);
    ClearedInStep(e, w, w1, i, ZeroPosition(e, w1.lib), AtHome(w1.axes[i]), taken);
  }

  lemma TalkedSound(e: Env, w: World, i: nat, l: Lib, a: Axis)
    requires SoundFor(e, w, i) && Talks(w.lib, l) && a.cfg.id == w.axes[i].cfg.id && a.configured
    ensures SoundFor(e, Talked(w, i, l, a), i)
  {
    hide Fits;
    SameChannelsKeepsOne(w.lib, l, w.fd);
  }

  lemma InStepAfter(e: Env, w: World, x: World, y: World, i: nat, taken: bool)
    requires Untouched(w, x, i) && InStep(e, x, y, i, taken)
    ensures InStep(e, w, y, i, taken)
  {
    hide Cleared, Armed;
    SameMem(e, w.lib, x.lib, w.axes[i].cfg.id);
  }

  lemma ForceHomeInStep(e: Env, w: World, i: nat, velo: real, accl: real)
    requires SoundFor(e, w, i)
    ensures
      var (x, ok) := ForceHome(e, w, i, velo, accl);
      InStep(e, w, x, i, ok)
  {
    hide Select, GetVar, ZeroAtHome, Home, LimitBit, SoundFor, InStep, Fitted, Talks;
    AckedHere(e, w, i);
    var w1 := Select(e, w, i).0;
    SelectSound(e, w, i);
    var l := GetVar(e, w1.lib, "MER").0;
    var w2 := w1.(lib := l);
    TalkedSound(e, w1, i, l, w1.axes[i]);
    assert w2 == Talked(w1, i, l, w1.axes[i]);
    ZeroInStep(e, w2, i, true);
    InStepAfter(e, w, w2, ZeroAtHome(e, w2, i), i, true);
    var v, a := if velo > 0.0 then velo else 40.0, if accl > 0.0 then accl else 1.0;
    HomeInStep(e, w2, i, v, velo, a, w.axes[i].cfg.useLsp);
    InStepAfter(e, w, w2, Home(e, w2, i, v, velo, a, w.axes[i].cfg.useLsp).0, i,
      Home(e, w2, i, v, velo, a, w.axes[i].cfg.useLsp).1);
  }

  lemma StopInStep(e: Env, w: World, i: nat)
    requires SoundFor(e, w, i)
    ensures InStep(e, w, Stop(e, w, i).0, i, false)
  {
    hide Select, Halt, Halted, SoundFor, Cleared, Fitted, Mask;
    AckedHere(e, w, i);
    var w1 := Select(e, w, i).0;
    SelectSound(e, w, i);
    AckedHalt(e, w1.lib, w1.axes[i].motion.homing, w.axes[i].cfg.id);
    AtHomeNotHoming(w1.axes[i]);
    SameMem(e, w.lib, w1.lib, w.axes[i].cfg.id);
  }

  lemma ObservedHoming(a: Axis, r: Readings)
    ensures
      var b := Observed(a, r);
      && b.motion.homing == a.motion.homing && b.motion.towardLsp == a.motion.towardLsp
      && b.cfg == a.cfg && b.configured == a.configured
  {
  }

  lemma ObserveInStep(e: Env, w: World, i: nat)
    requires SoundFor(e, w, i)
    ensures InStep(e, w, Observe(e, w, i).0, i, false)
  {
    hide Select, ReadStatus, Observed, Reached, ZeroAtHome, SoundFor, InStep, Fitted, Talks;
    AckedHere(e, w, i);
    var w1 := Select(e, w, i).0;
    SelectSound(e, w, i);
    var (l, r) := ReadStatus(e, w1.lib, w1.axes[i].polls);
    var a := Observed(w1.axes[i], r);
    ObservedHoming(w1.axes[i], r);
    var w2 := Talked(w1, i, l, a);
    TalkedSound(e, w1, i, l, a);
    UntouchedInStep(e, w, w2, i);
    if r.ok && Reached(a.motion, r.mer) {
      ZeroInStep(e, w2, i, false);
      InStepAfter(e, w, w2, ZeroAtHome(e, w2, i), i, false);
    }
  }

  lemma ParamInStep(e: Env, w: World, i: nat, p: Param)
    requires SoundFor(e, w, i) && !p.ResetDriveParam?
    ensures InStep(e, w, WriteParam(e, w, i, p).0, i, false)
  {
    hide Select, Carry, SoundFor, Fitted, Cleared, Armed, Mask;
    AckedHere(e, w, i);
    SelectSound(e, w, i);
    var w1 := Select(e, w, i).0;
    SameMem(e, w.lib, w1.lib, w.axes[i].cfg.id);
    CarryLeaves(e, w1.lib, p, w.axes[i].cfg.id);
  }

  lemma SetPositionUntouched(e: Env, w: World, i: nat, pos: int)
    requires SoundFor(e, w, i)
    ensures Untouched(w, SetPosition(e, w, i, pos).0, i)
  {
    hide Select, Send, SoundFor, Fitted;
    AckedHere(e, w, i);
    SelectSound(e, w, i);
    NothingStored(e, Select(e, w, i).0.lib, Sap(pos));
  }

  predicate Takes(c: Cmd, ok: bool) { (c.DoHome? || c.DoForceHome?) && ok }

  /** No command for a configured axis over a map that fits its drive gets its mask and its
      homing state out of step, save a reset of the drive. */
  lemma CommandInStep(e: Env, w: World, c: Cmd)
    requires IsCommand(c) && SoundFor(e, w, c.i) && !(c.DoParam? && c.p == ResetDriveParam)
    ensures InStep(e, w, Step(e, w, c).0, c.i, Takes(c, Step(e, w, c).1))
  {
    hide InStep, SoundFor, Move, MoveVelocity, Home, ForceHome, Stop, SetPosition, PowerOn, PowerOff, WriteParam,
      Untouched;
    AckedHere(e, w, c.i);
    match c
    case DoMove(i, pos, relative, speed, acc) => MoveInStep(e, w, i, pos, relative, speed, acc);
    case DoJog(i, speed, acc) => JogInStep(e, w, i, speed, acc);
    case DoHome(i, v, velo, acc, forwards) => HomeInStep(e, w, i, v, velo, acc, forwards);
    case DoForceHome(i, velo, accl) => ForceHomeInStep(e, w, i, velo, accl);
    case DoStop(i) => StopInStep(e, w, i);
    case DoSetPosition(i, pos) =>
      SetPositionUntouched(e, w, i, pos);
      UntouchedInStep(e, w, Step(e, w, c).0, i);
    case DoClosedLoop(i, on) =>
      PowerOnUntouched(e, w, i);
      PowerOffUntouched(e, w, i);
      UntouchedInStep(e, w, Step(e, w, c).0, i);
    case DoParam(i, p) => ParamInStep(e, w, i, p);
  }

  // ----- One home, whatever the map -----

  lemma PowerOnTables(e: Env, w: World, i: nat)
    requires e.native && Connected(w) && i < |w.axes|
    ensures
      var l := PowerOn(e, w, i).0.lib;
      && l.mem == w.lib.mem
      && (ActiveChan(l).Some? ==> ActiveChan(w.lib).Some? && ActiveChan(l).value.vars == ActiveChan(w.lib).value.vars)
  {
    hide Select, SwitchOn, Powered;
    NativeSelect(e, w, i);
    SelectTables(e, w, i);
  }

  lemma ReadyTables(e: Env, w: World, i: nat)
    requires e.native && Connected(w) && i < |w.axes|
    ensures
      var l := Ready(e, w, i).0.lib;
      && l.mem == w.lib.mem
      && (ActiveChan(l).Some? ==> ActiveChan(w.lib).Some? && ActiveChan(l).value.vars == ActiveChan(w.lib).value.vars)
  {
    hide Select, PowerOn;
    NativeSelect(e, w, i);
    SelectTables(e, w, i);
    SelectKeepsConnected(e, w, i);
    PowerOnTables(e, Select(e, w, i).0, i);
  }

  /** With nothing going unanswered and no other name on the mask register, a home that is
      reported as started has cleared the drive's limit events and armed the one it heads for,
      exactly if the map it found had MER_MASK at the drive's own register; if not, it has left
      them as they were. */
  lemma HomeArmsIff(e: Env, w: World, i: nat, maxVelocity: real, velo: real, acc: real, forwards: bool)
    requires Sound(e, w) && i < |w.axes| && ActiveChan(w.lib).Some?
    requires Apart(e, w.axes[i].cfg.id, ActiveChan(w.lib).value.vars)
    requires Home(e, w, i, maxVelocity, velo, acc, forwards).1
    ensures
      var id := w.axes[i].cfg.id;
      var x := Home(e, w, i, maxVelocity, velo, acc, forwards).0;
      Mask(e, x.lib, id) == if Resolve(ActiveChan(w.lib).value.vars, "MER_MASK") == e.maskAt(id)
                            then Armed(Cleared(Mask(e, w.lib, id), true, true), forwards) else Mask(e, w.lib, id)
  {
    hide Ready, LaunchHome, HomeMove, Mask, Cleared, Armed, HomingStarted, Apart, OneChannel, Quiet, Resolve;
    var id := w.axes[i].cfg.id;
    var w1 := Ready(e, w, i).0;
    ReadyTables(e, w, i);
    ReadyQuiet(e, w, i);
    SameMem(e, w.lib, w1.lib, id);
    HomeHarmless(maxVelocity, velo, acc, forwards);
    var op := HomeMove(maxVelocity, velo, acc, forwards);
    if Resolve(ActiveChan(w.lib).value.vars, "MER_MASK") == e.maskAt(id) {
      AckedLaunchHome(e, w1.lib, op, forwards, id);
    }
    else { StrayLaunchHome(e, w1.lib, op, forwards, id); }
  }
}
