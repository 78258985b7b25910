/** What a call leaves in the axes, field by field. */
module Aftermath {
  import opened Codec
  import opened TmlLib
  import opened Supervisor
  import opened AxisEffects
  import opened Lifting
  import opened Connection
  import opened MaskRegister
  import opened Maps
  import opened Scripted

  // ----- Selecting, whatever the link does -----

  /** An axis after somebody selected one: the same; or, if it selected itself and the library had
      lost it, due for initialisation; or, if that reopened the channel, initialised on it or due
      for its own second try - and, if it was not the one, flagged to start over. */
  predicate Reselected(a: Axis, b: Axis, own: bool, reopened: bool) {
    var still := a.motion.(stopping := false);
    || b == a
    || (own && a.configured && b == a.(needsReinit := true, activated := false, countdown := 0, backoff := 1))
    || (&& reopened && own && a.configured
        && b == if b.needsReinit
                then a.(setupIdx := b.setupIdx, activated := false, powered := false, active := false,
                        needsReinit := true, countdown := 1, backoff := 1)
                else a.(setupIdx := b.setupIdx, activated := true, powered := false, active := true,
                        needsReinit := false, motion := still))
    || (&& reopened && !own && a.configured
        && b == a.(setupIdx := -1, activated := false, powered := false, active := false,
                   needsReinit := true, countdown := 0, backoff := 1, motion := still))
  }

  lemma SelectedIsReselected(a: Axis, b: Axis, own: bool, reopened: bool)
    requires Selected(a, b, own, reopened)
    ensures Reselected(a, b, own, reopened)
  {
  }

  /** Whichever axis is selected, and whatever its three tiers came to. */
  lemma SelectingLeaves(e: Env, w: World, i: nat, j: nat)
    requires i < |w.axes| && j < |w.axes|
    ensures
      var x := Select(e, w, i).0;
      Reselected(w.axes[j], x.axes[j], i == j, x.lib.marks.resets > w.lib.marks.resets)
  {
    hide Select, Selected, Reselected;
    var x := Select(e, w, i).0;
    SelectEffect(e, w, i, j);
    SelectedIsReselected(w.axes[j], x.axes[j], i == j, x.lib.marks.resets > w.lib.marks.resets);
  }

  /** The channel is tried three times before a selection turns to reconnecting. */
  lemma TriedThreeTimes(e: Env, l: Lib, fd: int)
    requires fd >= 0 && SlotOf(l.tab.chans, fd, 0).Some?
    ensures TrySelect(e, l, fd, SELECT_TRIES).1
       <==> e.native || e.reply(l.t).ok || e.reply(l.t + 1).ok || e.reply(l.t + 2).ok
  {
    var l1 := SelectChannel(e, l, fd).0;
    var l2 := SelectChannel(e, l1, fd).0;
    assert TrySelect(e, SelectChannel(e, l2, fd).0, fd, 0).1 == false;
    assert TrySelect(e, l1, fd, 2).1 == (SelectChannel(e, l1, fd).1 || TrySelect(e, l2, fd, 1).1);
  }

  // ----- The commands -----

  function On(a: Axis): Axis { if a.powered then a else a.(powered := true, activated := true, active := true) }

  /** The axis a call was for, before and after it. */
  predicate Left(c: Cmd, a: Axis, b: Axis, ok: bool) {
    var p := a.motion;
    match c
    case CtrlPoll => true
    case DoPoll(_) => true
    case DoConfigure(_, cfg) =>
      b == a.(cfg := cfg, configured := true, setupIdx := b.setupIdx, needsReinit := b.needsReinit,
              activated := !b.needsReinit, active := !b.needsReinit)
    case DoMove(_, _, _, _, _) => Moved(a, b, ok)
    case DoJog(_, _, _) => Moved(a, b, ok)
    case DoHome(_, _, _, _, forwards) =>
      if ok then b == On(a).(motion := Motion(false, true, false, forwards, false, true, false))
      else b == a || b == On(a)
    case DoForceHome(_, _, _) =>
      if !ok then b == a || b == On(a)
      else
        || b == a.(motion := p.(homing := false, homed := true), atHome := true)
        || b == On(a).(motion := Motion(false, true, false, a.cfg.useLsp, false, true, false))
    case DoStop(_) => ok && b == a.(motion := p.(homing := false, stopping := true, done := true, moving := false))
    case DoSetPosition(_, _) => b == a
    case DoClosedLoop(_, on) =>
      if on then b == if ok then On(a) else a
      else ok && b == if a.powered then a.(powered := false, active := false) else a
    case DoParam(_, _) => b == a
  }

  predicate Moved(a: Axis, b: Axis, ok: bool) {
    var p := a.motion;
    if ok then b == On(a).(motion := p.(homing := false, stopping := false, done := false, moving := true))
    else b == a || b == On(a).(motion := p.(homing := false, stopping := false))
  }

  lemma SameAxes(w: World, i: nat)
    requires i < |w.axes|
    ensures w.axes[i := w.axes[i]] == w.axes
  {
  }

  lemma ReadyLeaves(e: Env, w: World, i: nat)
    requires Stands(e, w, i)
    ensures
      var (x, ok) := Ready(e, w, i);
      x.axes == w.axes[i := if ok then On(w.axes[i]) else w.axes[i]]
  {
    hide Select, SwitchOn, Open, Scripted.Aimed, Talks;
    SelectSilent(e, w, i);
    var w1 := Select(e, w, i).0;
    SelectSilent(e, w1, i);
    SameAxes(w, i);
    PowerOnLeaves(e, w1, i);
  }

  lemma PowerOnLeaves(e: Env, w: World, i: nat)
    requires Stands(e, w, i)
    ensures
      var (x, ok) := PowerOn(e, w, i);
      && x.axes == w.axes[i := if ok then On(w.axes[i]) else w.axes[i]]
      && (!ok ==> !w.axes[i].powered)
  {
    hide Select, SwitchOn, Open, Scripted.Aimed, Talks;
    SelectSilent(e, w, i);
    SameAxes(w, i);
    PoweredIsOn(w.axes[i]);
  }

  lemma PoweredIsOn(a: Axis)
    ensures !a.powered ==> Powered(a) == On(a)
    ensures a.powered ==> On(a) == a
  {
  }

  lemma MotionsAre(a: Axis, forwards: bool)
    ensures Moved(a, Started(Released(On(a))), true) && Moved(a, Released(On(a)), false) && Moved(a, a, false)
    ensures HomingStarted(On(a), forwards) == On(a).(motion := Motion(false, true, false, forwards, false, true, false))
  {
  }

  lemma MoveLeaves(e: Env, w: World, i: nat, pos: int, relative: bool, speed: real, acc: real)
    requires Stands(e, w, i)
    ensures
      var (x, ok) := Move(e, w, i, pos, relative, speed, acc);
      x.axes == w.axes[i := x.axes[i]] && Moved(w.axes[i], x.axes[i], ok)
  {
    hide Ready, LaunchMove, Open, On, Started, Released, Moved, Talks;
    ReadyLeaves(e, w, i);
    MotionsAre(w.axes[i], false);
  }

  lemma JogLeaves(e: Env, w: World, i: nat, speed: real, acc: real)
    requires Stands(e, w, i)
    ensures
      var (x, ok) := MoveVelocity(e, w, i, speed, acc);
      x.axes == w.axes[i := x.axes[i]] && Moved(w.axes[i], x.axes[i], ok)
  {
    hide Ready, Launch, Open, On, Started, Released, Moved, Talks;
    ReadyLeaves(e, w, i);
    MotionsAre(w.axes[i], false);
  }

  lemma HomeLeaves(e: Env, w: World, i: nat, maxVelocity: real, velo: real, acc: real, forwards: bool)
    requires Stands(e, w, i)
    ensures
      var (x, ok) := Home(e, w, i, maxVelocity, velo, acc, forwards);
      var a, b := w.axes[i], x.axes[i];
      && x.axes == w.axes[i := b]
      && if ok then b == On(a).(motion := Motion(false, true, false, forwards, false, true, false))
         else b == a || b == On(a)
  {
    hide Ready, LaunchHome, Open, On, HomingStarted, HomeMove, Talks;
    ReadyLeaves(e, w, i);
    SameAxes(w, i);
    MotionsAre(w.axes[i], forwards);
  }

  lemma ForceHomeLeaves(e: Env, w: World, i: nat, velo: real, accl: real)
    requires Stands(e, w, i)
    ensures
      var (x, ok) := ForceHome(e, w, i, velo, accl);
      x.axes == w.axes[i := x.axes[i]] && Left(DoForceHome(i, velo, accl), w.axes[i], x.axes[i], ok)
  {
    hide Select, GetVar, ZeroAtHome, Home, Open, On, LimitBit, Scripted.Aimed, Talks;
    SelectSilent(e, w, i);
    var w1 := Select(e, w, i).0;
    var (l, _, mer) := GetVar(e, w1.lib, "MER");
    var w2 := w1.(lib := l);
    TalkedOpen(e, w1, i, l, w1.axes[i]);
    assert w2 == Talked(w1, i, l, w1.axes[i]) by { SameAxes(w1, i); }
    ZeroLeaves(e, w2, i);
    HomeLeaves(e, w2, i, if velo > 0.0 then velo else 40.0, velo, if accl > 0.0 then accl else 1.0,
      w.axes[i].cfg.useLsp);
  }

  lemma ZeroLeaves(e: Env, w: World, i: nat)
    requires Stands(e, w, i)
    ensures
      var x, a := ZeroAtHome(e, w, i), w.axes[i];
      x.axes == w.axes[i := a.(motion := a.motion.(homing := false, homed := true), atHome := true)]
  {
    hide Select, ZeroPosition, Open, Scripted.Aimed;
    SelectSilent(e, w, i);
  }

  lemma StopLeaves(e: Env, w: World, i: nat)
    requires Stands(e, w, i)
    ensures
      var (x, ok) := Stop(e, w, i);
      var a, p := w.axes[i], w.axes[i].motion;
      ok && x.axes == w.axes[i := a.(motion := p.(homing := false, stopping := true, done := true, moving := false))]
  {
    hide Select, Halt, Open, Scripted.Aimed;
    SelectSilent(e, w, i);
  }

  lemma OthersLeave(e: Env, w: World, i: nat, pos: int, p: Param)
    requires Stands(e, w, i)
    ensures SetPosition(e, w, i, pos).0.axes == w.axes && WriteParam(e, w, i, p).0.axes == w.axes
  {
    hide Select, Send, Carry, Open, Scripted.Aimed;
    SelectSilent(e, w, i);
  }

  lemma LoopLeaves(e: Env, w: World, i: nat, on: bool)
    requires Stands(e, w, i)
    ensures
      var (x, ok) := SetClosedLoop(e, w, i, on);
      x.axes == w.axes[i := x.axes[i]] && Left(DoClosedLoop(i, on), w.axes[i], x.axes[i], ok)
  {
    hide Select, PowerOn, Send, Open, On, Scripted.Aimed;
    SelectSilent(e, w, i);
    SameAxes(w, i);
    PowerOnLeaves(e, w, i);
    PoweredIsOn(w.axes[i]);
  }

  lemma ConfigureLeaves(e: Env, w: World, i: nat, c: Config)
    requires i < |w.axes| && w.fd >= 0
    ensures
      var x := Configure(e, w, i, c);
      x.axes == w.axes[i := x.axes[i]] && Left(DoConfigure(i, c), w.axes[i], x.axes[i], true)
  {
    hide Reinit, SelectChannel;
  }

  /** A configuration before there is a channel, and a stop: the only two calls that change an axis
      then. */
  lemma WithoutChannel(e: Env, w: World, c: Cmd)
    requires w.fd < 0 && !c.CtrlPoll? && !c.DoPoll? && c.i < |w.axes| && (c.DoConfigure? || w.axes[c.i].configured)
    ensures
      var x, a := Step(e, w, c).0, w.axes[c.i];
      var b := x.axes[c.i];
      && x.axes == w.axes[c.i := b]
      && if c.DoConfigure? then
           b == a.(cfg := c.c, configured := true, needsReinit := true, countdown := 0, backoff := 1,
             activated := false,
                   active := false, commsError := true)
         else if c.DoStop? then
           b == a.(motion := a.motion.(homing := false, stopping := true, done := true, moving := false))
         else b == a
  {
    hide TrySelect, SelectAxis, Reconnect, Halt, ZeroPosition, SwitchOn, Carry;
    SameAxes(w, c.i);
  }

  lemma StepLeaves(e: Env, w: World, c: Cmd)
    requires !c.CtrlPoll? && !c.DoPoll? && c.i < |w.axes| && Open(e, w)
    requires c.DoConfigure? || w.axes[c.i].configured
    ensures
      var (x, ok) := Step(e, w, c);
      x.axes == w.axes[c.i := x.axes[c.i]] && Left(c, w.axes[c.i], x.axes[c.i], ok)
  {
    hide Configure, Move, MoveVelocity, Home, ForceHome, Stop, SetPosition, SetClosedLoop, WriteParam, Open, On, Moved;
    SameAxes(w, c.i);
    if c.DoConfigure? {
      OpenHasChannel(e, w);
      ConfigureLeaves(e, w, c.i, c.c);
    } else {
      match c
      case DoMove(i, pos, relative, speed, acc) => MoveLeaves(e, w, i, pos, relative, speed, acc);
      case DoJog(i, speed, acc) => JogLeaves(e, w, i, speed, acc);
      case DoHome(i, v, velo, acc, forwards) => HomeLeaves(e, w, i, v, velo, acc, forwards);
      case DoForceHome(i, velo, accl) => ForceHomeLeaves(e, w, i, velo, accl);
      case DoStop(i) => StopLeaves(e, w, i);
      case DoSetPosition(i, pos) => OthersLeave(e, w, i, pos, SaveEepromParam);
      case DoClosedLoop(i, on) => LoopLeaves(e, w, i, on);
      case DoParam(i, p) => OthersLeave(e, w, i, 0, p);
    }
  }

  lemma OpenHasChannel(e: Env, w: World)
    requires Open(e, w)
    ensures w.fd >= 0
  {
  }

  /** In every native run with the channel open: a call leaves every axis but its own as it was, and
      its own, field by field, as this says. */
  lemma EveryCallLeavesItsAxis(e: Env, n: nat, mem: map<byte, Mem>, cs: seq<Cmd>, c: Cmd)
    requires
      var w := Run(e, Boot(e, n, mem), cs);
      e.native && w.fd >= 0 && !c.CtrlPoll? && !c.DoPoll? && c.i < n && (c.DoConfigure? || w.axes[c.i].configured)
    ensures
      var w := Run(e, Boot(e, n, mem), cs);
      var (x, ok) := Step(e, Later(w), c);
      x.axes == w.axes[c.i := x.axes[c.i]] && Left(c, w.axes[c.i], x.axes[c.i], ok)
  {
    hide Run, Boot, Step, Left, Open, HandedOn, Connected;
    var v := Run(e, Boot(e, n, mem), cs);
    AlwaysConnected(e, n, mem, cs);
    CompleteHandedOn(e);
    MapsInRuns(e, Complete, n, mem, cs);
    LaterOpen(e, v);
    StepLeaves(e, Later(v), c);
  }
}
