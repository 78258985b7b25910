/** What each call does to the motion state of the axes, and what it leaves in the log. */
module AxisMotion {
  import opened Codec
  import opened Masks
  import opened TmlLib
  import opened Supervisor
  import opened Channels
  import opened Initialising
  import opened AxisEffects
  import opened Connection
  import opened Wire

  function M(a: Axis): Motion { a.motion }

  /** A channel reopened for the axes to start over may cost the stop latch; nothing else is
      touched. */
  predicate Drift(p: Motion, q: Motion, reopened: bool) {
    q == p || (reopened && q == p.(stopping := false))
  }

  // ----- The log -----

  ghost predicate Onward(l: Lib, r: Lib) {
    l.sent <= r.sent && l.marks.resets <= r.marks.resets
  }

  /** The channel was reopened and the axes were made to start over on it. */
  predicate Reopened(l: Lib, r: Lib) { r.marks.resets > l.marks.resets }

  ghost predicate MoveSent(l: Lib, r: Lib) {
    exists k :: |l.sent| <= k < |r.sent| && IsMove(r.sent[k].op)
  }

  /** The register was read and the answer was v. */
  ghost predicate WasRead(l: Lib, r: Lib, name: string, v: word) {
    exists k :: |l.sent| <= k < |r.sent| && r.sent[k].op == Read(name) && r.sent[k].ok && r.sent[k].val == v
  }

  lemma OnwardOn(l: Lib, m: Lib, r: Lib)
    requires Onward(l, m) && Onward(m, r)
    ensures Onward(l, r) && (Reopened(l, m) || Reopened(m, r) <==> Reopened(l, r))
  {
  }

  lemma SentLater(l: Lib, m: Lib, r: Lib)
    requires Onward(l, m) && Onward(m, r)
    ensures MoveSent(l, m) || MoveSent(m, r) ==> MoveSent(l, r)
    ensures forall name, v :: WasRead(l, m, name, v) || WasRead(m, r, name, v) ==> WasRead(l, r, name, v)
  {
    if MoveSent(l, m) {
      var k :| |l.sent| <= k < |m.sent| && IsMove(m.sent[k].op);
      assert r.sent[k] == m.sent[k];
    }
    forall name, v | WasRead(l, m, name, v) ensures WasRead(l, r, name, v) {
      var k :| |l.sent| <= k < |m.sent| && m.sent[k].op == Read(name) && m.sent[k].ok && m.sent[k].val == v;
      assert r.sent[k] == m.sent[k];
    }
  }

  lemma TalkOnward(l: Lib, r: Lib)
    requires Talks(l, r)
    ensures Onward(l, r) && !Reopened(l, r)
  {
  }

  // ----- Selecting -----

  lemma SelectedDrifts(a: Axis, b: Axis, own: bool, reopened: bool)
    requires Selected(a, b, own, reopened)
    ensures SameIdentity(a, b) && Drift(M(a), M(b), reopened)
  {
    hide Lost, Flagged, Recovered, SameIdentity;
    AlikeItself(a);
    if b == a { assert SameIdentity(a, b) by { SameIdentityItself(a); } }
    else if own && b == Lost(a) { LostDrifts(a); }
    else if own { RecoveredDrifts(a, b.setupIdx, !b.needsReinit); }
    else { FlaggedDrifts(a); }
  }

  lemma SameIdentityItself(a: Axis)
    ensures SameIdentity(a, a)
  {
  }

  lemma LostDrifts(a: Axis)
    ensures SameIdentity(a, Lost(a)) && M(Lost(a)) == M(a)
  {
  }

  lemma FlaggedDrifts(a: Axis)
    ensures SameIdentity(a, Flagged(a).(active := false)) && M(Flagged(a).(active := false)) == M(a).(stopping := false)
  {
  }

  lemma FlaggedPublishedDrifts(a: Axis)
    ensures SameIdentity(a, Flagged(a)) && M(Flagged(a)) == M(a).(stopping := false)
  {
  }

  lemma RecoveredDrifts(a: Axis, idx: int, ok: bool)
    ensures
      var b := Recovered(a.(setupIdx := idx), ok);
      SameIdentity(a, b) && M(b) == if ok then M(a).(stopping := false) else M(a)
  {
  }

  lemma ReconnectOnward(e: Env, w: World, i: nat, now: real)
    requires i < |w.axes|
    ensures Onward(w.lib, Reconnect(e, w, i, now).0.lib)
    ensures Reconnect(e, w, i, now).1 ==> Addressed(Reconnect(e, w, i, now).0.lib, w.axes[i].cfg.id)
  {
    hide OpenChannel, CloseChannel, SelectChannel, Reinit, FlagAll, Recovered, SameChannels, SlotTaken, Addressed;
    var (l, fd) := OpenChannel(e, CloseChannel(w.lib, w.fd), now);
    ReinitInitialises(e, StartedOver(SelectChannel(e, Tick(l), fd).0), w.axes[i].(setupIdx := -1));
  }

  /** Whoever selects: every axis stays what it is, and a successful selection aims at the
      axis that made it. */
  lemma SelectDrifts(e: Env, w: World, i: nat, j: nat)
    requires i < |w.axes| && j < |w.axes|
    ensures
      var (r, ok) := Select(e, w, i);
      && SameIdentity(w.axes[j], r.axes[j]) && Drift(M(w.axes[j]), M(r.axes[j]), Reopened(w.lib, r.lib))
      && Onward(w.lib, r.lib)
      && (ok ==> Addressed(r.lib, w.axes[i].cfg.id))
  {
    hide Select, Selected, M, SameIdentity, Addressed;
    SelectEffect(e, w, i, j);
    var (r, ok) := Select(e, w, i);
    SelectedDrifts(w.axes[j], r.axes[j], i == j, Reopened(w.lib, r.lib));
    SelectOnward(e, w, i);
  }

  lemma SelectOnward(e: Env, w: World, i: nat)
    requires i < |w.axes|
    ensures Onward(w.lib, Select(e, w, i).0.lib)
    ensures Select(e, w, i).1 ==> Addressed(Select(e, w, i).0.lib, w.axes[i].cfg.id)
  {
    hide TrySelect, SelectAxis, Reconnect, Lost, Addressed;
    if w.axes[i].configured && w.fd >= 0 {
      var (l, ok) := TrySelect(e, w.lib, w.fd, SELECT_TRIES);
      if ok { SelectingAxis(e, l, w.axes[i].cfg.id); }
      else { ReconnectOnward(e, w.(lib := Tick(l)), i, Now(e, l)); }
    }
  }

  // ----- Power -----

  /** Axis i is as it was but for drift, and so is every other. */
  ghost predicate Quiet(w: World, x: World, i: nat) {
    && |x.axes| == |w.axes| && i < |w.axes| && Onward(w.lib, x.lib)
    && SameIdentity(w.axes[i], x.axes[i]) && Drift(M(w.axes[i]), M(x.axes[i]), Reopened(w.lib, x.lib))
  }

  lemma QuietOn(w: World, x: World, y: World, i: nat)
    requires Quiet(w, x, i) && Quiet(x, y, i)
    ensures Quiet(w, y, i)
  {
    OnwardOn(w.lib, x.lib, y.lib);
  }

  lemma SelectQuiet(e: Env, w: World, i: nat)
    requires i < |w.axes|
    ensures Quiet(w, Select(e, w, i).0, i)
  {
    hide Select, SameIdentity, M;
    SelectDrifts(e, w, i, i);
  }

  /** Talk after which the axis has the same motion state. */
  lemma TalkQuiet(w: World, i: nat, l: Lib, a: Axis)
    requires i < |w.axes| && Talks(w.lib, l) && SameIdentity(w.axes[i], a) && M(a) == M(w.axes[i])
    ensures Quiet(w, Talked(w, i, l, a), i)
  {
    hide SameIdentity, M;
    TalkOnward(w.lib, l);
  }

  lemma PoweredDrifts(a: Axis)
    ensures SameIdentity(a, Powered(a)) && M(Powered(a)) == M(a)
  {
  }

  lemma DepoweredDrifts(a: Axis)
    ensures SameIdentity(a, Depowered(a)) && M(Depowered(a)) == M(a)
  {
  }

  lemma ItselfQuiet(w: World, i: nat)
    requires i < |w.axes|
    ensures Quiet(w, w, i)
  {
  }

  lemma PowerOnQuiet(e: Env, w: World, i: nat)
    requires i < |w.axes|
    ensures Quiet(w, PowerOn(e, w, i).0, i)
    ensures PowerOn(e, w, i).1 && Addressed(w.lib, w.axes[i].cfg.id) ==>
      Addressed(PowerOn(e, w, i).0.lib, w.axes[i].cfg.id)
  {
    hide Select, SwitchOn, Powered, Talks, M, SameIdentity, Quiet, Talked;
    var (w1, ok) := Select(e, w, i);
    ItselfQuiet(w, i);
    SelectQuiet(e, w, i);
    if !w.axes[i].powered && ok {
      var (l, on) := SwitchOn(e, w1.lib);
      PoweredDrifts(w1.axes[i]);
      SameIdentityItself(w1.axes[i]);
      var a := if on then Powered(w1.axes[i]) else w1.axes[i];
      TalkQuiet(w1, i, l, a);
      QuietOn(w, w1, Talked(w1, i, l, a), i);
      StillAimed(e, w, i, l, a);
    }
  }

  lemma StillAimed(e: Env, w: World, i: nat, l: Lib, a: Axis)
    requires i < |w.axes| && Select(e, w, i).1 && Talks(Select(e, w, i).0.lib, l)
    ensures Addressed(Talked(Select(e, w, i).0, i, l, a).lib, w.axes[i].cfg.id)
  {
    hide Select;
    SelectOnward(e, w, i);
  }

  lemma PowerOffQuiet(e: Env, w: World, i: nat)
    requires i < |w.axes|
    ensures Quiet(w, PowerOff(e, w, i).0, i)
  {
    hide Select, Send, Depowered, Talks, M, SameIdentity, Quiet, Talked;
    var (w1, ok) := Select(e, w, i);
    ItselfQuiet(w, i);
    SelectQuiet(e, w, i);
    if w.axes[i].powered && ok {
      var l := Send(e, w1.lib, AxisOff).0;
      DepoweredDrifts(w1.axes[i]);
      TalkQuiet(w1, i, l, Depowered(w1.axes[i]));
      QuietOn(w, w1, Talked(w1, i, l, Depowered(w1.axes[i])), i);
    }
  }

  lemma ReadyQuiet(e: Env, w: World, i: nat)
    requires i < |w.axes|
    ensures Quiet(w, Ready(e, w, i).0, i)
    ensures Ready(e, w, i).1 ==> Addressed(Ready(e, w, i).0.lib, w.axes[i].cfg.id)
  {
    hide Select, PowerOn, Quiet, Addressed;
    ItselfQuiet(w, i);
    var (w1, ok) := Select(e, w, i);
    SelectQuiet(e, w, i);
    if ok {
      PowerOnQuiet(e, w1, i);
      QuietOn(w, w1, PowerOn(e, w1, i).0, i);
      SelectOnward(e, w, i);
      SameId(w, w1, i);
    }
  }

  lemma SameId(w: World, x: World, i: nat)
    requires Quiet(w, x, i)
    ensures |x.axes| == |w.axes| && i < |w.axes| && x.axes[i].cfg.id == w.axes[i].cfg.id
    ensures x.axes[i].configured == w.axes[i].configured
    ensures x.axes[i].cfg.useLsp == w.axes[i].cfg.useLsp
  {
  }

  lemma TalkOnlyQuiet(w: World, i: nat, l: Lib)
    requires i < |w.axes| && Talks(w.lib, l)
    ensures Quiet(w, w.(lib := l), i)
  {
    hide M;
    TalkOnward(w.lib, l);
  }

  lemma SetPositionQuiet(e: Env, w: World, i: nat, pos: int)
    requires i < |w.axes|
    ensures Quiet(w, SetPosition(e, w, i, pos).0, i)
  {
    hide Select, Send, Talks, Quiet;
    ItselfQuiet(w, i);
    var (w1, ok) := Select(e, w, i);
    SelectQuiet(e, w, i);
    TalkOnlyQuiet(w1, i, Send(e, w1.lib, Sap(pos)).0);
    QuietOn(w, w1, w1.(lib := Send(e, w1.lib, Sap(pos)).0), i);
  }

  lemma ParamQuiet(e: Env, w: World, i: nat, p: Param)
    requires i < |w.axes|
    ensures Quiet(w, WriteParam(e, w, i, p).0, i)
  {
    hide Select, Carry, Talks, Quiet;
    var (w1, ok) := Select(e, w, i);
    SelectQuiet(e, w, i);
    TalkOnlyQuiet(w1, i, Carry(e, w1.lib, p).0);
    QuietOn(w, w1, w1.(lib := Carry(e, w1.lib, p).0), i);
  }

  lemma ClosedLoopQuiet(e: Env, w: World, i: nat, on: bool)
    requires i < |w.axes|
    ensures Quiet(w, SetClosedLoop(e, w, i, on).0, i)
  {
    hide PowerOn, PowerOff, Quiet;
    ItselfQuiet(w, i);
    PowerOnQuiet(e, w, i);
    PowerOffQuiet(e, w, i);
  }

  // ----- Moving -----

  lemma LaunchSends(e: Env, l: Lib, op: Op)
    requires ActiveChan(l).Some? && IsMove(op)
    ensures MoveSent(l, Launch(e, l, op).0)
  {
    hide ClearLimitSwitchEvent, Talks;
    var l' := ClearLimitSwitchEvent(e, l);
    TalkOnward(l, l');
    StillActive(l, l');
    var r := Send(e, l', op).0;
    assert r.sent[|l'.sent|].op == op;
  }

  lemma StillActive(l: Lib, r: Lib)
    requires Talks(l, r) && ActiveChan(l).Some?
    ensures ActiveChan(r).Some?
  {
  }

  lemma ReleasedMotion(a: Axis, ok: bool)
    ensures
      var b := if ok then Started(Released(a)) else Released(a);
      && SameIdentity(a, b)
      && M(b) == (if ok then M(a).(homing := false, stopping := false, done := false, moving := true)
                  else M(a).(homing := false, stopping := false))
  {
  }

  /** A move or jog that did not get past power-on changed nothing; one that did sent a motion
      command, gave up homing and the stop latch, and shows the axis moving if it was taken. */
  predicate MoveEffect(p: Motion, q: Motion, ok: bool) {
    q == if ok then p.(homing := false, stopping := false, done := false, moving := true)
         else p.(homing := false, stopping := false)
  }

  ghost predicate MoveOutcome(w: World, x: World, i: nat, ok: bool) {
    || (Quiet(w, x, i) && !ok && !MoveSent(w.lib, x.lib))
    || (|x.axes| == |w.axes| && i < |w.axes| && Onward(w.lib, x.lib) && SameIdentity(w.axes[i], x.axes[i])
        && MoveSent(w.lib, x.lib) && MoveEffect(M(w.axes[i]), M(x.axes[i]), ok))
  }

  lemma LaunchedOutcome(w: World, w1: World, i: nat, l: Lib, ok: bool)
    requires Quiet(w, w1, i) && Talks(w1.lib, l) && MoveSent(w1.lib, l)
    ensures
      var a := Released(w1.axes[i]);
      MoveOutcome(w, Talked(w1, i, l, if ok then Started(a) else a), i, ok)
  {
    hide Released, Started, Talks;
    ReleasedMotion(w1.axes[i], ok);
    TalkOnward(w1.lib, l);
    SentLater(w.lib, w1.lib, l);
  }

  lemma MoveMoves(e: Env, w: World, i: nat, pos: int, relative: bool, speed: real, acc: real)
    requires i < |w.axes|
    ensures MoveOutcome(w, Move(e, w, i, pos, relative, speed, acc).0, i, Move(e, w, i, pos, relative, speed, acc).1)
  {
    hide Ready, LaunchMove, Quiet, MoveSent, Talks, MoveOutcome, Addressed, Released, Started, Talked;
    var (w1, ready) := Ready(e, w, i);
    ReadyQuiet(e, w, i);
    ReadyNoMove(e, w, i);
    if ready {
      AddressedIsActive(w1.lib, w.axes[i].cfg.id);
      LaunchMoveSends(e, w1.lib, MoveOp(pos, relative, speed, acc));
      var (l, ok) := LaunchMove(e, w1.lib, MoveOp(pos, relative, speed, acc));
      LaunchedOutcome(w, w1, i, l, ok);
    } else { QuietOutcome(w, w1, i); }
  }

  lemma QuietOutcome(w: World, x: World, i: nat)
    requires Quiet(w, x, i) && NoMove(w.lib, x.lib)
    ensures MoveOutcome(w, x, i, false)
  {
  }

  lemma AddressedIsActive(l: Lib, id: byte)
    requires Addressed(l, id)
    ensures ActiveChan(l).Some?
  {
  }

  lemma LaunchMoveSends(e: Env, l: Lib, op: Op)
    requires ActiveChan(l).Some? && IsMove(op)
    ensures MoveSent(l, LaunchMove(e, l, op).0)
  {
    hide Launch, SetEventOnMotionComplete, Talks, MoveSent;
    LaunchSends(e, l, op);
    var (l', ok) := Launch(e, l, op);
    TalkOnward(l, l');
    TalkOnward(l', SetEventOnMotionComplete(e, l'));
    SentLater(l, l', SetEventOnMotionComplete(e, l'));
  }

  lemma JogMoves(e: Env, w: World, i: nat, speed: real, acc: real)
    requires i < |w.axes|
    ensures MoveOutcome(w, MoveVelocity(e, w, i, speed, acc).0, i, MoveVelocity(e, w, i, speed, acc).1)
  {
    hide Ready, Launch, Quiet, MoveSent, Talks, MoveOutcome, Addressed, Released, Started, Talked;
    var (w1, ready) := Ready(e, w, i);
    ReadyQuiet(e, w, i);
    ReadyNoMove(e, w, i);
    if ready {
      AddressedIsActive(w1.lib, w.axes[i].cfg.id);
      LaunchSends(e, w1.lib, MoveVel(speed, acc));
      var (l, ok) := Launch(e, w1.lib, MoveVel(speed, acc));
      LaunchedOutcome(w, w1, i, l, ok);
    } else { QuietOutcome(w, w1, i); }
  }
}
