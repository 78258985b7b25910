/** The outcome of each call for the axis it is made for, and for all the others. */
module AxisOutcomes {
  import opened Codec
  import opened Masks
  import opened TmlLib
  import opened Supervisor
  import opened Channels
  import opened Initialising
  import opened AxisEffects
  import opened Lifting
  import opened Wire
  import opened AxisMotion

  // ----- Homing -----

  predicate HomeEffect(p: Motion, q: Motion, forwards: bool) {
    q == p.(homing := true, moveSeen := false, towardLsp := forwards, stopping := false, homed := false, done := false,
      moving := true)
  }

  /** Only a home whose move and limit event were both taken changes the axis. */
  ghost predicate HomeOutcome(w: World, x: World, i: nat, forwards: bool, ok: bool) {
    if !ok then Quiet(w, x, i)
    else
      && |x.axes| == |w.axes| && i < |w.axes| && Onward(w.lib, x.lib) && SameIdentity(w.axes[i], x.axes[i])
      && MoveSent(w.lib, x.lib) && HomeEffect(M(w.axes[i]), M(x.axes[i]), forwards)
  }

  lemma HomingStartedMotion(a: Axis, forwards: bool)
    ensures SameIdentity(a, HomingStarted(a, forwards)) && HomeEffect(M(a), M(HomingStarted(a, forwards)), forwards)
  {
  }

  lemma LaunchHomeSends(e: Env, l: Lib, op: Op, forwards: bool)
    requires ActiveChan(l).Some? && IsMove(op)
    ensures MoveSent(l, LaunchHome(e, l, op, forwards).0)
  {
    hide Launch, SetEventOnLimitSwitch, Talks, MoveSent;
    LaunchSends(e, l, op);
    var (l', ok) := Launch(e, l, op);
    TalkOnward(l, l');
    TalkOnward(l', SetEventOnLimitSwitch(e, l', forwards).0);
    SentLater(l, l', SetEventOnLimitSwitch(e, l', forwards).0);
  }

  lemma HomedOutcome(w: World, w1: World, i: nat, l: Lib, forwards: bool)
    requires Quiet(w, w1, i) && Talks(w1.lib, l) && MoveSent(w1.lib, l)
    ensures HomeOutcome(w, Talked(w1, i, l, HomingStarted(w1.axes[i], forwards)), i, forwards, true)
  {
    hide HomingStarted, Talks;
    HomingStartedMotion(w1.axes[i], forwards);
    TalkOnward(w1.lib, l);
    SentLater(w.lib, w1.lib, l);
  }

  lemma SameQuiet(w: World, w1: World, i: nat, l: Lib)
    requires Quiet(w, w1, i) && Talks(w1.lib, l)
    ensures Quiet(w, Talked(w1, i, l, w1.axes[i]), i)
  {
    hide Quiet, M, SameIdentity;
    SameId(w, w1, i);
    SameIdentityItself(w1.axes[i]);
    TalkQuiet(w1, i, l, w1.axes[i]);
    QuietOn(w, w1, Talked(w1, i, l, w1.axes[i]), i);
  }

  lemma HomeHomes(e: Env, w: World, i: nat, maxVelocity: real, velo: real, acc: real, forwards: bool)
    requires i < |w.axes|
    ensures
      var (x, ok) := Home(e, w, i, maxVelocity, velo, acc, forwards);
      HomeOutcome(w, x, i, forwards, ok)
  {
    hide Ready, LaunchHome, Quiet, MoveSent, Talks, Addressed, HomingStarted, Talked, HomeEffect, SameIdentity, Onward;
    var (w1, ready) := Ready(e, w, i);
    ReadyQuiet(e, w, i);
    ItselfQuiet(w, i);
    if ready {
      AddressedIsActive(w1.lib, w.axes[i].cfg.id);
      var op := HomeMove(maxVelocity, velo, acc, forwards);
      LaunchHomeSends(e, w1.lib, op, forwards);
      var (l, ok) := LaunchHome(e, w1.lib, op, forwards);
      if ok { HomedOutcome(w, w1, i, l, forwards); } else { SameQuiet(w, w1, i, l); }
    }
  }

  /** Homed: no longer homing; a channel reopened on the way may cost the stop latch. */
  ghost predicate ZeroOutcome(w: World, x: World, i: nat) {
    && |x.axes| == |w.axes| && i < |w.axes| && Onward(w.lib, x.lib) && SameIdentity(w.axes[i], x.axes[i])
    && Drift(M(w.axes[i]).(homing := false, homed := true), M(x.axes[i]), Reopened(w.lib, x.lib))
  }

  lemma AtHomeMotion(a: Axis)
    ensures SameIdentity(a, AtHome(a)) && M(AtHome(a)) == M(a).(homing := false, homed := true)
  {
  }

  lemma ZeroZeroes(e: Env, w: World, i: nat)
    requires i < |w.axes|
    ensures ZeroOutcome(w, ZeroAtHome(e, w, i), i)
  {
    hide Select, ZeroPosition, AtHome, Talks;
    var w1 := Select(e, w, i).0;
    SelectDrifts(e, w, i, i);
    AtHomeMotion(w1.axes[i]);
    TalkOnward(w1.lib, ZeroPosition(e, w1.lib));
  }

  lemma ZeroOnward(w: World, x: World, i: nat)
    requires ZeroOutcome(w, x, i)
    ensures Onward(w.lib, x.lib)
  {
    hide M;
  }

  lemma ZeroAfter(w: World, x: World, y: World, i: nat)
    requires Quiet(w, x, i) && ZeroOutcome(x, y, i)
    ensures ZeroOutcome(w, y, i)
  {
    hide M;
    OnwardOn(w.lib, x.lib, y.lib);
  }

  lemma HomeAfter(w: World, x: World, y: World, i: nat, forwards: bool, ok: bool)
    requires Quiet(w, x, i) && HomeOutcome(x, y, i, forwards, ok)
    ensures HomeOutcome(w, y, i, forwards, ok)
  {
    hide M, MoveSent;
    if ok {
      OnwardOn(w.lib, x.lib, y.lib);
      SentLater(w.lib, x.lib, y.lib);
    } else { QuietOn(w, x, y, i); }
  }

  /** The limit switch the axis homes to was read as made. */
  ghost predicate SwitchRead(l: Lib, r: Lib, lsp: bool) {
    exists mer :: LimitBit(mer, lsp) && WasRead(l, r, "MER", mer)
  }

  /** What forced homing reads of MER, once the axis is selected, has the switch made that it
      is to home to. */
  ghost predicate SwitchFound(e: Env, w: World, i: nat)
    requires i < |w.axes|
  {
    var l := Select(e, w, i).0.lib;
    SwitchRead(l, GetVar(e, l, "MER").0, w.axes[i].cfg.useLsp)
  }

  /** Either the switch is made out and the axis is homed on the spot, or a home is started
      towards it. */
  lemma ForceHomeHomes(e: Env, w: World, i: nat, velo: real, accl: real)
    requires i < |w.axes|
    ensures
      var (x, ok) := ForceHome(e, w, i, velo, accl);
      || HomeOutcome(w, x, i, w.axes[i].cfg.useLsp, ok)
      || (ok && ZeroOutcome(w, x, i) && SwitchFound(e, w, i) && SwitchRead(w.lib, x.lib, w.axes[i].cfg.useLsp))
  {
    hide Select, GetVar, ZeroAtHome, Home, Talks, LimitBit, Quiet, ZeroOutcome, HomeOutcome, WasRead;
    var (w1, ok) := Select(e, w, i);
    ItselfQuiet(w, i);
    SelectQuiet(e, w, i);
    QuietHome(w, w, i, w.axes[i].cfg.useLsp);
    QuietHome(w, w1, i, w.axes[i].cfg.useLsp);
    SameId(w, w1, i);
    var (l, _, mer) := GetVar(e, w1.lib, "MER");
    var w2 := w1.(lib := l);
    TalkOnlyQuiet(w1, i, l);
    QuietOn(w, w1, w2, i);
    var v, a := if velo > 0.0 then velo else 40.0, if accl > 0.0 then accl else 1.0;
    if ok && LimitBit(mer, w.axes[i].cfg.useLsp) {
      ZeroZeroes(e, w2, i);
      ZeroAfter(w, w2, ZeroAtHome(e, w2, i), i);
      ZeroOnward(w2, ZeroAtHome(e, w2, i), i);
      SwitchStillRead(e, w, w1, i, ZeroAtHome(e, w2, i).lib, w.axes[i].cfg.useLsp);
    } else if ok {
      HomeHomes(e, w2, i, v, velo, a, w.axes[i].cfg.useLsp);
      HomeAfter(w, w2, Home(e, w2, i, v, velo, a, w.axes[i].cfg.useLsp).0, i, w.axes[i].cfg.useLsp,
        Home(e, w2, i, v, velo, a, w.axes[i].cfg.useLsp).1);
    }
  }

  lemma SwitchStillRead(e: Env, w: World, w1: World, i: nat, r: Lib, lsp: bool)
    requires Quiet(w, w1, i)
    requires
      var (l, _, mer) := GetVar(e, w1.lib, "MER");
      LimitBit(mer, lsp) && Onward(l, r)
    ensures SwitchRead(w1.lib, GetVar(e, w1.lib, "MER").0, lsp) && SwitchRead(w.lib, r, lsp)
  {
    hide M, SameIdentity, Talks;
    var (l, ok, mer) := GetVar(e, w1.lib, "MER");
    TalkOnward(w1.lib, l);
    NoLimitInZero(lsp);
    assert l.sent[|w1.lib.sent|].op == Read("MER");
    assert WasRead(w1.lib, l, "MER", mer);
    SentLater(w.lib, w1.lib, l);
    OnwardOn(w.lib, w1.lib, l);
    SentLater(w.lib, l, r);
  }

  lemma NoLimitInZero(lsp: bool)
    ensures !LimitBit(0, lsp)
  {
  }

  lemma QuietHome(w: World, x: World, i: nat, forwards: bool)
    requires Quiet(w, x, i)
    ensures HomeOutcome(w, x, i, forwards, false)
  {
  }

  // ----- Stopping -----

  predicate StopEffect(p: Motion, q: Motion) {
    q == p.(homing := false, stopping := true, done := true, moving := false)
  }

  lemma HaltedMotion(a: Axis)
    ensures SameIdentity(a, Halted(a)) && StopEffect(M(a), M(Halted(a)))
  {
  }

  /** A stop takes effect in the driver whatever the link does. */
  lemma StopStops(e: Env, w: World, i: nat)
    requires i < |w.axes| && w.axes[i].configured
    ensures
      var x := Stop(e, w, i).0;
      && Onward(w.lib, x.lib) && SameIdentity(w.axes[i], x.axes[i]) && StopEffect(M(w.axes[i]), M(x.axes[i]))
  {
    hide Select, Halt, Halted, Talks;
    var w1 := Select(e, w, i).0;
    SelectDrifts(e, w, i, i);
    HaltedMotion(w1.axes[i]);
    TalkOnward(w1.lib, Halt(e, w1.lib, w1.axes[i].motion.homing));
  }

  // ----- Polling -----

  /** A poll that published a reading: p1 is the state it met, srl and mer what it read. */
  ghost predicate Published(l: Lib, r: Lib, p: Motion, q: Motion, moving: bool, p1: Motion, srl: word, mer: word) {
    && Drift(p, p1, Reopened(l, r))
    && WasRead(l, r, "SRL", srl) && (mer != 0 ==> WasRead(l, r, "MER", mer))
    && moving == Seen(p1, srl).moving
    && if Reached(Seen(p1, srl), mer) then Drift(Seen(p1, srl).(homing := false, homed := true), q, Reopened(l, r))
       else q == Seen(p1, srl)
  }

  lemma UnconfiguredPoll(e: Env, w: World, i: nat)
    requires i < |w.axes| && !w.axes[i].configured
    ensures Poll(e, w, i).0 == w
  {
  }

  /** A poll either publishes nothing about the motion, or a reading of its own. */
  ghost predicate PollOutcome(w: World, x: World, i: nat, moving: bool) {
    || (Quiet(w, x, i) && !moving)
    || (&& |x.axes| == |w.axes| && i < |w.axes| && Onward(w.lib, x.lib) && SameIdentity(w.axes[i], x.axes[i])
        && exists p1, srl, mer :: Published(w.lib, x.lib, M(w.axes[i]), M(x.axes[i]), moving, p1, srl, mer))
  }

  lemma ObservedMotion(a: Axis, r: Readings)
    ensures SameIdentity(a, Observed(a, r))
    ensures M(Observed(a, r)) == if r.ok then Seen(M(a), r.srl) else M(a)
  {
  }

  lemma SelectLostDrifts(a: Axis)
    ensures SameIdentity(a, SelectLost(a)) && M(SelectLost(a)) == M(a)
  {
  }

  lemma StatusIsRead(e: Env, l: Lib, polls: nat)
    ensures
      var (r, s) := ReadStatus(e, l, polls);
      && (s.ok ==> WasRead(l, r, "SRL", s.srl))
      && (s.mer != 0 ==> WasRead(l, r, "MER", s.mer))
  {
    hide GetVar, ReadAll, Talks, Faulty;
    var (l1, _, _) := GetVar(e, l, "TPOS");
    var l2 := GetVar(e, l1, "APOS").0;
    var (l3, srlOk, srl) := GetVar(e, l2, "SRL");
    var (l4, merOk, mer) := GetVar(e, l3, "MER");
    var l5 := ReadStatus(e, l, polls).0;
    TalkOnward(l, l1);
    TalkOnward(l1, l2);
    TalkOnward(l2, l3);
    TalkOnward(l3, l4);
    TalkOnward(l4, l5);
    if srlOk {
      assert l3.sent[|l2.sent|].op == Read("SRL");
      assert l5.sent[|l2.sent|] == l3.sent[|l2.sent|];
    }
    if merOk {
      assert l4.sent[|l3.sent|].op == Read("MER");
      assert l5.sent[|l3.sent|] == l4.sent[|l3.sent|];
    }
  }

  /** From a selected axis: what was read is published, and a home may be over. */
  lemma ReadingPublished(e: Env, w: World, w1: World, i: nat)
    requires Quiet(w, w1, i)
    requires
      var (l, r) := ReadStatus(e, w1.lib, w1.axes[i].polls);
      r.ok
    ensures
      var (l, r) := ReadStatus(e, w1.lib, w1.axes[i].polls);
      var a := Observed(w1.axes[i], r);
      var x := if Reached(a.motion, r.mer) then ZeroAtHome(e, Talked(w1, i, l, a), i) else Talked(w1, i, l, a);
      PollOutcome(w, x, i, a.motion.moving)
  {
    hide ReadStatus, Observed, Reached, ZeroAtHome, Talks, Seen, M, SameIdentity, WasRead;
    var (l, r) := ReadStatus(e, w1.lib, w1.axes[i].polls);
    var a := Observed(w1.axes[i], r);
    var w2 := Talked(w1, i, l, a);
    StatusIsRead(e, w1.lib, w1.axes[i].polls);
    ObservedMotion(w1.axes[i], r);
    TalkOnward(w1.lib, l);
    SentLater(w.lib, w1.lib, l);
    MovingOf(a);
    SameIdentityOn(w.axes[i], w1.axes[i], a);
    OnwardOn(w.lib, w1.lib, l);
    if Reached(a.motion, r.mer) {
      var x := ZeroAtHome(e, w2, i);
      ZeroZeroes(e, w2, i);
      SameIdentityOn(w.axes[i], a, x.axes[i]);
      OnwardOn(w.lib, l, x.lib);
      SentLater(w.lib, l, x.lib);
      assert Published(w.lib, x.lib, M(w.axes[i]), M(x.axes[i]), a.motion.moving, M(w1.axes[i]), r.srl, r.mer);
    } else {
      assert Published(w.lib, w2.lib, M(w.axes[i]), M(w2.axes[i]), a.motion.moving, M(w1.axes[i]), r.srl, r.mer);
    }
  }

  lemma SameIdentityOn(a: Axis, b: Axis, c: Axis)
    requires SameIdentity(a, b) && SameIdentity(b, c)
    ensures SameIdentity(a, c)
  {
  }

  lemma MovingOf(a: Axis)
    ensures M(a) == a.motion
  {
  }

  lemma ObserveOutcome(e: Env, w: World, i: nat)
    requires i < |w.axes|
    ensures PollOutcome(w, Observe(e, w, i).0, i, Observe(e, w, i).1)
  {
    hide Select, ReadStatus, Observed, Reached, ZeroAtHome, Talks, SelectLost, Quiet, PollOutcome, Talked, SameIdentity,
      M;
    var (w1, ok) := Select(e, w, i);
    SelectQuiet(e, w, i);
    SameId(w, w1, i);
    if !ok {
      SelectLostDrifts(w1.axes[i]);
      LostQuiet(w, w1, i, SelectLost(w1.axes[i]));
      QuietPoll(w, With(w1, i, SelectLost(w1.axes[i])), i);
    } else {
      var (l, r) := ReadStatus(e, w1.lib, w1.axes[i].polls);
      var a := Observed(w1.axes[i], r);
      if r.ok { ReadingPublished(e, w, w1, i); }
      else {
        ObservedMotion(w1.axes[i], r);
        TalkQuiet(w1, i, l, a);
        QuietOn(w, w1, Talked(w1, i, l, a), i);
        QuietPoll(w, Talked(w1, i, l, a), i);
      }
    }
  }

  lemma QuietPoll(w: World, x: World, i: nat)
    requires Quiet(w, x, i)
    ensures PollOutcome(w, x, i, false)
  {
  }

  lemma LostQuiet(w: World, w1: World, i: nat, a: Axis)
    requires Quiet(w, w1, i) && i < |w1.axes| && SameIdentity(w1.axes[i], a) && M(a) == M(w1.axes[i])
    ensures Quiet(w, With(w1, i, a), i)
  {
    hide M;
  }

  lemma AlikeQuiet(w: World, x: World, i: nat)
    requires i < |w.axes| && |x.axes| == |w.axes| && Onward(w.lib, x.lib) && Alike(w.axes[i], x.axes[i])
    ensures Quiet(w, x, i)
  {
  }

  lemma ReinitOnward(e: Env, l: Lib, fd: int, a: Axis)
    ensures Onward(l, Reinit(e, SelectChannel(e, l, fd).0, a).0)
  {
    hide Reinit, SameChannels, SlotTaken;
    ReinitInitialises(e, SelectChannel(e, l, fd).0, a);
  }

  lemma PollReinitQuiet(e: Env, w: World, i: nat)
    requires i < |w.axes|
    ensures Quiet(w, PollReinit(e, w, i).0, i)
  {
    hide PollReinit, Reinit, Quiet, SelectChannel;
    PollReinitEffect(e, w, i);
    ReinitOnward(e, w.lib, w.fd, w.axes[i]);
    AlikeQuiet(w, PollReinit(e, w, i).0, i);
  }

  lemma PollAfter(w: World, x: World, y: World, i: nat, moving: bool)
    requires Quiet(w, x, i) && PollOutcome(x, y, i, moving)
    ensures PollOutcome(w, y, i, moving)
  {
    hide M, WasRead, Seen;
    if Quiet(x, y, i) && !moving { QuietOn(w, x, y, i); }
    else {
      var p1, srl, mer :| Published(x.lib, y.lib, M(x.axes[i]), M(y.axes[i]), moving, p1, srl, mer);
      OnwardOn(w.lib, x.lib, y.lib);
      SentLater(w.lib, x.lib, y.lib);
      assert Published(w.lib, y.lib, M(w.axes[i]), M(y.axes[i]), moving, p1, srl, mer);
    }
  }

  lemma PollPolls(e: Env, w: World, i: nat)
    requires i < |w.axes|
    ensures PollOutcome(w, Poll(e, w, i).0, i, Poll(e, w, i).1)
  {
    hide PollReinit, Observe, Quiet, PollOutcome;
    ItselfQuiet(w, i);
    QuietPoll(w, w, i);
    var (w1, go) := PollReinit(e, w, i);
    PollReinitQuiet(e, w, i);
    QuietPoll(w, w1, i);
    SameId(w, w1, i);
    ObserveOutcome(e, w1, i);
    PollAfter(w, w1, Observe(e, w1, i).0, i, Observe(e, w1, i).1);
  }

  // ----- Configuring, opening, and the axes a call is not for -----

  lemma ConfiguredMotion(a: Axis, c: Config, idx: int, ok: bool)
    ensures M(AwaitingChannel(Configured(a, c))) == M(a)
    ensures M(FirstTried(Configured(a, c).(setupIdx := idx), ok)) == M(a)
  {
  }

  lemma ConfigureOutcome(e: Env, w: World, i: nat, c: Config)
    requires i < |w.axes|
    ensures
      var x := Configure(e, w, i, c);
      && Onward(w.lib, x.lib) && M(x.axes[i]) == M(w.axes[i])
      && (forall j :: 0 <= j < |w.axes| && j != i ==> x.axes[j] == w.axes[j])
  {
    hide Reinit, SelectChannel, M, AwaitingChannel, FirstTried, Configured;
    var a := Configured(w.axes[i], c);
    ReinitOnward(e, w.lib, w.fd, a);
    var (l, a', ok) := Reinit(e, SelectChannel(e, w.lib, w.fd).0, a);
    ConfiguredMotion(w.axes[i], c, a'.setupIdx, ok);
  }

  lemma EnsureQuiet(e: Env, w: World, j: nat)
    requires j < |w.axes|
    ensures Quiet(w, EnsureChannel(e, w).0, j)
  {
    hide OpenChannel, Flagged, M, SameIdentity;
    SameIdentityItself(w.axes[j]);
    FlaggedPublishedDrifts(w.axes[j]);
  }

  ghost function QuietOf(w: World, j: nat): World -> bool { (x: World) => Quiet(w, x, j) }

  lemma QuietIsKept(e: Env, w: World, i: nat, j: nat)
    requires i != j
    ensures KeptInside(e, QuietOf(w, j), i)
  {
    hide Select, M, SameIdentity;
    forall a, b | Quiet(w, a, j) && Calm(a, b, i) ensures Quiet(w, b, j) {
      TalkOnward(a.lib, b.lib);
      OnwardOn(w.lib, a.lib, b.lib);
    }
    forall a: World | Quiet(w, a, j) && i < |a.axes| ensures Quiet(w, Select(e, a, i).0, j) {
      SelectDrifts(e, a, i, j);
      DriftOn(w, a, Select(e, a, i).0, j);
    }
  }

  lemma DriftOn(w: World, x: World, y: World, j: nat)
    requires Quiet(w, x, j) && |y.axes| == |x.axes| && Onward(x.lib, y.lib)
    requires SameIdentity(x.axes[j], y.axes[j]) && Drift(M(x.axes[j]), M(y.axes[j]), Reopened(x.lib, y.lib))
    ensures Quiet(w, y, j)
  {
    hide M;
    OnwardOn(w.lib, x.lib, y.lib);
  }

  /** A call leaves every axis it is not made for alone, but for the stop latch where it
      reopened the channel. */
  lemma Bystander(e: Env, w: World, c: Cmd, j: nat)
    requires j < |w.axes| && (c.CtrlPoll? || c.i != j)
    ensures Quiet(w, Step(e, w, c).0, j)
  {
    hide EnsureChannel, PollReinit, Observe, Configure, Quiet, KeptInside, M, SameIdentity;
    ItselfQuiet(w, j);
    if c.CtrlPoll? { EnsureQuiet(e, w, j); }
    else if c.i < |w.axes| {
      QuietIsKept(e, w, c.i, j);
      assert QuietOf(w, j)(w);
      if c.DoPoll? {
        var w1 := PollReinit(e, w, c.i).0;
        PollReinitEffect(e, w, c.i);
        ReinitOnward(e, w.lib, w.fd, w.axes[c.i]);
        SameAxisQuiet(w, w1, j);
        if PollReinit(e, w, c.i).1 { ObserveAfter(e, QuietOf(w, j), w1, c.i); }
      } else if c.DoConfigure? {
        ConfigureOutcome(e, w, c.i, c.c);
        SameAxisQuiet(w, Configure(e, w, c.i, c.c), j);
      } else { CommandKeeps(e, QuietOf(w, j), w, c); }
    }
  }

  lemma SameAxisQuiet(w: World, x: World, j: nat)
    requires j < |w.axes| && |x.axes| == |w.axes| && Onward(w.lib, x.lib) && x.axes[j] == w.axes[j]
    ensures Quiet(w, x, j)
  {
  }
}
