/** The driver's homing state and the drives' limit events over whole runs. */
module CoupledRuns {
  import opened Codec
  import opened Masks
  import opened TmlLib
  import opened Supervisor
  import opened Channels
  import opened Initialising
  import opened AxisEffects
  import opened Lifting
  import opened Connection
  import opened Recovery
  import opened AxisMotion
  import opened AxisOutcomes
  import opened Isolation
  import opened MaskRegister
  import opened Coupling

  // ----- The setups the axes hold -----

  /** The setup named in the configuration fits the drive, and so does the one held. */
  ghost predicate HoldsFit(e: Env, l: Lib, a: Axis) {
    && Fits(e, a.cfg.id, DEFAULTS + e.file(a.cfg.file))
    && (a.setupIdx >= 0 ==>
          SetupLoaded(l, a.setupIdx) && Complete(l.tab.setups[a.setupIdx].value)
            && Fits(e, a.cfg.id, l.tab.setups[a.setupIdx].value))
  }

  ghost predicate AllHoldFit(e: Env, w: World) {
    forall j :: 0 <= j < |w.axes| ==>
      if w.axes[j].configured then HoldsFit(e, w.lib, w.axes[j]) else w.axes[j].setupIdx < 0
  }

  /** Setups stay loaded, and stay what they are. */
  ghost predicate KeepsSetups(l: Lib, r: Lib) {
    forall k :: SetupLoaded(l, k) ==> SetupLoaded(r, k) && r.tab.setups[k] == l.tab.setups[k]
  }

  lemma StillHoldsFit(e: Env, l: Lib, r: Lib, a: Axis, b: Axis)
    requires HoldsFit(e, l, a) && KeepsSetups(l, r) && b.cfg == a.cfg && (b.setupIdx == a.setupIdx || b.setupIdx < 0)
    ensures HoldsFit(e, r, b)
  {
    hide Fits, Complete;
  }

  /** Holding a setup, loading it first if need be. */
  lemma HoldKeepsSetups(e: Env, l: Lib, a: Axis)
    requires HoldsFit(e, l, a)
    ensures
      var (r, idx) := Hold(e, l, a);
      && KeepsSetups(l, r) && r == l.(tab := l.tab.(setups := r.tab.setups))
      && (idx >= 0 ==>
            SetupLoaded(r, idx) && Complete(r.tab.setups[idx].value) && Fits(e, a.cfg.id, r.tab.setups[idx].value))
  {
    hide Fits, Complete;
    DefaultsComplete(e.file(a.cfg.file));
  }

  /** What an initialisation comes to: it clears the limits to be ignored, or, without a setup
      slot, it does nothing. */
  lemma ReinitDrops(e: Env, l: Lib, a: Axis)
    requires Acked(e) && ActiveChan(l).Some? && HoldsFit(e, l, a)
    ensures
      var (r, a', ok) := Reinit(e, l, a);
      && KeepsSetups(l, r) && HoldsFit(e, r, a')
      && (if ok then Fitted(e, r, a.cfg.id)
         && Mask(e, r, a.cfg.id) == Cleared(Mask(e, l, a.cfg.id), a.cfg.ignoreLsp, a.cfg.ignoreLsn)
          else Mask(e, r, a.cfg.id) == Mask(e, l, a.cfg.id))
  {
    hide Hold, SetUp, Mask, Fitted, Cleared, HoldsFit, KeepsSetups, Fits, Complete, OnlyTo, SameChannels;
    var (l1, idx) := Hold(e, l, a);
    HoldKeepsSetups(e, l, a);
    SameMem(e, l, l1, a.cfg.id);
    NowHeld(e, l, l1, a, idx);
    if idx >= 0 {
      AckedSetUp(e, l1, a, idx);
      SettingUp(e, l1, a, idx);
      SameSetups(e, l, l1, SetUp(e, l1, a, idx).0, a.(setupIdx := idx));
    }
  }

  lemma NowHeld(e: Env, l: Lib, l1: Lib, a: Axis, idx: int)
    requires HoldsFit(e, l, a)
    requires idx >= 0 ==>
               SetupLoaded(l1, idx) && Complete(l1.tab.setups[idx].value) && Fits(e, a.cfg.id, l1.tab.setups[idx].value)
    ensures HoldsFit(e, l1, a.(setupIdx := idx))
  {
    hide Fits, Complete;
  }

  lemma SameSetups(e: Env, l: Lib, m: Lib, r: Lib, a: Axis)
    requires KeepsSetups(l, m) && HoldsFit(e, m, a) && r.tab.setups == m.tab.setups
    ensures KeepsSetups(l, r) && HoldsFit(e, r, a)
  {
    hide Fits, Complete;
  }

  // ----- The invariant -----

  predicate Owned(w: World, id: byte) {
    exists j :: 0 <= j < |w.axes| && w.axes[j].configured && w.axes[j].cfg.id == id
  }

  ghost predicate DistinctIds(w: World) {
    forall j, k :: 0 <= j < k < |w.axes| && w.axes[j].configured && w.axes[k].configured ==>
      w.axes[j].cfg.id != w.axes[k].cfg.id
  }

  /** Without a channel, and before it is configured, no axis homes. */
  ghost predicate Idle(w: World) {
    forall j :: 0 <= j < |w.axes| && w.axes[j].motion.homing ==> w.fd >= 0 && w.axes[j].configured
  }

  /** A drive that no axis has been configured for still has the mask it started with. `own`
      gives the registers at the start. */
  ghost predicate UnownedAsBefore(e: Env, w: World, own: Lib) {
    forall id :: !Owned(w, id) ==> Mask(e, w.lib, id) == Mask(e, own, id)
  }

  ghost predicate Orderly(e: Env, w: World, own: Lib) {
    Acked(e) && Connected(w) && AllHoldFit(e, w) && DistinctIds(w) && Idle(w) && UnownedAsBefore(e, w, own)
  }

  /** The drive's mask is what the axis's homing state calls for. */
  ghost predicate Coupled(e: Env, w: World, j: nat, d: Drop, own: Lib) {
    j < |w.axes| && w.axes[j].configured ==>
      Mask(e, w.lib, w.axes[j].cfg.id)
      == Expected(w.axes[j].motion.homing, w.axes[j].motion.towardLsp, d, Mask(e, own, w.axes[j].cfg.id))
  }

  // ----- What a caller has to see to -----

  /** Each axis keeps the id it is first configured with, no two have the same, its setup file
      fits its drive, no drive is reset, and a call for an axis finds a map that fits its drive -
      but for a poll that is to initialise the axis, which makes the map fit. */
  ghost predicate Proper(e: Env, w: World, c: Cmd) {
    if c.CtrlPoll? || c.i >= |w.axes| then true
    else if c.DoConfigure? then
      && Fits(e, c.c.id, DEFAULTS + e.file(c.c.file))
      && (if w.axes[c.i].configured then c.c.id == w.axes[c.i].cfg.id else !Owned(w, c.c.id))
    else
      && !(c.DoParam? && c.p == ResetDriveParam)
      && (w.axes[c.i].configured && !(c.DoPoll? && w.axes[c.i].needsReinit) ==> MapFits(e, w, c.i))
  }

  // ----- What a call for one axis leaves alone -----

  predicate SameHolding(a: Axis, b: Axis) {
    b.cfg == a.cfg && b.configured == a.configured && b.setupIdx == a.setupIdx
  }

  /** The same channel is open, the same setups are loaded and held. */
  ghost predicate SameShape(w: World, x: World) {
    && Connected(x) && x.fd == w.fd && |x.axes| == |w.axes| && x.lib.tab.setups == w.lib.tab.setups
    && forall j :: 0 <= j < |w.axes| ==> SameHolding(w.axes[j], x.axes[j])
  }

  ghost function ShapeOf(w: World): World -> bool { (x: World) => SameShape(w, x) }

  lemma CalmSameShape(w: World, a: World, b: World, i: nat)
    requires SameShape(w, a) && Calm(a, b, i)
    ensures SameShape(w, b)
  {
    hide OneChannel;
    SameChannelsKeepsOne(a.lib, b.lib, a.fd);
  }

  lemma SelectSameShape(e: Env, w: World, a: World, i: nat)
    requires e.native && SameShape(w, a) && i < |a.axes|
    ensures SameShape(w, Select(e, a, i).0)
  {
    hide Select, OneChannel;
    NativeSelect(e, a, i);
    SelectKeepsConnected(e, a, i);
    SelectTables(e, a, i);
  }

  lemma ShapeInside(e: Env, w: World, i: nat)
    requires e.native
    ensures KeptInside(e, ShapeOf(w), i)
  {
    hide Select, SameShape, Calm;
    forall a, b | ShapeOf(w)(a) && Calm(a, b, i) ensures ShapeOf(w)(b) { CalmSameShape(w, a, b, i); }
    forall a: World | ShapeOf(w)(a) && i < |a.axes| ensures ShapeOf(w)(Select(e, a, i).0) {
      SelectSameShape(e, w, a, i);
    }
  }

  lemma ItsOwnShape(w: World)
    requires Connected(w)
    ensures SameShape(w, w)
  {
  }

  lemma CommandSameShape(e: Env, w: World, c: Cmd)
    requires e.native && Connected(w) && IsCommand(c)
    ensures SameShape(w, Step(e, w, c).0)
  {
    hide Step, SameShape, KeptInside, Connected;
    ItsOwnShape(w);
    ShapeInside(e, w, c.i);
    assert ShapeOf(w)(w);
    CommandKeeps(e, ShapeOf(w), w, c);
  }

  lemma ObserveSameShape(e: Env, w: World, i: nat)
    requires e.native && Connected(w) && i < |w.axes|
    ensures SameShape(w, Observe(e, w, i).0)
  {
    hide Observe, SameShape, KeptInside, Connected;
    ItsOwnShape(w);
    ShapeInside(e, w, i);
    assert ShapeOf(w)(w);
    ObserveAfter(e, ShapeOf(w), w, i);
  }

  lemma SameShapeHoldsFit(e: Env, w: World, x: World)
    requires AllHoldFit(e, w) && DistinctIds(w) && SameShape(w, x)
    ensures AllHoldFit(e, x) && DistinctIds(x) && Connected(x) && forall id :: Owned(w, id) <==> Owned(x, id)
  {
    hide HoldsFit, OneChannel;
    forall j | 0 <= j < |x.axes|
      ensures if x.axes[j].configured then HoldsFit(e, x.lib, x.axes[j]) else x.axes[j].setupIdx < 0 {
      assert SameHolding(w.axes[j], x.axes[j]);
      if w.axes[j].configured { StillHoldsFit(e, w.lib, x.lib, w.axes[j], x.axes[j]); }
    }
    forall id ensures Owned(w, id) <==> Owned(x, id) { SameOwners(w, x, id); }
  }

  lemma SameOwners(w: World, x: World, id: byte)
    requires |x.axes| == |w.axes| && forall j :: 0 <= j < |w.axes| ==> SameHolding(w.axes[j], x.axes[j])
    ensures Owned(w, id) <==> Owned(x, id)
  {
    if Owned(w, id) {
      var j :| 0 <= j < |w.axes| && w.axes[j].configured && w.axes[j].cfg.id == id;
      assert x.axes[j].cfg.id == id;
    }
    if Owned(x, id) {
      var j :| 0 <= j < |x.axes| && x.axes[j].configured && x.axes[j].cfg.id == id;
      assert w.axes[j].cfg.id == id;
    }
  }

  /** A call that talked to one owned drive only. */
  lemma UnownedStays(e: Env, w: World, x: World, own: Lib, id: byte)
    requires UnownedAsBefore(e, w, own) && OnlyTo(w.lib, x.lib, id) && Owned(x, id)
    requires forall other :: Owned(w, other) ==> Owned(x, other)
    ensures UnownedAsBefore(e, x, own)
  {
  }

  /** And another axis. */
  lemma OthersStayCoupled(e: Env, w: World, x: World, j: nat, d: Drop, own: Lib, id: byte)
    requires Coupled(e, w, j, d, own) && j < |w.axes| && |x.axes| == |w.axes|
    requires OnlyTo(w.lib, x.lib, id) && (w.axes[j].configured ==> w.axes[j].cfg.id != id)
    requires x.axes[j].cfg == w.axes[j].cfg && x.axes[j].configured == w.axes[j].configured
    requires x.axes[j].motion.homing == w.axes[j].motion.homing
    requires x.axes[j].motion.towardLsp == w.axes[j].motion.towardLsp
    ensures Coupled(e, x, j, d, own)
  {
    hide Expected;
  }

  /** Calls never touch the homing state of other axes. */
  lemma OthersKeepHoming(e: Env, w: World, c: Cmd, j: nat)
    requires j < |w.axes| && (c.CtrlPoll? || c.i != j)
    ensures
      var x := Step(e, w, c).0;
      && x.axes[j].motion.homing == w.axes[j].motion.homing && x.axes[j].motion.towardLsp == w.axes[j].motion.towardLsp
      && x.axes[j].cfg == w.axes[j].cfg && x.axes[j].configured == w.axes[j].configured
  {
    hide Step;
    Bystander(e, w, c, j);
  }

  lemma IdleAfter(w: World, x: World, i: nat)
    requires Idle(w) && |x.axes| == |w.axes| && x.fd == w.fd && i < |w.axes|
    requires forall j :: 0 <= j < |w.axes| && j != i ==>
      x.axes[j].motion.homing == w.axes[j].motion.homing && x.axes[j].configured == w.axes[j].configured
    requires x.axes[i].motion.homing ==> w.fd >= 0 && x.axes[i].configured
    ensures Idle(x)
  {
  }

  // ----- Commands -----

  /** Without a channel a command changes no register and starts no home. */
  lemma DownCommand(e: Env, w: World, c: Cmd)
    requires Connected(w) && w.fd < 0 && IsCommand(c) && c.i < |w.axes| && !w.axes[c.i].motion.homing
    ensures Step(e, w, c).0.lib == w.lib && !Step(e, w, c).0.axes[c.i].motion.homing && !Takes(c, Step(e, w, c).1)
  {
    hide Talks;
    OneChannelIsInOrder(w.lib, w.fd);
    if c.DoStop? { AtHomeNotHoming(w.axes[c.i]); }
  }

  lemma CommandOrderly(e: Env, w: World, c: Cmd, own: Lib)
    requires Orderly(e, w, own) && IsCommand(c) && c.i < |w.axes|
    ensures Orderly(e, Step(e, w, c).0, own)
  {
    hide Step, AllHoldFit, DistinctIds, Idle, UnownedAsBefore, SameShape, OnlyTo, Owned;
    if !w.axes[c.i].configured { UnconfiguredIgnores(e, w, c); }
    else {
      var x := Step(e, w, c).0;
      CommandSameShape(e, w, c);
      SameShapeHoldsFit(e, w, x);
      CommandAims(e, w, c);
      ItOwns(w, c.i);
      UnownedStays(e, w, x, own, w.axes[c.i].cfg.id);
      ShapeTells(w, x, c.i);
      forall j | 0 <= j < |w.axes| && j != c.i
        ensures x.axes[j].motion.homing == w.axes[j].motion.homing && x.axes[j].configured == w.axes[j].configured {
        OthersKeepHoming(e, w, c, j);
      }
      if w.fd < 0 {
        NotHomingDown(w, c.i);
        DownCommand(e, w, c);
      }
      IdleAfter(w, x, c.i);
    }
  }

  lemma ItOwns(w: World, i: nat)
    requires i < |w.axes| && w.axes[i].configured
    ensures Owned(w, w.axes[i].cfg.id)
  {
  }

  lemma NotHomingDown(w: World, i: nat)
    requires Idle(w) && i < |w.axes| && (w.fd < 0 || !w.axes[i].configured)
    ensures !w.axes[i].motion.homing
  {
  }

  lemma ShapeTells(w: World, x: World, i: nat)
    requires SameShape(w, x) && i < |w.axes|
    ensures |x.axes| == |w.axes| && x.fd == w.fd && x.axes[i].cfg == w.axes[i].cfg
    ensures x.axes[i].configured == w.axes[i].configured
  {
    hide OneChannel;
    assert SameHolding(w.axes[i], x.axes[i]);
  }

  lemma CommandCouples(e: Env, w: World, c: Cmd, own: Lib, d: Drop)
    requires Orderly(e, w, own) && IsCommand(c) && c.i < |w.axes| && Proper(e, w, c)
    requires Coupled(e, w, c.i, d, own)
    ensures Coupled(e, Step(e, w, c).0, c.i, if Takes(c, Step(e, w, c).1) then NO_DROP else d, own)
  {
    hide Step, AllHoldFit, DistinctIds, UnownedAsBefore, SameShape, Expected, InStep, Mask, OneChannel, Fits;
    if !w.axes[c.i].configured { UnconfiguredIgnores(e, w, c); }
    else {
      var x := Step(e, w, c).0;
      CommandSameShape(e, w, c);
      ShapeTells(w, x, c.i);
      if w.fd < 0 {
        NotHomingDown(w, c.i);
        DownCommand(e, w, c);
        NotHomingExpected(w.axes[c.i].motion.towardLsp, x.axes[c.i].motion.towardLsp, d,
          Mask(e, own, w.axes[c.i].cfg.id));
      } else {
        CommandInStep(e, w, c);
        InStepExpected(e, w, x, c.i, Takes(c, Step(e, w, c).1), d, Mask(e, own, w.axes[c.i].cfg.id));
      }
    }
  }

  lemma NotHomingExpected(t: bool, t': bool, d: Drop, own: word)
    ensures Expected(false, t, d, own) == Expected(false, t', d, own) == LimitsSet(own, false, false)
  {
  }

  // ----- Initialising -----

  lemma HoldsInSameTables(e: Env, l: Lib, r: Lib, a: Axis)
    requires HoldsFit(e, l, a) && r.tab.setups == l.tab.setups
    ensures HoldsFit(e, r, a)
  {
    hide Fits, Complete;
  }

  /** Axis i, here as a, initialised on the open channel. */
  lemma InitialisedInWorld(e: Env, w: World, i: nat, a: Axis, b: World)
    requires Acked(e) && Connected(w) && w.fd >= 0 && i < |w.axes| && AllHoldFit(e, w) && HoldsFit(e, w.lib, a)
    requires |b.axes| == |w.axes| && b.axes == w.axes[i := b.axes[i]]
    requires b.lib == Reinit(e, SelectChannel(e, w.lib, w.fd).0, a).0
    requires b.axes[i].setupIdx == Reinit(e, SelectChannel(e, w.lib, w.fd).0, a).1.setupIdx
    requires b.axes[i].cfg == a.cfg && b.axes[i].configured
    ensures
      var ok := Reinit(e, SelectChannel(e, w.lib, w.fd).0, a).2;
      && AllHoldFit(e, b)
      && (if ok then Fitted(e, b.lib, a.cfg.id)
                     && Mask(e, b.lib, a.cfg.id) == Cleared(Mask(e, w.lib, a.cfg.id), a.cfg.ignoreLsp, a.cfg.ignoreLsn)
          else Mask(e, b.lib, a.cfg.id) == Mask(e, w.lib, a.cfg.id))
  {
    hide Reinit, HoldsFit, KeepsSetups, Mask, Fitted, Cleared, SelectChannel, OneChannel;
    var l := SelectChannel(e, w.lib, w.fd).0;
    SelectTheOne(e, w.lib, w.fd);
    SameChannelsKeepsOne(w.lib, l, w.fd);
    OneChannelIsInOrder(l, w.fd);
    HoldsInSameTables(e, w.lib, l, a);
    SameMem(e, w.lib, l, a.cfg.id);
    ReinitDrops(e, l, a);
    SameSetupsKept(w.lib, l, b.lib);
    KeepsItself(b.lib);
    forall j | 0 <= j < |b.axes|
      ensures if b.axes[j].configured then HoldsFit(e, b.lib, b.axes[j]) else b.axes[j].setupIdx < 0 {
      if j == i { StillHoldsFit(e, b.lib, b.lib, Reinit(e, l, a).1, b.axes[i]); }
      else if w.axes[j].configured { StillHoldsFit(e, w.lib, b.lib, w.axes[j], b.axes[j]); }
    }
  }

  lemma KeepsItself(l: Lib)
    ensures KeepsSetups(l, l)
  {
  }

  lemma SameSetupsKept(l: Lib, m: Lib, r: Lib)
    requires KeepsSetups(m, r) && m.tab.setups == l.tab.setups
    ensures KeepsSetups(l, r)
  {
  }

  /** Axis i only waits. */
  lemma WaitedInWorld(e: Env, w: World, i: nat, b: World)
    requires i < |w.axes| && AllHoldFit(e, w) && |b.axes| == |w.axes| && b.lib == w.lib
    requires b.axes == w.axes[i := b.axes[i]] && b.axes[i].configured && b.axes[i].setupIdx == w.axes[i].setupIdx
    requires HoldsFit(e, w.lib, b.axes[i])
    ensures AllHoldFit(e, b)
  {
    hide HoldsFit;
  }

  lemma AxisHoldsFit(e: Env, w: World, i: nat)
    requires AllHoldFit(e, w) && i < |w.axes|
    ensures if w.axes[i].configured then HoldsFit(e, w.lib, w.axes[i]) else w.axes[i].setupIdx < 0
  {
  }

  // ----- Polls -----

  lemma FailedAxis(a: Axis, idx: int)
    ensures
      var b := BackedOff(a.(setupIdx := idx));
      b.cfg == a.cfg && b.configured == a.configured && b.setupIdx == idx && b.needsReinit == a.needsReinit
  {
  }

  lemma RestoredAxis(a: Axis, idx: int)
    ensures
      var b := Restored(a.(setupIdx := idx));
      b.cfg == a.cfg && b.configured == a.configured && b.setupIdx == idx && !b.needsReinit
  {
  }

  lemma WaitingAxis(a: Axis)
    ensures Down(a).cfg == a.cfg && Down(a).configured == a.configured
    ensures Down(a).setupIdx == a.setupIdx && Down(a).needsReinit == a.needsReinit
    ensures a.countdown > 0 ==>
              var b := CountedDown(a);
              b.cfg == a.cfg && b.configured == a.configured && b.setupIdx == a.setupIdx
                && b.needsReinit == a.needsReinit
  {
  }

  /** The initialising part of a poll: the axis stays what it is, and if it is initialised, the
      limits to be ignored are cleared and the map fits from then on. */
  lemma PollPhase(e: Env, w: World, i: nat)
    requires Acked(e) && Connected(w) && AllHoldFit(e, w) && i < |w.axes| && w.axes[i].configured
    ensures
      var (w1, go) := PollReinit(e, w, i);
      && Connected(w1) && w1.fd == w.fd && |w1.axes| == |w.axes| && AllHoldFit(e, w1)
      && (if !w.axes[i].needsReinit then go && w1 == w
          else if go then w.fd >= 0 && MapFits(e, w1, i) && !w1.axes[i].needsReinit
                          && var c := w.axes[i].cfg;
                             Mask(e, w1.lib, c.id) == Cleared(Mask(e, w.lib, c.id), c.ignoreLsp, c.ignoreLsn)
          else w1.axes[i].needsReinit && Mask(e, w1.lib, w.axes[i].cfg.id) == Mask(e, w.lib, w.axes[i].cfg.id))
  {
    hide Reinit, BackedOff, Restored, CountedDown, Down, Mask, Cleared, HoldsFit, Fits, SelectChannel, Connected,
      AllHoldFit;
    var a := w.axes[i];
    var w1 := PollReinit(e, w, i).0;
    PollKeepsConnected(e, w, i);
    AxisHoldsFit(e, w, i);
    if a.needsReinit {
      WaitingAxis(a);
      if w.fd >= 0 && a.countdown == 0 {
        var a' := Reinit(e, SelectChannel(e, w.lib, w.fd).0, a).1;
        FailedAxis(a, a'.setupIdx);
        RestoredAxis(a, a'.setupIdx);
        InitialisedInWorld(e, w, i, a, w1);
      } else {
        KeepsItself(w.lib);
        StillHoldsFit(e, w.lib, w.lib, a, w1.axes[i]);
        WaitedInWorld(e, w, i, w1);
      }
    }
  }

  /** Reading and publishing leaves the counters of the axis alone. */
  lemma ObserveCounters(e: Env, w: World, i: nat)
    requires e.native && Connected(w) && w.fd >= 0 && i < |w.axes|
    ensures Observe(e, w, i).0.axes[i].needsReinit == w.axes[i].needsReinit
  {
    hide Observe, KeptInside, Connected;
    NativeInside(e, w, i);
    assert LeavesOf(w, i)(w);
    ObserveAfter(e, LeavesOf(w, i), w, i);
  }

  /** Nothing is read without a channel. */
  lemma ObserveDown(e: Env, w: World, i: nat)
    requires w.fd < 0 && i < |w.axes|
    ensures
      var x := Observe(e, w, i).0;
      x.lib == w.lib && x.axes[i].motion == w.axes[i].motion
  {
  }

  lemma PollCouples(e: Env, w: World, i: nat, own: Lib, d: Drop)
    requires Orderly(e, w, own) && i < |w.axes| && w.axes[i].configured && Coupled(e, w, i, d, own)
    requires !w.axes[i].needsReinit ==> MapFits(e, w, i)
    ensures
      var x := Poll(e, w, i).0;
      Coupled(e, x, i, if w.axes[i].needsReinit && !x.axes[i].needsReinit then Ignoring(d, w.axes[i].cfg) else d, own)
  {
    hide PollReinit, Observe, Expected, AllHoldFit, DistinctIds, UnownedAsBefore, Mask, Cleared, InStep, Connected,
      MapFits, SameShape, Alike;
    var (w1, go) := PollReinit(e, w, i);
    var id, m := w.axes[i].cfg.id, Mask(e, own, w.axes[i].cfg.id);
    var d1 := if w.axes[i].needsReinit && go then Ignoring(d, w.axes[i].cfg) else d;
    PollPhase(e, w, i);
    PollReinitEffect(e, w, i);
    AlikeTells(w.axes[i], w1.axes[i]);
    ExpectedCleared(w.axes[i].motion.homing, w.axes[i].motion.towardLsp, d, m, w.axes[i].cfg.ignoreLsp,
      w.axes[i].cfg.ignoreLsn);
    assert Coupled(e, w1, i, d1, own);
    if go {
      ObserveSameShape(e, w1, i);
      ShapeTells(w1, Observe(e, w1, i).0, i);
      if w.fd < 0 { ObserveDown(e, w1, i); }
      else {
        ObserveCounters(e, w1, i);
        NowSound(e, w1, i);
        ObserveInStep(e, w1, i);
        InStepExpected(e, w1, Observe(e, w1, i).0, i, false, d1, m);
      }
    }
  }

  lemma NowSound(e: Env, w: World, i: nat)
    requires Acked(e) && Connected(w) && w.fd >= 0 && i < |w.axes| && w.axes[i].configured && MapFits(e, w, i)
    ensures SoundFor(e, w, i)
  {
  }

  lemma AlikeTells(a: Axis, b: Axis)
    requires Alike(a, b)
    ensures b.motion == a.motion && b.cfg == a.cfg && b.configured == a.configured
  {
  }

  /** What a poll leaves in order. */
  lemma PollOrderly(e: Env, w: World, i: nat, own: Lib)
    requires Orderly(e, w, own) && i < |w.axes|
    ensures Orderly(e, Poll(e, w, i).0, own)
  {
    hide PollReinit, Observe, AllHoldFit, DistinctIds, Idle, UnownedAsBefore, Mask, Connected, MapFits, SameShape,
      OnlyTo, Owned, Alike, Poll;
    if !w.axes[i].configured { UnconfiguredPoll(e, w, i); }
    else {
      var x := Poll(e, w, i).0;
      PollShape(e, w, i);
      SameIdentities(w, x);
      PollAims(e, w, i);
      ItOwns(w, i);
      UnownedStays(e, w, x, own, w.axes[i].cfg.id);
      forall j | 0 <= j < |w.axes| && j != i
        ensures x.axes[j].motion.homing == w.axes[j].motion.homing && x.axes[j].configured == w.axes[j].configured {
        OthersKeepHoming(e, w, DoPoll(i), j);
        PollIsStep(e, w, i);
      }
      if w.fd < 0 { NotHomingDown(w, i); PollDown(e, w, i); }
      IdleAfter(w, x, i);
    }
  }

  lemma PollIsStep(e: Env, w: World, i: nat)
    requires i < |w.axes|
    ensures Step(e, w, DoPoll(i)) == Poll(e, w, i)
  {
    hide Poll;
  }

  lemma PollDown(e: Env, w: World, i: nat)
    requires w.fd < 0 && i < |w.axes| && !w.axes[i].motion.homing
    ensures !Poll(e, w, i).0.axes[i].motion.homing
  {
    hide PollReinit, Observe, Alike, Reinit;
    PollReinitEffect(e, w, i);
    AlikeTells(w.axes[i], PollReinit(e, w, i).0.axes[i]);
    DownStaysDown(e, w, i);
    ObserveDown(e, PollReinit(e, w, i).0, i);
  }

  lemma DownStaysDown(e: Env, w: World, i: nat)
    requires w.fd < 0 && i < |w.axes|
    ensures PollReinit(e, w, i).0.fd < 0
  {
  }

  lemma PollShape(e: Env, w: World, i: nat)
    requires Acked(e) && Connected(w) && AllHoldFit(e, w) && DistinctIds(w) && i < |w.axes| && w.axes[i].configured
    ensures
      var x := Poll(e, w, i).0;
      && Connected(x) && x.fd == w.fd && AllHoldFit(e, x)
      && forall j :: 0 <= j < |w.axes| ==> SameIdentity(w.axes[j], x.axes[j])
  {
    hide PollReinit, Observe, AllHoldFit, DistinctIds, Connected, MapFits, SameShape, Alike, SameIdentity, Mask;
    var (w1, go) := PollReinit(e, w, i);
    PollPhase(e, w, i);
    PollReinitEffect(e, w, i);
    AlikeIdentity(w.axes[i], w1.axes[i]);
    forall j | 0 <= j < |w.axes| ensures SameIdentity(w.axes[j], w1.axes[j]) { SameIdentityItself(w.axes[j]); }
    SameIdentities(w, w1);
    if go {
      var x := Observe(e, w1, i).0;
      ObserveSameShape(e, w1, i);
      SameShapeHoldsFit(e, w1, x);
      forall j | 0 <= j < |w.axes| ensures SameIdentity(w.axes[j], x.axes[j]) { ShapeIdentity(w, w1, x, j); }
      ShapeTells(w1, x, i);
    }
  }

  lemma AlikeIdentity(a: Axis, b: Axis)
    requires Alike(a, b)
    ensures SameIdentity(a, b)
  {
  }

  lemma ShapeIdentity(w: World, w1: World, x: World, j: nat)
    requires |w1.axes| == |w.axes| && j < |w.axes| && SameIdentity(w.axes[j], w1.axes[j]) && SameShape(w1, x)
    ensures |x.axes| == |w.axes| && SameIdentity(w.axes[j], x.axes[j])
  {
    hide OneChannel;
    assert SameHolding(w1.axes[j], x.axes[j]);
  }

  lemma SameIdentities(w: World, x: World)
    requires DistinctIds(w) && |x.axes| == |w.axes| && forall j :: 0 <= j < |w.axes| ==>
      SameIdentity(w.axes[j], x.axes[j])
    ensures DistinctIds(x) && forall id :: Owned(w, id) <==> Owned(x, id)
  {
    forall id ensures Owned(w, id) <==> Owned(x, id) {
      if Owned(w, id) {
        var j :| 0 <= j < |w.axes| && w.axes[j].configured && w.axes[j].cfg.id == id;
        assert x.axes[j].cfg.id == id;
      }
      if Owned(x, id) {
        var j :| 0 <= j < |x.axes| && x.axes[j].configured && x.axes[j].cfg.id == id;
        assert w.axes[j].cfg.id == id;
      }
    }
  }

  // ----- Configuring -----

  lemma ConfiguredAxis(a: Axis, c: Config, idx: int, ok: bool)
    ensures
      var b := Configured(a, c);
      && b.cfg == c && b.configured && b.setupIdx == a.setupIdx
      && AwaitingChannel(b).cfg == c && AwaitingChannel(b).configured && AwaitingChannel(b).setupIdx == a.setupIdx
         && AwaitingChannel(b).needsReinit
      && var f := FirstTried(b.(setupIdx := idx), ok);
         f.cfg == c && f.configured && f.setupIdx == idx && f.needsReinit == !ok
  {
  }

  lemma ReconfiguredHoldsFit(e: Env, l: Lib, a: Axis, b: Axis)
    requires if a.configured then HoldsFit(e, l, a) && b.cfg.id == a.cfg.id else a.setupIdx < 0
    requires b.setupIdx == a.setupIdx && Fits(e, b.cfg.id, DEFAULTS + e.file(b.cfg.file))
    ensures HoldsFit(e, l, b)
  {
    hide Fits, Complete;
  }

  lemma ConfigurePhase(e: Env, w: World, i: nat, c: Config)
    requires Acked(e) && Connected(w) && AllHoldFit(e, w) && i < |w.axes| && Fits(e, c.id, DEFAULTS + e.file(c.file))
    requires w.axes[i].configured ==> c.id == w.axes[i].cfg.id
    ensures
      var x := Configure(e, w, i, c);
      && Connected(x) && x.fd == w.fd && AllHoldFit(e, x) && x.axes[i].cfg == c && x.axes[i].configured
      && (if w.fd < 0 then x.axes[i].needsReinit && x.lib == w.lib
          else if x.axes[i].needsReinit then Mask(e, x.lib, c.id) == Mask(e, w.lib, c.id)
          else Mask(e, x.lib, c.id) == Cleared(Mask(e, w.lib, c.id), c.ignoreLsp, c.ignoreLsn))
  {
    hide Reinit, Configured, AwaitingChannel, FirstTried, Mask, Cleared, HoldsFit, Fits, SelectChannel, Connected,
      AllHoldFit;
    var a := Configured(w.axes[i], c);
    var x := Configure(e, w, i, c);
    ConfigureKeepsConnected(e, w, i, c);
    AxisHoldsFit(e, w, i);
    ConfiguredAxis(w.axes[i], c, -1, false);
    ReconfiguredHoldsFit(e, w.lib, w.axes[i], a);
    if w.fd >= 0 {
      var (l, a', ok) := Reinit(e, SelectChannel(e, w.lib, w.fd).0, a);
      ConfiguredAxis(w.axes[i], c, a'.setupIdx, ok);
      InitialisedInWorld(e, w, i, a, x);
    } else {
      ReconfiguredHoldsFit(e, w.lib, w.axes[i], x.axes[i]);
      WaitedInWorld(e, w, i, x);
    }
  }

  /** No drive starts with a limit event armed. */
  ghost predicate NoneArmed(e: Env, own: Lib) {
    forall id: byte :: !HasLsp(Mask(e, own, id)) && !HasLsn(Mask(e, own, id))
  }

  lemma UnarmedIsExpected(e: Env, own: Lib, id: byte, t: bool, d: Drop)
    requires NoneArmed(e, own)
    ensures Expected(false, t, d, Mask(e, own, id)) == Mask(e, own, id)
  {
    hide Mask, HasLsp, HasLsn, LimitsSet;
    Split(Mask(e, own, id));
  }

  lemma ConfigureCouples(e: Env, w: World, i: nat, c: Config, own: Lib, d: Drop)
    requires Orderly(e, w, own) && NoneArmed(e, own) && i < |w.axes|
    requires Proper(e, w, DoConfigure(i, c)) && Coupled(e, w, i, d, own)
    ensures
      var x := Configure(e, w, i, c);
      Coupled(e, x, i, if x.axes[i].needsReinit then d else Ignoring(d, c), own)
  {
    hide Configure, Expected, AllHoldFit, DistinctIds, Mask, Cleared, Connected, Fits, NoneArmed, Owned, M;
    var p, m := w.axes[i].motion, Mask(e, own, c.id);
    ConfigurePhase(e, w, i, c);
    ConfigureOutcome(e, w, i, c);
    SameMotions(w.axes[i], Configure(e, w, i, c).axes[i]);
    if !w.axes[i].configured { UnarmedIsExpected(e, own, c.id, p.towardLsp, d); }
    ExpectedCleared(p.homing, p.towardLsp, d, m, c.ignoreLsp, c.ignoreLsn);
  }

  lemma SameMotions(a: Axis, b: Axis)
    requires M(a) == M(b)
    ensures a.motion == b.motion
  {
  }

  lemma ConfigureOrderly(e: Env, w: World, i: nat, c: Config, own: Lib)
    requires Orderly(e, w, own) && i < |w.axes| && Proper(e, w, DoConfigure(i, c))
    ensures Orderly(e, Configure(e, w, i, c), own)
  {
    hide Configure, AllHoldFit, Mask, Connected, Fits, M, OnlyTo, UnownedAsBefore, Idle, Owned, DistinctIds;
    var x := Configure(e, w, i, c);
    ConfigurePhase(e, w, i, c);
    ConfigureOutcome(e, w, i, c);
    SameMotions(w.axes[i], x.axes[i]);
    ConfigureOnlyTo(e, w, i, c);
    OneMoreOwner(w, x, i, c.id);
    UnownedStays(e, w, x, own, c.id);
    if !w.axes[i].configured || w.fd < 0 { NotHomingDown(w, i); }
    IdleAfter(w, x, i);
  }

  lemma OneMoreOwner(w: World, x: World, i: nat, mine: byte)
    requires DistinctIds(w) && |x.axes| == |w.axes| && i < |w.axes| && x.axes[i].configured && x.axes[i].cfg.id == mine
    requires if w.axes[i].configured then mine == w.axes[i].cfg.id else !Owned(w, mine)
    requires forall j :: 0 <= j < |w.axes| && j != i ==> x.axes[j] == w.axes[j]
    ensures DistinctIds(x) && Owned(x, mine) && forall id :: Owned(w, id) ==> Owned(x, id)
  {
    forall id | Owned(w, id) ensures Owned(x, id) {
      var j :| 0 <= j < |w.axes| && w.axes[j].configured && w.axes[j].cfg.id == id;
      assert x.axes[j].configured && x.axes[j].cfg.id == id;
    }
  }

  lemma OthersHaveOtherIds(w: World, i: nat, j: nat, mine: byte)
    requires DistinctIds(w) && i < |w.axes| && j < |w.axes| && i != j && w.axes[j].configured
    requires if w.axes[i].configured then mine == w.axes[i].cfg.id else !Owned(w, mine)
    ensures w.axes[j].cfg.id != mine
  {
  }

  // ----- Opening, and time passing -----

  /** What it is and how it homes is the same, and it holds the same setup or none. */
  predicate AxisAlongside(a: Axis, b: Axis) {
    && b.cfg == a.cfg && b.configured == a.configured && (b.setupIdx == a.setupIdx || b.setupIdx < 0)
    && b.motion.homing == a.motion.homing && b.motion.towardLsp == a.motion.towardLsp
  }

  lemma FlaggedAlongside(a: Axis)
    ensures AxisAlongside(a, Flagged(a)) && AxisAlongside(a, a)
  {
  }

  /** Same registers and setups, and such axes. */
  ghost predicate Alongside(w: World, x: World) {
    && x.lib.mem == w.lib.mem && x.lib.tab.setups == w.lib.tab.setups && |x.axes| == |w.axes|
       && (w.fd >= 0 ==> x.fd == w.fd)
    && forall j :: 0 <= j < |w.axes| ==> AxisAlongside(w.axes[j], x.axes[j])
  }

  lemma OpeningAlongside(e: Env, w: World)
    ensures Alongside(w, EnsureChannel(e, w).0)
  {
    hide OpenChannel, Flagged, AxisAlongside;
    forall j | 0 <= j < |w.axes| ensures AxisAlongside(w.axes[j], EnsureChannel(e, w).0.axes[j]) {
      FlaggedAlongside(w.axes[j]);
    }
  }

  lemma AlongsideOrderly(e: Env, w: World, x: World, own: Lib)
    requires Orderly(e, w, own) && Alongside(w, x) && Connected(x)
    ensures Orderly(e, x, own)
  {
    hide HoldsFit, Connected, Mask, UnownedAsBefore, DistinctIds;
    forall j | 0 <= j < |x.axes|
      ensures if x.axes[j].configured then HoldsFit(e, x.lib, x.axes[j]) else x.axes[j].setupIdx < 0 {
      AxisHoldsFit(e, w, j);
      if w.axes[j].configured { SameSetupsHoldsFit(e, w.lib, x.lib, w.axes[j], x.axes[j]); }
    }
    forall j | 0 <= j < |w.axes| ensures SameIdentity(w.axes[j], x.axes[j]) {
      assert AxisAlongside(w.axes[j], x.axes[j]);
    }
    SameIdentities(w, x);
    AlongsideUnowned(e, w, x, own);
  }

  lemma SameSetupsHoldsFit(e: Env, l: Lib, r: Lib, a: Axis, b: Axis)
    requires HoldsFit(e, l, a) && r.tab.setups == l.tab.setups && b.cfg == a.cfg
    requires b.setupIdx == a.setupIdx || b.setupIdx < 0
    ensures HoldsFit(e, r, b)
  {
    hide Fits, Complete;
  }

  lemma AlongsideUnowned(e: Env, w: World, x: World, own: Lib)
    requires UnownedAsBefore(e, w, own) && x.lib.mem == w.lib.mem && forall id :: Owned(w, id) <==> Owned(x, id)
    ensures UnownedAsBefore(e, x, own)
  {
    hide Owned;
    forall id | !Owned(x, id) ensures Mask(e, x.lib, id) == Mask(e, own, id) { SameMem(e, w.lib, x.lib, id); }
  }

  lemma AlongsideCoupled(e: Env, w: World, x: World, j: nat, d: Drop, own: Lib)
    requires Coupled(e, w, j, d, own) && Alongside(w, x)
    ensures Coupled(e, x, j, d, own)
  {
    hide Expected;
  }

  lemma TickAlongside(w: World)
    requires Connected(w)
    ensures Alongside(w, Later(w)) && Connected(Later(w))
  {
    SameChannelsKeepsOne(w.lib, Tick(w.lib), w.fd);
  }

  // ----- Runs -----

  /** What is dropped after a call: nothing once a home is taken; then what the configuration
      says is to be ignored, each time the axis is initialised. */
  ghost function After(e: Env, d: Drop, w: World, c: Cmd, j: nat): Drop
    requires j < |w.axes|
  {
    var (x, ok) := Step(e, w, c);
    if c.CtrlPoll? || c.i != j then d
    else if Takes(c, ok) then NO_DROP
    else if c.DoConfigure? then (if x.axes[j].needsReinit then d else Ignoring(d, c.c))
    else if c.DoPoll? && w.axes[j].configured && w.axes[j].needsReinit && !x.axes[j].needsReinit then
      Ignoring(d, w.axes[j].cfg)
    else d
  }

  /** The limits axis j has been told to ignore since its last home was taken. */
  ghost function DropOf(e: Env, w: World, cs: seq<Cmd>, j: nat): Drop
    requires j < |w.axes|
    decreases |cs|
  {
    if cs == [] then NO_DROP
    else After(e, DropOf(e, w, cs[..|cs| - 1], j), Later(Run(e, w, cs[..|cs| - 1])), cs[|cs| - 1], j)
  }

  lemma StepOrderly(e: Env, w: World, c: Cmd, own: Lib)
    requires Orderly(e, w, own) && Proper(e, w, c)
    ensures Orderly(e, Step(e, w, c).0, own)
  {
    hide Orderly, Proper, Poll, Configure, EnsureChannel, Move, MoveVelocity, Home, ForceHome, Stop, SetPosition,
      SetClosedLoop, WriteParam;
    if c.CtrlPoll? { OpeningOrderly(e, w, own); }
    else if c.i < |w.axes| {
      if c.DoPoll? { PollOrderly(e, w, c.i, own); }
      else if c.DoConfigure? { ConfigureOrderly(e, w, c.i, c.c, own); }
      else { CommandOrderly(e, w, c, own); }
    }
  }

  lemma OpeningOrderly(e: Env, w: World, own: Lib)
    requires Orderly(e, w, own)
    ensures Orderly(e, EnsureChannel(e, w).0, own) && Alongside(w, EnsureChannel(e, w).0)
  {
    hide EnsureChannel, Alongside, Connected, AllHoldFit, DistinctIds, Idle, UnownedAsBefore;
    OpeningAlongside(e, w);
    OpeningKeepsConnected(e, w);
    AlongsideOrderly(e, w, EnsureChannel(e, w).0, own);
  }

  /** A call made for axis j. */
  lemma OwnStepCouples(e: Env, w: World, c: Cmd, own: Lib, d: Drop)
    requires Orderly(e, w, own) && NoneArmed(e, own) && Proper(e, w, c) && !c.CtrlPoll?
    requires c.i < |w.axes| && Coupled(e, w, c.i, d, own)
    ensures Coupled(e, Step(e, w, c).0, c.i, After(e, d, w, c, c.i), own)
  {
    hide Orderly, Coupled, NoneArmed, Poll, Configure, Move, MoveVelocity, Home, ForceHome, Stop, SetPosition,
      SetClosedLoop, WriteParam, MapFits, Owned, Fits;
    if c.DoPoll? {
      if w.axes[c.i].configured { PollCouples(e, w, c.i, own, d); } else { UnconfiguredPoll(e, w, c.i); }
    }
    else if c.DoConfigure? { ConfigureCouples(e, w, c.i, c.c, own, d); }
    else { CommandCouples(e, w, c, own, d); }
  }

  /** A call made for another axis. */
  lemma OtherStepCouples(e: Env, w: World, c: Cmd, own: Lib, j: nat, d: Drop)
    requires Orderly(e, w, own) && Proper(e, w, c) && !c.CtrlPoll? && c.i < |w.axes| && j < |w.axes| && c.i != j
    requires Coupled(e, w, j, d, own)
    ensures Coupled(e, Step(e, w, c).0, j, d, own)
  {
    hide Coupled, Poll, Configure, Step, MapFits, Owned, Fits, OnlyTo, AllHoldFit, DistinctIds, Idle, UnownedAsBefore,
      Connected;
    var x, id := Step(e, w, c).0, Target(w, c);
    if !c.DoConfigure? && !w.axes[c.i].configured { Ignored(e, w, c); }
    else {
      StepAims(e, w, c);
      OthersKeepHoming(e, w, c, j);
      if w.axes[j].configured { OthersHaveOtherIds(w, c.i, j, id); }
      OthersStayCoupled(e, w, x, j, d, own, id);
    }
  }

  lemma Ignored(e: Env, w: World, c: Cmd)
    requires !c.CtrlPoll? && !c.DoConfigure? && c.i < |w.axes| && !w.axes[c.i].configured
    ensures Step(e, w, c).0 == w
  {
    hide Step;
    if c.DoPoll? {
      UnconfiguredPoll(e, w, c.i);
      PollIsStep(e, w, c.i);
    } else { UnconfiguredIgnores(e, w, c); }
  }

  lemma StepAims(e: Env, w: World, c: Cmd)
    requires e.native && Connected(w) && !c.CtrlPoll? && c.i < |w.axes|
    ensures OnlyTo(w.lib, Step(e, w, c).0.lib, Target(w, c))
  {
    hide Step, Poll, Configure, OnlyTo, Connected;
    if c.DoPoll? {
      PollIsStep(e, w, c.i);
      PollAims(e, w, c.i);
    } else if c.DoConfigure? {
      ConfigureIsStep(e, w, c.i, c.c);
      ConfigureOnlyTo(e, w, c.i, c.c);
    } else { CommandAims(e, w, c); }
  }

  lemma ConfigureIsStep(e: Env, w: World, i: nat, c: Config)
    requires i < |w.axes|
    ensures Step(e, w, DoConfigure(i, c)).0 == Configure(e, w, i, c)
  {
    hide Configure;
  }

  lemma StepCouples(e: Env, w: World, c: Cmd, own: Lib, j: nat, d: Drop)
    requires Orderly(e, w, own) && NoneArmed(e, own) && Proper(e, w, c) && j < |w.axes| && Coupled(e, w, j, d, own)
    ensures Orderly(e, Step(e, w, c).0, own) && Coupled(e, Step(e, w, c).0, j, After(e, d, w, c, j), own)
  {
    hide Orderly, Coupled, NoneArmed, Proper, Step;
    StepOrderly(e, w, c, own);
    if c.CtrlPoll? || c.i >= |w.axes| { NoOnesStep(e, w, c, own, j, d); }
    else if c.i == j { OwnStepCouples(e, w, c, own, d); }
    else { OtherStepCouples(e, w, c, own, j, d); }
  }

  lemma NoOnesStep(e: Env, w: World, c: Cmd, own: Lib, j: nat, d: Drop)
    requires Orderly(e, w, own) && Coupled(e, w, j, d, own) && (c.CtrlPoll? || c.i >= |w.axes|)
    ensures Coupled(e, Step(e, w, c).0, j, d, own)
  {
    hide Orderly, Coupled, EnsureChannel, Alongside;
    if c.CtrlPoll? {
      OpeningOrderly(e, w, own);
      AlongsideCoupled(e, w, EnsureChannel(e, w).0, j, d, own);
    }
  }

  ghost predicate ProperRun(e: Env, w: World, cs: seq<Cmd>) {
    forall k :: 0 <= k < |cs| ==> Proper(e, Later(Run(e, w, cs[..k])), cs[k])
  }

  lemma {:induction false} RunCouples(e: Env, w: World, cs: seq<Cmd>, own: Lib, j: nat)
    requires Orderly(e, w, own) && NoneArmed(e, own) && ProperRun(e, w, cs)
    requires j < |w.axes| && Coupled(e, w, j, NO_DROP, own)
    ensures Orderly(e, Run(e, w, cs), own) && Coupled(e, Run(e, w, cs), j, DropOf(e, w, cs, j), own)
    decreases |cs|
  {
    hide Orderly, Coupled, Step, NoneArmed, Proper, After, Alongside;
    if cs != [] {
      var rest, c := cs[..|cs| - 1], cs[|cs| - 1];
      assert forall k :: 0 <= k < |rest| ==> rest[..k] == cs[..k] && rest[k] == cs[k];
      RunCouples(e, w, rest, own, j);
      var v := Run(e, w, rest);
      LaterCouples(e, v, own, j, DropOf(e, w, rest, j));
      StepCouples(e, Later(v), c, own, j, DropOf(e, w, rest, j));
    }
  }

  lemma LaterCouples(e: Env, w: World, own: Lib, j: nat, d: Drop)
    requires Orderly(e, w, own) && Coupled(e, w, j, d, own)
    ensures Orderly(e, Later(w), own) && Coupled(e, Later(w), j, d, own)
  {
    hide Coupled, Alongside, AllHoldFit, DistinctIds, Idle, UnownedAsBefore, Connected;
    TickAlongside(w);
    AlongsideOrderly(e, w, Later(w), own);
    AlongsideCoupled(e, w, Later(w), j, d, own);
  }

  lemma BootOrderly(e: Env, n: nat, mem: map<byte, Mem>, j: nat)
    requires Acked(e) && j < n
    ensures Orderly(e, Boot(e, n, mem), EmptyLib(mem)) && Coupled(e, Boot(e, n, mem), j, NO_DROP, EmptyLib(mem))
  {
    hide OneChannel, OpenChannel, Expected;
    BootConnected(e, n, mem);
  }

  /** Natively, with every call acknowledged - opening the channel may fail and be tried again -,
      with the axes' ids distinct and kept, no drive reset, and every call finding a map that
      fits its drive: in every reachable world the positive limit event of an axis's drive is
      armed exactly while the axis homes towards the positive limit and has not been told to
      ignore it by an initialisation since that home was taken, and the same for the negative;
      no other bit of the mask ever changes. */
  lemma LimitEventsFollowHoming(e: Env, n: nat, mem: map<byte, Mem>, cs: seq<Cmd>, j: nat)
    requires Acked(e) && NoneArmed(e, EmptyLib(mem)) && ProperRun(e, Boot(e, n, mem), cs)
    requires j < n && Run(e, Boot(e, n, mem), cs).axes[j].configured
    ensures
      var w := Run(e, Boot(e, n, mem), cs);
      var p, d := w.axes[j].motion, DropOf(e, Boot(e, n, mem), cs, j);
      var m := Mask(e, w.lib, w.axes[j].cfg.id);
      && (HasLsp(m) <==> p.homing && p.towardLsp && !d.lsp)
      && (HasLsn(m) <==> p.homing && !p.towardLsp && !d.lsn)
      && SameElsewhere(m, Mask(e, EmptyLib(mem), w.axes[j].cfg.id))
  {
    hide Run, Boot, ProperRun, NoneArmed, HasLsp, HasLsn, LimitsSet, SameElsewhere, EmptyLib, DropOf, Orderly, Mask;
    BootOrderly(e, n, mem, j);
    RunCouples(e, Boot(e, n, mem), cs, EmptyLib(mem), j);
    var a, d := Run(e, Boot(e, n, mem), cs).axes[j], DropOf(e, Boot(e, n, mem), cs, j);
    WithBits(Mask(e, EmptyLib(mem), a.cfg.id), a.motion.homing && a.motion.towardLsp && !d.lsp,
      a.motion.homing && !a.motion.towardLsp && !d.lsn);
  }
}
