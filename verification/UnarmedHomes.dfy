/** Runs in which an axis homes without the event on the limit it heads for: two setup files that
    disagree, and a home taken before an initialisation that was put off. */
module UnarmedHomes {
  import opened Codec
  import opened Masks
  import opened TmlLib
  import opened Supervisor
  import opened Channels
  import opened Initialising
  import opened AxisEffects
  import opened Lifting
  import opened Connection
  import opened Recovery
  import opened AxisMotion
  import opened AxisOutcomes
  import opened Stopping
  import opened Homing
  import opened MaskRegister
  import opened Coupling
  import opened CoupledRuns
  import opened Maps
  import opened Agreement
  import opened Showing

  // ----- Setup files that disagree -----

  /** File "b" has MER_MASK elsewhere. */
  function TwoFiles(): Env {
    Env(true, 0, (t: nat) => 0.0, (t: nat) => Reply(true, 0, 0x8000, 0),
        (path: string) => if path == "b" then map["MER_MASK" := 0x1000] else map[],
        (id: byte, at: word) => at == DEFAULTS["SRL"], (t: nat) => map[], (id: byte) => DEFAULTS["MER_MASK"])
  }

  const FIRST := Config(1, "a", true, false, false, 0)
  const SECOND := Config(2, "b", true, false, false, 0)
  const AFTER_BOTH: VarMap := DEFAULTS["MER_MASK" := 0x1000]

  lemma TwoFilesShow()
    ensures Shows(TwoFiles()) && Acked(TwoFiles())
  {
  }

  /** Initialising with a newly loaded setup puts it over the map; it writes no register unless
      the configuration asks for that. */
  lemma ReinitMerges(e: Env, l: Lib, a: Axis)
    requires Acked(e) && ActiveChan(l).Some? && a.setupIdx < 0 && FreeSlot(l.tab.setups, 0).Some?
    ensures
      var (r, a', ok) := Reinit(e, l, a);
      && ok && ActiveChan(r).Some?
      && ActiveChan(r).value.vars == ActiveChan(l).value.vars + (DEFAULTS + e.file(a.cfg.file))
      && r.tab.setups == l.tab.setups[FreeSlot(l.tab.setups, 0).value := Some(DEFAULTS + e.file(a.cfg.file))]
      && (Plain(a.cfg) ==> r.mem == l.mem)
  {
    hide AfterEndInit, DriveInitialisation, Talks;
    AckedReinitSucceeds(e, l, a);
    var (l1, idx) := Hold(e, l, a);
    var l2 := SetupAxis(e, l1, a.cfg.id, idx).0;
    var l3 := SelectAxis(e, l2, a.cfg.id).0;
    var l4 := DriveInitialisation(e, l3, ENDINIT_TRIES).0;
    TalksKeeps(l3, l4);
    TalksKeeps(l4, AfterEndInit(e, l4, a));
    if Plain(a.cfg) { PlainWritesNothing(e, l4, a); }
  }

  lemma PlainWritesNothing(e: Env, l: Lib, a: Axis)
    requires Plain(a.cfg)
    ensures AfterEndInit(e, l, a).mem == l.mem
  {
    hide ReadAll, Talks;
  }

  /** An axis configured for the first time, on the open channel. */
  lemma FirstConfigure(e: Env, w: World, i: nat, c: Config)
    requires Acked(e) && Connected(w) && w.fd >= 0 && i < |w.axes| && w.axes[i] == NEW_AXIS && Plain(c)
    requires FreeSlot(w.lib.tab.setups, 0).Some? && ActiveChan(w.lib).Some?
    ensures
      var x := Configure(e, w, i, c);
      && Connected(x) && x.fd == w.fd && x.axes == w.axes[i := x.axes[i]] && x.axes[i].configured && x.axes[i].cfg == c
      && ActiveChan(x.lib).Some? && ActiveChan(x.lib).value.vars
         == ActiveChan(w.lib).value.vars + (DEFAULTS + e.file(c.file))
      && x.lib.tab.setups == w.lib.tab.setups[FreeSlot(w.lib.tab.setups, 0).value := Some(DEFAULTS + e.file(c.file))]
      && x.lib.mem == w.lib.mem
  {
    hide Reinit, Configured, FirstTried, AwaitingChannel, Connected;
    var a, l := Configured(w.axes[i], c), SelectChannel(e, w.lib, w.fd).0;
    ConfigureKeepsConnected(e, w, i, c);
    SelectedChannel(e, w);
    ConfiguredAxis(w.axes[i], c, -1, true);
    ReinitMerges(e, l, a);
    ConfiguredAxis(w.axes[i], c, Reinit(e, l, a).1.setupIdx, true);
  }

  lemma TwoBoot()
    ensures
      var w := Boot(TwoFiles(), 2, map[]);
      && Connected(w) && w.fd >= 0 && w.axes == [NEW_AXIS, NEW_AXIS] && w.lib.mem == map[]
      && w.lib.tab.setups == seq(MAX_SETUPS, _ => None)
      && ActiveChan(w.lib).Some? && ActiveChan(w.lib).value.vars == DEFAULTS
  {
    BootConnected(TwoFiles(), 2, map[]);
    assert FreeSlot(EmptyLib(map[]).tab.chans, 0) == Some(0);
  }

  lemma SecondSlot(s: seq<Option<VarMap>>, r: seq<Option<VarMap>>)
    requires s == seq(MAX_SETUPS, _ => None) && exists v :: r == s[FreeSlot(s, 0).value := Some(v)]
    ensures FreeSlot(r, 0).Some?
  {
    assert FreeSlot(s, 0) == Some(0);
    assert r[1] == None;
  }

  const BOTH := [DoConfigure(0, FIRST), DoConfigure(1, SECOND)]

  lemma OneConfigured()
    ensures
      var e := TwoFiles();
      var w := Next(e, Boot(e, 2, map[]), DoConfigure(0, FIRST));
      && Connected(w) && w.fd >= 0 && |w.axes| == 2 && w.axes[0].configured && w.axes[0].cfg == FIRST
      && w.axes[1] == NEW_AXIS && w.lib.mem == map[] && FreeSlot(w.lib.tab.setups, 0).Some?
      && ActiveChan(w.lib).Some? && ActiveChan(w.lib).value.vars == DEFAULTS
  {
    hide Boot, Configure, Connected, Next;
    var e := TwoFiles();
    var w0 := Boot(e, 2, map[]);
    TwoFilesShow();
    TwoBoot();
    LaterConnected(w0);
    FirstConfigure(e, Later(w0), 0, FIRST);
    ConfigureIsNext(e, w0, 0, FIRST);
    assert DEFAULTS + (DEFAULTS + map[]) == DEFAULTS;
    SecondSlot(w0.lib.tab.setups, Next(e, w0, DoConfigure(0, FIRST)).lib.tab.setups);
  }

  /** Both configured: the map is that of the second. */
  lemma BothConfigured()
    ensures
      var e := TwoFiles();
      var w := Run(e, Boot(e, 2, map[]), BOTH);
      && Connected(w) && w.fd >= 0 && |w.axes| == 2 && w.axes[0].configured && w.axes[1].configured
      && w.axes[0].cfg == FIRST && w.axes[1].cfg == SECOND && w.lib.mem == map[]
      && ActiveChan(w.lib).Some? && ActiveChan(w.lib).value.vars == AFTER_BOTH
  {
    hide Boot, Configure, Connected, Next;
    var e := TwoFiles();
    var w0 := Boot(e, 2, map[]);
    var w1 := Next(e, w0, DoConfigure(0, FIRST));
    TwoFilesShow();
    OneConfigured();
    LaterConnected(w1);
    FirstConfigure(e, Later(w1), 1, SECOND);
    ConfigureIsNext(e, w1, 1, SECOND);
    assert DEFAULTS + (DEFAULTS + map["MER_MASK" := 0x1000]) == AFTER_BOTH;
    OneStepRun(e, w0, DoConfigure(0, FIRST));
    OneMore(e, w0, [DoConfigure(0, FIRST)], DoConfigure(1, SECOND));
    assert BOTH == [DoConfigure(0, FIRST)] + [DoConfigure(1, SECOND)];
  }

  lemma BothApart()
    ensures Apart(TwoFiles(), 1, AFTER_BOTH) && Resolve(AFTER_BOTH, "MER_MASK") != TwoFiles().maskAt(1)
    ensures Standard(AFTER_BOTH)
  {
  }

  /** A run, with every call acknowledged, in which the home of one axis is reported as started
      and arms nothing, because another axis was configured after it. */
  lemma UnarmedHomeIsReached() returns (e: Env, cs: seq<Cmd>)
    ensures Acked(e)
    ensures
      var v := Run(e, Boot(e, 2, map[]), cs);
      var (x, ok) := Step(e, Later(v), HomeOf(0));
      && |v.axes| == |x.axes| == 2 && v.axes[0].cfg.id != v.axes[1].cfg.id
      && ok && x.axes[0].motion.homing && x.axes[0].motion.towardLsp
      && !HasLsp(Mask(e, x.lib, x.axes[0].cfg.id)) && !HasLsn(Mask(e, x.lib, x.axes[0].cfg.id))
  {
    hide Boot, Run, Step, Connected, Home, HomeOutcome, Shows, Apart, Standard, Cleared, Armed;
    e := TwoFiles();
    TwoFilesShow();
    BothConfigured();
    cs := BOTH;
    var v := Run(e, Boot(e, 2, map[]), cs);
    var w := Later(v);
    BothApart();
    LaterConnected(v);
    ShownHome(e, w, 0);
    HomeIsNext(e, v, 0);
    HomeArmsIff(e, w, 0, 10.0, 0.0, 1.0, true);
    HomesTowards(w, Step(e, w, HomeOf(0)).0, 0);
  }

  lemma HomesTowards(w: World, x: World, i: nat)
    requires HomeOutcome(w, x, i, true, true)
    ensures i < |w.axes| == |x.axes|
    ensures
      var p := x.axes[i].motion;
      p.homing && p.towardLsp && !p.moveSeen && x.axes[i].cfg == w.axes[i].cfg
        && x.axes[i].configured == w.axes[i].configured
  {
  }

  // ----- A home before the initialisation -----

  /** The channel cannot be opened at first. */
  function OpensLate(): Env {
    Env(true, 0, (t: nat) => 100.0 + 100.0 * t as real, (t: nat) => Reply(true, 0, 0x8000, if t < 5 then -1 else 0),
        (path: string) => map[], (id: byte, at: word) => at == DEFAULTS["SRL"], (t: nat) => map[],
        (id: byte) => DEFAULTS["MER_MASK"])
  }

  /** To ignore the limit it will home to. */
  const IGNORING := Config(1, "", true, true, false, 0)

  lemma OpensLateShows()
    ensures Shows(OpensLate()) && Acked(OpensLate()) && Agreeing(OpensLate()) && NoneArmed(OpensLate(), EmptyLib(map[]))
  {
    var e := OpensLate();
    DefaultsFit(e);
    forall path: string ensures FitsAll(e, DEFAULTS + e.file(path)) { assert DEFAULTS + e.file(path) == DEFAULTS; }
  }

  /** Configured, with the channel open and the initialisation still to come. */
  ghost predicate PutOff(w: World) {
    && Connected(w) && w.fd >= 0 && |w.axes| == 1 && FreeSlot(w.lib.tab.setups, 0).Some?
    && w.axes[0].configured && w.axes[0].cfg == IGNORING && w.axes[0].needsReinit && w.axes[0].countdown == 0
       && w.axes[0].setupIdx < 0
  }

  const OPENING := [DoConfigure(0, IGNORING), CtrlPoll]

  lemma LateBoot()
    ensures
      var w := Boot(OpensLate(), 1, map[]);
      && Connected(w) && w.fd < 0 && w.axes == [NEW_AXIS] && w.lib == EmptyLib(map[]).(t := 3, opens := w.lib.opens)
      && w.last == OpensLate().clock(2)
  {
    BootConnected(OpensLate(), 1, map[]);
  }

  lemma LateConfigure(w: World)
    requires w.fd < 0 && w.axes == [NEW_AXIS]
    ensures
      var x := Configure(OpensLate(), w, 0, IGNORING);
      && x.lib == w.lib && x.fd == w.fd && x.last == w.last && |x.axes| == 1
      && x.axes[0].configured && x.axes[0].cfg == IGNORING && x.axes[0].needsReinit
  {
  }

  lemma LateOpening(w: World)
    requires Connected(w) && w.fd < 0 && w.last == OpensLate().clock(2)
    requires w.lib == EmptyLib(map[]).(t := 5, opens := w.lib.opens)
    requires |w.axes| == 1 && w.axes[0].configured && w.axes[0].cfg == IGNORING
    ensures PutOff(EnsureChannel(OpensLate(), w).0)
  {
    OpeningKeepsConnected(OpensLate(), w);
    assert FreeSlot(EmptyLib(map[]).tab.chans, 0) == Some(0);
    assert FreeSlot(EmptyLib(map[]).tab.setups, 0) == Some(0);
  }

  lemma OpenedLate()
    ensures PutOff(Run(OpensLate(), Boot(OpensLate(), 1, map[]), OPENING))
  {
    hide Boot, Configure, Next, PutOff, Connected, EnsureChannel;
    var e := OpensLate();
    var w0 := Boot(e, 1, map[]);
    LateBoot();
    LateConfigure(Later(w0));
    ConfigureIsNext(e, w0, 0, IGNORING);
    var w1 := Next(e, w0, DoConfigure(0, IGNORING));
    StillClosed(w0, w1);
    LateOpening(Later(w1));
    OpeningIsNext(e, w1);
    OneStepRun(e, w0, DoConfigure(0, IGNORING));
    OneMore(e, w0, [DoConfigure(0, IGNORING)], CtrlPoll);
    assert OPENING == [DoConfigure(0, IGNORING)] + [CtrlPoll];
  }

  lemma StillClosed(w: World, x: World)
    requires Connected(w) && x.fd == w.fd && x.lib == Tick(w.lib)
    ensures Connected(Later(x))
  {
    SameChannelsKeepsOne(w.lib, Later(x).lib, w.fd);
  }

  lemma OpeningIsNext(e: Env, w: World)
    ensures Next(e, w, CtrlPoll) == EnsureChannel(e, Later(w)).0
  {
    hide EnsureChannel;
  }

  /** And now homing. */
  ghost predicate HomingOff(w: World) {
    && PutOff(w)
    && var p := w.axes[0].motion; p.homing && p.towardLsp && !p.moveSeen && Sane(M(w.axes[0]))
  }

  lemma HomesEarly(v: World)
    requires PutOff(v) && Known(Later(v).lib) && Sane(M(v.axes[0]))
    ensures
      var (x, ok) := Step(OpensLate(), Later(v), HomeOf(0));
      ok && HomingOff(x)
  {
    hide Connected, Known, Step, Home, HomeOutcome, Shows, Agreeing, SameShape, M, Sane;
    var e, w := OpensLate(), Later(v);
    OpensLateShows();
    LaterConnected(v);
    ShownHome(e, w, 0);
    HomeIsNext(e, v, 0);
    var x := Step(e, w, HomeOf(0)).0;
    HomesTowards(w, x, 0);
    CommandSameShape(e, w, HomeOf(0));
    ShapeHolds(w, x);
    NativeLeavesAlone(e, v, HomeOf(0), 0);
    StepSane(e, w, HomeOf(0), 0);
  }

  lemma ShapeHolds(w: World, x: World)
    requires SameShape(w, x) && |w.axes| == 1
    ensures Connected(x) && x.fd == w.fd && |x.axes| == 1
    ensures x.axes[0].setupIdx == w.axes[0].setupIdx
    ensures x.lib.tab.setups == w.lib.tab.setups
  {
    assert SameHolding(w.axes[0], x.axes[0]);
  }

  lemma MapsKnown(w: World)
    requires Connected(w) && w.fd >= 0 && AllMaps(Standard, w.lib)
    ensures Known(w.lib)
  {
    hide Standard;
    OneChannelIsInOrder(w.lib, w.fd);
  }

  lemma InitialisesLate(w: World)
    requires HomingOff(w) && AllMaps(Standard, w.lib)
    ensures
      var (w1, go) := PollReinit(OpensLate(), w, 0);
      && go && Connected(w1) && w1.fd == w.fd && |w1.axes| == 1 && Known(w1.lib)
      && !w1.axes[0].needsReinit && w1.axes[0].configured
  {
    hide Reinit, Connected, Restored, Standard, Shows, Agreeing, M, Sane, HandedOn, Alike, AllMaps, Known,
      SelectChannel;
    var e, a := OpensLate(), w.axes[0];
    OpensLateShows();
    SelectedChannel(e, w);
    var l := SelectChannel(e, w.lib, w.fd).0;
    AckedReinitSucceeds(e, l, a);
    RestoredAxis(a, Reinit(e, l, a).1.setupIdx);
    PollKeepsConnected(e, w, 0);
    StandardHandedOn(e);
    PollMaps(e, Standard, w, 0);
    MapsKnown(PollReinit(e, w, 0).0);
  }

  /** The poll that initialises the axis finds it moving on, and leaves it homing. */
  lemma GoesOnHoming(w: World)
    requires HomingOff(w) && AllMaps(Standard, w.lib)
    ensures
      var x := Poll(OpensLate(), w, 0).0;
      |x.axes| == 1 && x.axes[0].motion.homing && x.axes[0].motion.towardLsp && !x.axes[0].needsReinit
  {
    hide PollReinit, Select, ReadStatus, Observe, Connected, Known, Shows, Agreeing, M, Raised, PollOutcome, Standard,
      AllMaps, Poll, Sane, TurningRead;
    var e := OpensLate();
    OpensLateShows();
    InitialisesLate(w);
    var w1 := PollReinit(e, w, 0).0;
    SelectKnown(e, w1, 0);
    var w2 := Select(e, w1, 0).0;
    ShownStatus(e, w2.lib, w2.axes[0].polls);
    NotComplete();
    PollRaisesIff(e, w, 0);
    PollPolls(e, w, 0);
    MovingOf(w.axes[0]);
    PollTracks(HomeTo(true, false), w, Poll(e, w, 0).0, 0, Poll(e, w, 0).1);
    MovingOf(Poll(e, w, 0).0.axes[0]);
    ObserveCounters(e, w1, 0);
    PollIsObserve(e, w);
  }

  lemma NotComplete()
    ensures !MotionComplete(0x8000)
  {
  }

  lemma PollIsObserve(e: Env, w: World)
    requires |w.axes| == 1 && w.axes[0].configured && PollReinit(e, w, 0).1
    ensures Poll(e, w, 0).0 == Observe(e, PollReinit(e, w, 0).0, 0).0
  {
    hide PollReinit, Observe;
  }

  const EARLY := OPENING + [HomeOf(0)]

  lemma EarlyIdsKept()
    ensures IdsKept(EARLY) && IdsKept(EARLY + [DoPoll(0)])
  {
  }

  /** Up to the home, which goes through. */
  lemma EarlyHome()
    ensures
      var e := OpensLate();
      var w0 := Boot(e, 1, map[]);
      var v := Run(e, w0, EARLY);
      HomingOff(v) && AllMaps(Standard, v.lib) && DropOf(e, w0, EARLY, 0) == NO_DROP
  {
    hide Boot, PutOff, HomingOff, Known, Shows, Agreeing, Step, AllMaps, Standard, M, HandedOn, Sane, Tracks;
    var e := OpensLate();
    var w0 := Boot(e, 1, map[]);
    var v := Run(e, w0, OPENING);
    OpensLateShows();
    OpenedLate();
    PutOffHas(v);
    KnownInRuns(e, 1, map[], OPENING);
    BootTracks(e, 1, map[], 0);
    CourseIsTracked(e, w0, OPENING, 0);
    HomesEarly(v);
    OneMore(e, w0, OPENING, HomeOf(0));
    StandardHandedOn(e);
    MapsInRuns(e, Standard, 1, map[], EARLY);
    assert EARLY[..|EARLY| - 1] == OPENING;
  }

  lemma PutOffHas(w: World)
    requires PutOff(w)
    ensures w.fd >= 0 && |w.axes| == 1
  {
  }

  /** And the poll after it, which initialises the axis. */
  lemma LatePoll(v: World)
    requires HomingOff(v) && AllMaps(Standard, v.lib)
    ensures
      var e, x := OpensLate(), Next(OpensLate(), v, DoPoll(0));
      && |x.axes| == 1 && x.axes[0].motion.homing && x.axes[0].motion.towardLsp
      && x.axes[0].configured && x.axes[0].cfg == IGNORING
      && CoupledRuns.After(e, NO_DROP, Later(v), DoPoll(0), 0) == Drop(true, false)
  {
    hide Poll, AllMaps, Standard, HomingOff, SameIdentity;
    var e, w := OpensLate(), Later(v);
    LaterHomingOff(v);
    SameTabMaps(Standard, v.lib, w.lib);
    GoesOnHoming(w);
    PollIsStep(e, w, 0);
    PollPolls(e, w, 0);
    HomingOffHas(w);
    SamePolled(w, Poll(e, w, 0).0, Poll(e, w, 0).1);
  }

  lemma LaterHomingOff(w: World)
    requires HomingOff(w)
    ensures HomingOff(Later(w))
  {
    hide Connected;
    LaterConnected(w);
  }

  lemma HomingOffHas(w: World)
    requires HomingOff(w)
    ensures |w.axes| == 1 && w.axes[0].configured && w.axes[0].needsReinit && w.axes[0].cfg == IGNORING
    ensures w.axes[0].motion.homing && w.axes[0].motion.towardLsp
  {
  }

  lemma SamePolled(w: World, x: World, moving: bool)
    requires PollOutcome(w, x, 0, moving) && |w.axes| == 1
    ensures |x.axes| == 1 && x.axes[0].cfg == w.axes[0].cfg && x.axes[0].configured == w.axes[0].configured
  {
    hide M, Published;
  }

  /** A run, with every call acknowledged and setup files that agree, in which an axis homes
      before its initialisation, which had been put off, and the initialisation then disarms the
      event on the limit that the axis goes on heading for. */
  lemma LateDropIsReached() returns (e: Env, cs: seq<Cmd>)
    ensures Acked(e) && Agreeing(e) && IdsKept(cs + [DoPoll(0)])
    ensures
      var v := Run(e, Boot(e, 1, map[]), cs);
      var x := Next(e, v, DoPoll(0));
      && |v.axes| == 1 && x.axes[0].cfg.id == v.axes[0].cfg.id
      && v.axes[0].motion.homing && v.axes[0].motion.towardLsp && HasLsp(Mask(e, v.lib, v.axes[0].cfg.id))
      && x.axes[0].motion.homing && x.axes[0].motion.towardLsp && !HasLsp(Mask(e, x.lib, x.axes[0].cfg.id))
  {
    hide Boot, AllMaps, Standard, Agreeing, IdsKept, NoneArmed, EmptyLib, ProperRun, Next, CoupledRuns.After, HomingOff,
      HasLsp, HasLsn,
      SameElsewhere, Mask, Shows;
    e, cs := OpensLate(), EARLY;
    OpensLateShows();
    EarlyIdsKept();
    EarlyHome();
    var w0 := Boot(e, 1, map[]);
    var v := Run(e, w0, cs);
    HomingOffHas(v);
    LatePoll(v);
    OneMore(e, w0, cs, DoPoll(0));
    assert (cs + [DoPoll(0)])[..|cs|] == cs;
    AgreeingSetupsSuffice(e, 1, map[], cs);
    AgreeingSetupsSuffice(e, 1, map[], cs + [DoPoll(0)]);
    LimitEventsFollowHoming(e, 1, map[], cs, 0);
    LimitEventsFollowHoming(e, 1, map[], cs + [DoPoll(0)], 0);
  }
}
