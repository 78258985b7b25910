/** A run in which an axis comes to be shown as homed although no limit switch is ever read as
    made: the motor is seen to move, and then to have stopped. */
module HomedUnhit {
  import opened Codec
  import opened Masks
  import opened TmlLib
  import opened Supervisor
  import opened Channels
  import opened Initialising
  import opened AxisEffects
  import opened Lifting
  import opened Connection
  import opened Recovery
  import opened AxisMotion
  import opened AxisOutcomes
  import opened Stopping
  import opened Homing
  import opened MaskRegister
  import opened Coupling
  import opened CoupledRuns
  import opened Showing

  // ----- Reads of MER -----

  const MER_AT: word := 0x0910

  predicate NoLimit(m: word) { !HasLsp(m) && !HasLsn(m) }

  /** The drives do not change MER by themselves, and a reset leaves no limit bit in it. */
  ghost predicate LeaveMer(e: Env) {
    (forall id: byte :: !e.live(id, MER_AT)) && forall t: nat :: NoLimit(Cell(e.start(t), MER_AT))
  }

  /** MER is where the defaults have it, no drive shows a limit there, and no read so far has. */
  ghost predicate Unhit(l: Lib) {
    && (ActiveChan(l).Some? ==> ActiveChan(l).value.vars == DEFAULTS)
    && (forall id: byte :: NoLimit(Cell(Drive(l, id), MER_AT)))
    && NoLimitRead(l)
  }

  ghost predicate NoLimitRead(l: Lib) {
    forall j :: 0 <= j < |l.sent| && l.sent[j].op == Read("MER") ==> NoLimit(l.sent[j].val)
  }

  /** What the driver writes, and no limit bit among it. */
  predicate Innocent(op: Op) {
    && (op.Write? ==> op.name in SHORTS || op.name == "MER_MASK")
    && (op.WriteLong? ==> op.name in LONGS)
    && (op.Write? && op.name == "MER" ==> NoLimit(op.val))
  }

  lemma Addresses()
    ensures Resolve(DEFAULTS, "MER") == MER_AT
    ensures forall name :: name in SHORTS || name == "MER_MASK" ==> name == "MER" || Resolve(DEFAULTS, name) != MER_AT
    ensures forall name :: name in LONGS ==>
      Resolve(DEFAULTS, name) != MER_AT && Succ(Resolve(DEFAULTS, name)) != MER_AT
  {
  }

  lemma InnocentMisses(op: Op)
    requires Innocent(op) && op != Write("MER", if op.Write? then op.val else 0)
    ensures forall k :: 0 <= k < |Stores(DEFAULTS, op)| ==> Misses(MER_AT, Stores(DEFAULTS, op)[k])
  {
    hide Resolve;
    Addresses();
  }

  lemma StoredNoLimit(m: Mem, op: Op, n: nat)
    requires NoLimit(Cell(m, MER_AT)) && Innocent(op) && n <= |Stores(DEFAULTS, op)|
    ensures NoLimit(Cell(PutAll(m, Stores(DEFAULTS, op)[..n]), MER_AT))
  {
    hide NoLimit, Resolve, Put, Misses;
    Addresses();
    if op.Write? && op.name == "MER" {
      OneStore(m, MER_AT, op.val);
      assert Stores(DEFAULTS, op)[..1] == [Short(MER_AT, op.val)] && Stores(DEFAULTS, op)[..0] == [];
    } else {
      InnocentMisses(op);
      PutAllMisses(m, Stores(DEFAULTS, op)[..n], MER_AT);
    }
  }

  /** No call brings a limit bit into MER, or out of it, but a write that has one. */
  lemma NothingBringsALimit(e: Env, l: Lib, op: Op)
    requires LeaveMer(e) && Unhit(l) && Innocent(op)
    ensures Unhit(Send(e, l, op).0)
  {
    hide Talks, Stores, PutAll, Resolve, NoLimit, Innocent;
    Addresses();
    var r := Send(e, l, op).0;
    if ActiveChan(l).Some? {
      var c, a := ActiveChan(l).value, e.reply(l.t);
      var n: nat := if a.ok || a.ran > |Stores(c.vars, op)| then |Stores(c.vars, op)| else a.ran;
      StoredNoLimit(Drive(l, c.axis), op, n);
      TalksKeeps(l, r);
      assert NoLimitRead(r);
      forall id: byte ensures NoLimit(Cell(Drive(r, id), MER_AT)) {
        if id != c.axis { assert Drive(r, id) == Drive(l, id); }
      }
    }
  }

  // ----- The calls a home is made of -----

  lemma ReadsUnhit(e: Env, l: Lib, name: string)
    requires LeaveMer(e) && Unhit(l)
    ensures Unhit(GetVar(e, l, name).0) && Unhit(Fetch(e, l, name).0)
  {
    hide Unhit, LeaveMer, Send;
    NothingBringsALimit(e, l, Read(name));
  }

  lemma {:induction false} ReadAllUnhit(e: Env, l: Lib, names: seq<string>)
    requires LeaveMer(e) && Unhit(l)
    ensures Unhit(ReadAll(e, l, names))
    decreases |names|
  {
    hide Unhit, LeaveMer, Talks, GetVar;
    if names != [] {
      ReadsUnhit(e, l, names[0]);
      ReadAllUnhit(e, GetVar(e, l, names[0]).0, names[1..]);
    }
  }

  lemma {:induction false} AwaitPowerUnhit(e: Env, l: Lib, n: nat)
    requires LeaveMer(e) && Unhit(l)
    ensures Unhit(AwaitPower(e, l, n).0)
    decreases n
  {
    hide Unhit, LeaveMer, Talks, GetVar, AxisIsOn;
    if n > 0 {
      ReadsUnhit(e, l, "SRL");
      AwaitPowerUnhit(e, GetVar(e, l, "SRL").0, n - 1);
    }
  }

  lemma SwitchOnUnhit(e: Env, l: Lib)
    requires LeaveMer(e) && Unhit(l)
    ensures Unhit(SwitchOn(e, l).0)
  {
    hide Unhit, LeaveMer, Talks, Send, AwaitPower;
    NothingBringsALimit(e, l, AxisOn);
    AwaitPowerUnhit(e, Send(e, l, AxisOn).0, POWER_POLLS);
  }

  lemma ClearedHasNone(m: word)
    ensures NoLimit(Cleared(m, true, true))
  {
    hide HasLsp, HasLsn, LimitsSet, SameElsewhere;
    WithBits(m, false, false);
  }

  lemma ClearBitsUnhit(e: Env, l: Lib, name: string)
    requires LeaveMer(e) && Unhit(l) && (name == "MER" || name == "MER_MASK")
    ensures Unhit(ClearBits(e, l, name, true, true))
  {
    hide Unhit, LeaveMer, Talks, Send, Fetch, Cleared, NoLimit;
    ReadsUnhit(e, l, name);
    var (l', m) := Fetch(e, l, name);
    ClearedHasNone(m);
    NothingBringsALimit(e, l', Write(name, Cleared(m, true, true)));
  }

  lemma DisarmUnhit(e: Env, l: Lib)
    requires LeaveMer(e) && Unhit(l)
    ensures Unhit(ClearLimitSwitchEvent(e, l))
  {
    hide Unhit, LeaveMer, Talks, ClearBits;
    ClearBitsUnhit(e, l, "MER_MASK");
    ClearBitsUnhit(e, ClearBits(e, l, "MER_MASK", true, true), "MER");
  }

  lemma LaunchHomeUnhit(e: Env, l: Lib, op: Op, forwards: bool)
    requires LeaveMer(e) && Unhit(l) && op.MoveVel?
    ensures Unhit(LaunchHome(e, l, op, forwards).0)
  {
    hide Unhit, LeaveMer, Talks, Send, Fetch, ClearLimitSwitchEvent, Armed;
    DisarmUnhit(e, l);
    var l1 := ClearLimitSwitchEvent(e, l);
    NothingBringsALimit(e, l1, op);
    var l2 := Send(e, l1, op).0;
    ReadsUnhit(e, l2, "MER_MASK");
    var (l3, m) := Fetch(e, l2, "MER_MASK");
    NothingBringsALimit(e, l3, Write("MER_MASK", Armed(m, forwards)));
  }

  lemma StatusUnhit(e: Env, l: Lib, polls: nat)
    requires LeaveMer(e) && Unhit(l)
    ensures Unhit(ReadStatus(e, l, polls).0)
  {
    hide Unhit, LeaveMer, Talks, GetVar, ReadAll, Faulty;
    ReadsUnhit(e, l, "TPOS");
    var l1 := GetVar(e, l, "TPOS").0;
    ReadsUnhit(e, l1, "APOS");
    var l2 := GetVar(e, l1, "APOS").0;
    ReadsUnhit(e, l2, "SRL");
    var (l3, _, srl) := GetVar(e, l2, "SRL");
    ReadsUnhit(e, l3, "MER");
    ReadAllUnhit(e, GetVar(e, l3, "MER").0,
      (if Faulty(srl) then ["SRH"] else []) + (if polls % 10 == 0 then SLOW_READS else []));
  }

  lemma {:induction false} EndInitUnhit(e: Env, l: Lib, tries: nat)
    requires LeaveMer(e) && Unhit(l)
    ensures Unhit(DriveInitialisation(e, l, tries).0)
    decreases tries
  {
    hide Unhit, LeaveMer, Talks, Send;
    if tries > 0 && ActiveChan(l).Some? {
      NothingBringsALimit(e, l, EndInit);
      var l' := Send(e, l, EndInit).0;
      EndInitUnhit(e, l', tries - 1);
    }
  }

  lemma MarkedUnhit(l: Lib, r: Lib)
    requires Unhit(l) && r.sent == l.sent && r.mem == l.mem
    requires ActiveChan(r).Some? ==> ActiveChan(l).Some? && ActiveChan(r).value.vars == ActiveChan(l).value.vars
    ensures Unhit(r)
  {
    hide NoLimit;
    assert forall id: byte :: Drive(r, id) == Drive(l, id);
  }

  /** Initialising with a setup whose table is that of the defaults. */
  lemma BringUpUnhit(e: Env, l: Lib, id: byte, idx: int)
    requires LeaveMer(e) && Unhit(l) && (SetupLoaded(l, idx) ==> l.tab.setups[idx].value == DEFAULTS)
    ensures Unhit(BringUp(e, l, id, idx).0)
  {
    hide Unhit, LeaveMer, Talks, DriveInitialisation;
    var l1 := SetupAxis(e, l, id, idx).0;
    SetUpUnhit(e, l, id, idx);
    var l2 := SelectAxis(e, l1, id).0;
    MarkedUnhit(l1, l2);
    EndInitUnhit(e, l2, ENDINIT_TRIES);
  }

  lemma DefaultsThere(l: Lib)
    requires Unhit(l) && ActiveChan(l).Some?
    ensures ActiveChan(l).value.vars == DEFAULTS
  {
  }

  lemma SetUpUnhit(e: Env, l: Lib, id: byte, idx: int)
    requires Unhit(l) && (SetupLoaded(l, idx) ==> l.tab.setups[idx].value == DEFAULTS)
    ensures Unhit(SetupAxis(e, l, id, idx).0)
  {
    hide Unhit;
    assert DEFAULTS + DEFAULTS == DEFAULTS;
    if SetupAxis(e, l, id, idx).1 { DefaultsThere(l); }
    MarkedUnhit(l, SetupAxis(e, l, id, idx).0);
  }

  lemma ReinitUnhit(e: Env, l: Lib, a: Axis)
    requires LeaveMer(e) && Unhit(l) && Plain(a.cfg) && a.setupIdx < 0 && e.file(a.cfg.file) == map[]
    ensures Unhit(Reinit(e, l, a).0)
  {
    hide Unhit, LeaveMer, Talks, BringUp, ReadAll;
    var (l1, idx) := Hold(e, l, a);
    assert DEFAULTS + map[] == DEFAULTS;
    MarkedUnhit(l, l1);
    if idx >= 0 {
      BringUpUnhit(e, l1, a.cfg.id, idx);
      ReadAllUnhit(e, BringUp(e, l1, a.cfg.id, idx).0, ["MER", "MER_MASK"]);
    }
  }

  lemma SelectUnhit(e: Env, w: World, i: nat)
    requires e.native && Connected(w) && i < |w.axes| && Unhit(w.lib)
    ensures Unhit(Select(e, w, i).0.lib)
  {
    hide Select, Unhit, OneChannel;
    NativeSelect(e, w, i);
    SelectTables(e, w, i);
    MarkedUnhit(w.lib, Select(e, w, i).0.lib);
  }

  lemma HomeUnhit(e: Env, w: World, i: nat, maxVelocity: real, velo: real, acc: real, forwards: bool)
    requires e.native && LeaveMer(e) && Connected(w) && i < |w.axes| && Unhit(w.lib)
    ensures Unhit(Home(e, w, i, maxVelocity, velo, acc, forwards).0.lib)
  {
    hide Unhit, LeaveMer, Select, SwitchOn, LaunchHome, Connected, Powered, HomingStarted;
    var w1 := Select(e, w, i).0;
    SelectUnhit(e, w, i);
    SelectKeepsConnected(e, w, i);
    NativeSelect(e, w, i);
    SelectUnhit(e, w1, i);
    SwitchOnUnhit(e, Select(e, w1, i).0.lib);
    var l := Ready(e, w, i).0.lib;
    assert Unhit(l);
    LaunchHomeUnhit(e, l, HomeMove(maxVelocity, velo, acc, forwards), forwards);
  }

  lemma PollUnhit(e: Env, w: World, i: nat)
    requires e.native && LeaveMer(e) && Connected(w) && i < |w.axes| && !w.axes[i].needsReinit && Unhit(w.lib)
    ensures Unhit(Poll(e, w, i).0.lib)
  {
    hide Unhit, LeaveMer, Select, ReadStatus, ZeroAtHome, Connected, Observed, Reached, Talks, SelectLost;
    NotFlagged(e, w, i);
    SelectUnhit(e, w, i);
    SelectKeepsConnected(e, w, i);
    var w2 := Select(e, w, i).0;
    StatusUnhit(e, w2.lib, w2.axes[i].polls);
    var (l, r) := ReadStatus(e, w2.lib, w2.axes[i].polls);
    var w3 := Talked(w2, i, l, Observed(w2.axes[i], r));
    StillConnected(w2, i, l, Observed(w2.axes[i], r));
    ZeroUnhit(e, w3, i);
  }

  lemma ZeroUnhit(e: Env, w: World, i: nat)
    requires e.native && LeaveMer(e) && Connected(w) && i < |w.axes| && Unhit(w.lib)
    ensures Unhit(ZeroAtHome(e, w, i).lib)
  {
    hide Unhit, LeaveMer, Select, Send, Talks, ClearLimitSwitchEvent, Connected, AtHome;
    SelectUnhit(e, w, i);
    var l := Select(e, w, i).0.lib;
    NothingBringsALimit(e, l, Sap(0));
    DisarmUnhit(e, Send(e, l, Sap(0)).0);
  }

  // ----- The drive of the run -----

  const STOPS_AT := 1000

  /** Powered and moving up to some point; powered and at rest from then on. */
  function Answer(t: nat): Reply { Reply(true, 0, if t < STOPS_AT then 0x8000 else 0x8400, 0) }

  function Blind(): Env {
    Env(true, 0, (t: nat) => 0.0, Answer, (path: string) => map[], (id: byte, at: word) => at == DEFAULTS["SRL"],
        (t: nat) => map[], (id: byte) => DEFAULTS["MER_MASK"])
  }

  lemma BlindShows()
    ensures Shows(Blind()) && Acked(Blind()) && LeaveMer(Blind())
  {
    Bits();
    assert NoLimit(0);
    assert forall t: nat :: Answer(t).ok && AxisIsOn(Answer(t).val);
  }

  // ----- A home under way -----

  /** An initialised axis that homes, here seen to move or not. */
  ghost predicate Homebound(w: World, seen: bool) {
    && Connected(w) && w.fd >= 0 && |w.axes| == 1
    && w.axes[0].configured && !w.axes[0].needsReinit && Sane(M(w.axes[0]))
    && w.axes[0].motion.homing && (seen ==> w.axes[0].motion.moveSeen)
  }

  lemma LaterHomebound(w: World, seen: bool)
    requires Homebound(w, seen)
    ensures Homebound(Later(w), seen)
  {
    hide M, Sane;
    SameChannelsKeepsOne(w.lib, Tick(w.lib), w.fd);
  }

  lemma NotFlagged(e: Env, w: World, i: nat)
    requires i < |w.axes| && !w.axes[i].needsReinit
    ensures PollReinit(e, w, i) == (w, true)
  {
  }

  lemma Bits()
    ensures !MotionComplete(0x8000) && AxisIsOn(0x8000) && MotionComplete(0x8400) && AxisIsOn(0x8400)
  {
  }

  /** What publishing a reading makes of an axis that homes. */
  lemma ObservedHome(a: Axis, r: Readings)
    requires r.ok && Sane(M(a)) && a.motion.homing
    ensures
      var b := Observed(a, r);
      && b.configured == a.configured && b.needsReinit == a.needsReinit && Sane(M(b)) && b.motion.homing
      && (a.motion.moveSeen || r.srl == 0x8000 ==> b.motion.moveSeen)
      && (Reached(b.motion, r.mer)
          <==> MotionComplete(r.srl) && (a.motion.moveSeen || LimitBit(r.mer, a.motion.towardLsp)))
  {
    hide MotionComplete, AxisIsOn, LimitBit, AtHomeSwitch;
    Bits();
    SeenReached(a.motion, r.srl, r.mer);
  }

  /** What the registers say, read one after the other from l on. */
  lemma BlindReadings(w: World)
    requires Homebound(w, false) && Known(w.lib)
    ensures
      var w2 := Select(Blind(), w, 0).0;
      var (l, r) := ReadStatus(Blind(), w2.lib, w2.axes[0].polls);
      && w2 == w.(lib := w2.lib) && Select(Blind(), w, 0).1 && Connected(w2) && Talks(w2.lib, l)
      && r.ok && w.lib.t < l.t
      && (w.lib.t >= STOPS_AT ==> r.srl == 0x8400) && (w.lib.t + 10 < STOPS_AT ==> r.srl == 0x8000)
      && (r.srl == 0x8000 || r.srl == 0x8400)
  {
    hide Select, ReadStatus, Connected, M, Sane, Known, Talks, Shows;
    BlindShows();
    SelectKnown(Blind(), w, 0);
    NativeSelectTime(Blind(), w, 0);
    SelectKeepsConnected(Blind(), w, 0);
    var w2 := Select(Blind(), w, 0).0;
    ShownStatus(Blind(), w2.lib, w2.axes[0].polls);
  }

  /** One poll of it. Once it is at rest and has been seen to move, it comes to be shown as
      homed. */
  lemma BlindPoll(w: World, seen: bool)
    requires Homebound(w, seen) && Known(w.lib)
    ensures
      var x := Poll(Blind(), w, 0).0;
      && (w.lib.t >= STOPS_AT && seen ==> Raised(w, x, 0))
      && (Raised(w, x, 0) || (w.lib.t < x.lib.t && Homebound(x, seen)))
      && (w.lib.t + 10 < STOPS_AT ==> Homebound(x, true))
  {
    hide Select, ReadStatus, ZeroAtHome, Raised, Connected, M, Sane, Known, Observed, Reached, Talks, MotionComplete,
      LimitBit, PollReinit;
    var e := Blind();
    BlindReadings(w);
    Bits();
    NotFlagged(e, w, 0);
    PollRaisesIff(e, w, 0);
    var w2 := Select(e, w, 0).0;
    var (l, r) := ReadStatus(e, w2.lib, w2.axes[0].polls);
    ObservedHome(w2.axes[0], r);
    if !Raised(w, Poll(e, w, 0).0, 0) { StillConnected(w2, 0, l, Observed(w2.axes[0], r)); }
  }

  lemma StillConnected(w: World, i: nat, l: Lib, a: Axis)
    requires Connected(w) && i < |w.axes| && Talks(w.lib, l)
    ensures Connected(Talked(w, i, l, a))
  {
    SameChannelsKeepsOne(w.lib, l, w.fd);
  }

  // ----- The run -----

  ghost predicate Underway(w: World, seen: bool) { Homebound(w, seen) && Unhit(w.lib) }

  lemma UnhitKnown(w: World)
    requires Connected(w) && w.fd >= 0 && Unhit(w.lib)
    ensures Known(w.lib)
  {
    OneChannelIsInOrder(w.lib, w.fd);
  }

  lemma LaterUnhit(w: World)
    requires Unhit(w.lib)
    ensures Unhit(Later(w).lib)
  {
    hide Unhit;
    MarkedUnhit(w.lib, Tick(w.lib));
  }

  /** The poll as a step of the run. */
  lemma BlindNext(v: World, seen: bool)
    requires Underway(v, seen)
    ensures
      var x := Next(Blind(), v, DoPoll(0));
      && NoLimitRead(x.lib)
      && (v.lib.t >= STOPS_AT && seen ==> Raised(Later(v), x, 0))
      && (Raised(Later(v), x, 0) || (v.lib.t < x.lib.t && Underway(x, seen)))
      && (v.lib.t + 11 < STOPS_AT ==> Underway(x, true))
  {
    hide Poll, Raised, Known, M, Sane, Connected, Unhit, Shows, LeaveMer;
    var w := Later(v);
    BlindShows();
    LaterHomebound(v, seen);
    LaterUnhit(v);
    UnhitKnown(w);
    BlindPoll(w, seen);
    PollUnhit(Blind(), w, 0);
    PollIsStep(Blind(), w, 0);
    UnhitTells(Poll(Blind(), w, 0).0.lib);
  }

  lemma UnhitTells(l: Lib)
    requires Unhit(l)
    ensures NoLimitRead(l)
  {
  }

  function Start(): World { Boot(Blind(), 1, map[]) }

  /** From a home seen to move, polls alone come to show the axis as homed. */
  lemma {:induction false} PollsHome(cs: seq<Cmd>) returns (all: seq<Cmd>)
    requires Underway(Run(Blind(), Start(), cs), true)
    ensures
      var v := Run(Blind(), Start(), all);
      var x := Next(Blind(), v, DoPoll(0));
      |v.axes| == 1 && Raised(Later(v), x, 0) && NoLimitRead(x.lib)
    decreases STOPS_AT - Run(Blind(), Start(), cs).lib.t
  {
    hide Start, Next, Raised, Underway, NoLimitRead;
    var v := Run(Blind(), Start(), cs);
    BlindNext(v, true);
    UnderwayHas(v, true);
    if Raised(Later(v), Next(Blind(), v, DoPoll(0)), 0) { all := cs; }
    else {
      OneMore(Blind(), Start(), cs, DoPoll(0));
      all := PollsHome(cs + [DoPoll(0)]);
    }
  }

  lemma UnderwayHas(w: World, seen: bool)
    requires Underway(w, seen)
    ensures |w.axes| == 1
  {
  }

  lemma BlindBoot()
    ensures
      var w := Start();
      && Connected(w) && w.fd >= 0 && w.axes == [NEW_AXIS] && w.lib.t <= 3
      && FreeSlot(w.lib.tab.setups, 0).Some? && Unhit(w.lib)
  {
    BootConnected(Blind(), 1, map[]);
    assert NoLimit(0);
    assert FreeSlot(EmptyLib(map[]).tab.chans, 0) == Some(0);
  }

  lemma BlindConfigure(w: World)
    requires Connected(w) && w.fd >= 0 && w.axes == [NEW_AXIS] && FreeSlot(w.lib.tab.setups, 0).Some? && Unhit(w.lib)
    ensures
      var x := Configure(Blind(), w, 0, PLAIN);
      && Connected(x) && x.fd == w.fd && |x.axes| == 1 && x.lib.t <= w.lib.t + 8 && Unhit(x.lib)
      && x.axes[0].configured && !x.axes[0].needsReinit && x.axes[0].motion == NEW_AXIS.motion
  {
    hide Reinit, Configured, FirstTried, AwaitingChannel, Connected, M, Unhit, Shows, LeaveMer;
    BlindShows();
    var e, a := Blind(), Configured(NEW_AXIS, PLAIN);
    var l := SelectChannel(e, w.lib, w.fd).0;
    ConfigureKeepsConnected(e, w, 0, PLAIN);
    ConfigureOutcome(e, w, 0, PLAIN);
    SelectedChannel(e, w);
    MarkedUnhit(w.lib, l);
    ConfiguredAxis(NEW_AXIS, PLAIN, -1, true);
    PlainReinitTime(e, l, a);
    ReinitUnhit(e, l, a);
    AckedReinitSucceeds(e, l, a);
    ConfiguredAxis(NEW_AXIS, PLAIN, Reinit(e, l, a).1.setupIdx, true);
    SameMotions(w.axes[0], Configure(e, w, 0, PLAIN).axes[0]);
  }

  lemma BlindHome(v: World)
    requires Connected(v) && v.fd >= 0 && |v.axes| == 1 && v.axes[0].configured && !v.axes[0].needsReinit
    requires Sane(M(v.axes[0])) && Unhit(v.lib)
    ensures
      var x := Next(Blind(), v, HomeOf(0));
      Underway(x, false) && x.lib.t <= v.lib.t + 18
  {
    hide Known, Connected, M, Sane, Home, HomeOutcome, SameIdentity, Unhit, Shows, LeaveMer;
    var e, w := Blind(), Later(v);
    BlindShows();
    LaterConnected(v);
    LaterUnhit(v);
    UnhitKnown(w);
    ShownHome(e, w, 0);
    HomeUnhit(e, w, 0, 10.0, 0.0, 1.0, true);
    HomeIsNext(e, v, 0);
    NativeLeavesAlone(e, v, HomeOf(0), 0);
    StepSane(e, w, HomeOf(0), 0);
    HomesNow(w, Next(e, v, HomeOf(0)));
  }

  lemma HomesNow(w: World, x: World)
    requires HomeOutcome(w, x, 0, true, true)
    ensures |x.axes| == |w.axes| > 0 && x.axes[0].motion.homing && x.axes[0].configured == w.axes[0].configured
  {
  }

  /** There is a run, over drives that answer everything, in which an axis is configured, homes
      and comes to be shown as homed while no read of MER has ever shown a limit switch: evidence
      of motion is all it takes. */
  lemma HomedWithoutASwitch() returns (e: Env, cs: seq<Cmd>)
    ensures Acked(e) && LeaveMer(e)
    ensures
      var v := Run(e, Boot(e, 1, map[]), cs);
      var x := Next(e, v, DoPoll(0));
      |v.axes| == 1 && Raised(Later(v), x, 0) && NoLimitRead(x.lib)
  {
    hide Start, Configure, Raised, Known, Sane, M, Connected, Underway, Unhit, Next, Shows, LeaveMer;
    BlindShows();
    e := Blind();
    BlindBoot();
    LaterConnected(Start());
    LaterUnhit(Start());
    BlindConfigure(Later(Start()));
    ConfigureIsNext(e, Start(), 0, PLAIN);
    var first := [DoConfigure(0, PLAIN)];
    OneStepRun(e, Start(), first[0]);
    NewIsSane(Run(e, Start(), first).axes[0]);
    BlindHome(Run(e, Start(), first));
    OneMore(e, Start(), first, HomeOf(0));
    BlindNext(Run(e, Start(), first + [HomeOf(0)]), false);
    OneMore(e, Start(), first + [HomeOf(0)], DoPoll(0));
    cs := PollsHome(first + [HomeOf(0)] + [DoPoll(0)]);
    StartIs();
  }

  lemma StartIs()
    ensures Start() == Boot(Blind(), 1, map[])
  {
  }

  lemma NewIsSane(a: Axis)
    requires a.motion == NEW_AXIS.motion
    ensures Sane(M(a))
  {
  }
}
