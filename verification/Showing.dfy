/** Drives that answer everything: what the calls then find, and how many interactions they
    take. */
module Showing {
  import opened Codec
  import opened Masks
  import opened TmlLib
  import opened Supervisor
  import opened Channels
  import opened Initialising
  import opened AxisEffects
  import opened Lifting
  import opened Connection
  import opened AxisMotion
  import opened AxisOutcomes
  import opened MaskRegister
  import opened Coupling
  import opened Maps

  /** Every call is acknowledged; the one register a drive changes by itself is SRL, which always
      has the axis powered; and no setup file has SRL anywhere else. */
  ghost predicate Shows(e: Env) {
    && Acked(e) && (forall id: byte, at: word :: e.live(id, at) <==> at == DEFAULTS["SRL"])
    && (forall t: nat :: AxisIsOn(e.reply(t).val))
    && forall path: string :: "SRL" in e.file(path) ==> e.file(path)["SRL"] == DEFAULTS["SRL"]
  }

  // ----- How long the calls take, in interactions -----

  lemma {:induction false} TrySelectTime(e: Env, l: Lib, fd: int, tries: nat)
    ensures TrySelect(e, l, fd, tries).0.t <= l.t + tries
    decreases tries
  {
    if tries > 0 && !SelectChannel(e, l, fd).1 { TrySelectTime(e, SelectChannel(e, l, fd).0, fd, tries - 1); }
  }

  lemma NativeSelectTime(e: Env, w: World, i: nat)
    requires e.native && Connected(w) && w.fd >= 0 && i < |w.axes|
    ensures w.lib.t <= Select(e, w, i).0.lib.t <= w.lib.t + 4
  {
    hide Reconnect, OneChannel;
    TrySelectTime(e, w.lib, w.fd, SELECT_TRIES);
    if w.axes[i].configured { TrySelectStays(e, w.lib, w.fd, SELECT_TRIES); }
  }

  lemma {:induction false} ReadAllTime(e: Env, l: Lib, names: seq<string>)
    ensures ReadAll(e, l, names).t <= l.t + |names|
    decreases |names|
  {
    hide Talks;
    if names != [] { ReadAllTime(e, GetVar(e, l, names[0]).0, names[1..]); }
  }

  lemma {:induction false} EndInitTime(e: Env, l: Lib, tries: nat)
    ensures DriveInitialisation(e, l, tries).0.t <= l.t + tries
    decreases tries
  {
    hide Talks;
    if tries > 0 && ActiveChan(l).Some? { EndInitTime(e, Send(e, l, EndInit).0, tries - 1); }
  }

  lemma BringUpTime(e: Env, l: Lib, id: byte, idx: int)
    ensures BringUp(e, l, id, idx).0.t <= l.t + 5
  {
    hide DriveInitialisation, Talks;
    EndInitTime(e, SelectAxis(e, SetupAxis(e, l, id, idx).0, id).0, ENDINIT_TRIES);
  }

  predicate Plain(c: Config) { c.scr == 0 && !c.ignoreLsp && !c.ignoreLsn }

  lemma PlainReinitTime(e: Env, l: Lib, a: Axis)
    requires Plain(a.cfg)
    ensures Reinit(e, l, a).0.t <= l.t + 7
  {
    hide ReadAll, BringUp, Talks, LoadSetup;
    var (l1, idx) := Hold(e, l, a);
    if idx >= 0 {
      BringUpTime(e, l1, a.cfg.id, idx);
      ReadAllTime(e, BringUp(e, l1, a.cfg.id, idx).0, ["MER", "MER_MASK"]);
    }
  }

  lemma ClearTime(e: Env, l: Lib)
    ensures ClearLimitSwitchEvent(e, l).t <= l.t + 4
  {
    hide Talks, Cleared;
  }

  lemma LaunchHomeTime(e: Env, l: Lib, op: Op, forwards: bool)
    ensures LaunchHome(e, l, op, forwards).0.t <= l.t + 7
  {
    hide ClearLimitSwitchEvent, Talks, Armed;
    ClearTime(e, l);
  }

  // ----- What the calls find -----

  predicate Standard(vars: VarMap) { "SRL" in vars && vars["SRL"] == DEFAULTS["SRL"] && Complete(vars) }

  /** There is an active channel, whose map has every name of the defaults, and SRL in its place. */
  ghost predicate Known(l: Lib) { ActiveChan(l).Some? && Standard(ActiveChan(l).value.vars) }

  lemma StandardHandedOn(e: Env)
    requires Shows(e)
    ensures HandedOn(e, Standard)
  {
    assert "SRL" in DEFAULTS;
    forall path ensures Standard(DEFAULTS + e.file(path)) { DefaultsComplete(e.file(path)); }
  }

  lemma KnownInRuns(e: Env, n: nat, mem: map<byte, Mem>, cs: seq<Cmd>)
    requires Shows(e) && Run(e, Boot(e, n, mem), cs).fd >= 0
    ensures Known(Run(e, Boot(e, n, mem), cs).lib) && Known(Later(Run(e, Boot(e, n, mem), cs)).lib)
  {
    hide Run, Boot, Standard, HandedOn, Shows;
    AlwaysConnected(e, n, mem, cs);
    OneChannelIsInOrder(Run(e, Boot(e, n, mem), cs).lib, Run(e, Boot(e, n, mem), cs).fd);
    StandardHandedOn(e);
    MapsInRuns(e, Standard, n, mem, cs);
  }

  lemma TalkKnown(l: Lib, r: Lib)
    requires Talks(l, r) && Known(l)
    ensures Known(r) && ActiveChan(l).Some?
  {
  }

  /** A read goes through; that of SRL brings what the drive shows at that moment. */
  lemma ShownRead(e: Env, l: Lib, name: string)
    requires Shows(e) && Known(l) && name in DEFAULTS
    ensures
      var (r, ok, val) := GetVar(e, l, name);
      ok && r.t == l.t + 1 && Known(r) && (name == "SRL" ==> val == e.reply(l.t).val)
  {
    hide Talks;
    TalkKnown(l, GetVar(e, l, name).0);
  }

  lemma ShownStatus(e: Env, l: Lib, polls: nat)
    requires Shows(e) && Known(l)
    ensures
      var (r, s) := ReadStatus(e, l, polls);
      s.ok && s.srl == e.reply(l.t + 2).val && r.t >= l.t + 4
  {
    hide Talks, GetVar, ReadAll, Faulty, Known, Shows;
    ShownRead(e, l, "TPOS");
    var l1 := GetVar(e, l, "TPOS").0;
    ShownRead(e, l1, "APOS");
    var l2 := GetVar(e, l1, "APOS").0;
    ShownRead(e, l2, "SRL");
    var l3 := GetVar(e, l2, "SRL").0;
    ShownRead(e, l3, "MER");
    TalksKeeps(GetVar(e, l3, "MER").0, ReadStatus(e, l, polls).0);
  }

  lemma SelectKnown(e: Env, w: World, i: nat)
    requires e.native && Connected(w) && w.fd >= 0 && i < |w.axes| && w.axes[i].configured && Known(w.lib)
    ensures
      var (r, ok) := Select(e, w, i);
      ok && Known(r.lib) && r == w.(lib := r.lib)
  {
    hide Select, OneChannel, Standard;
    NativeSelect(e, w, i);
    SelectTables(e, w, i);
  }

  // ----- Steps of runs -----

  lemma SelectedChannel(e: Env, w: World)
    requires Connected(w) && w.fd >= 0
    ensures
      var l := SelectChannel(e, w.lib, w.fd).0;
      l.tab == w.lib.tab && ActiveChan(l).Some? && l.t <= w.lib.t + 1
  {
    SelectTheOne(e, w.lib, w.fd);
  }

  lemma LaterConnected(w: World)
    requires Connected(w)
    ensures Connected(Later(w))
  {
    SameChannelsKeepsOne(w.lib, Tick(w.lib), w.fd);
  }

  lemma OneMore(e: Env, w0: World, cs: seq<Cmd>, c: Cmd)
    ensures Run(e, w0, cs + [c]) == Next(e, Run(e, w0, cs), c)
  {
    hide Next;
    assert (cs + [c])[..|cs|] == cs;
  }

  lemma ConfigureIsNext(e: Env, w: World, i: nat, c: Config)
    requires i < |w.axes|
    ensures Next(e, w, DoConfigure(i, c)) == Configure(e, Later(w), i, c)
  {
    hide Configure;
  }

  lemma HomeIsNext(e: Env, w: World, i: nat)
    requires i < |w.axes|
    ensures Next(e, w, HomeOf(i)) == Home(e, Later(w), i, 10.0, 0.0, 1.0, true).0
    ensures Step(e, Later(w), HomeOf(i)) == Home(e, Later(w), i, 10.0, 0.0, 1.0, true)
  {
    hide Home;
  }

  // ----- A home goes through -----

  lemma ShownPower(e: Env, w: World, i: nat)
    requires Shows(e) && Connected(w) && w.fd >= 0 && i < |w.axes| && w.axes[i].configured && Known(w.lib)
    ensures PowerOn(e, w, i).1 && PowerOn(e, w, i).0.lib.t <= w.lib.t + 6
  {
    hide Select, GetVar, Talks, Known, Connected, Powered, AxisIsOn;
    SelectKnown(e, w, i);
    NativeSelectTime(e, w, i);
    var l := Select(e, w, i).0.lib;
    var l' := Send(e, l, AxisOn).0;
    TalkKnown(l, l');
    ShownRead(e, l', "SRL");
  }

  lemma ShownReady(e: Env, w: World, i: nat)
    requires Shows(e) && Connected(w) && w.fd >= 0 && i < |w.axes| && w.axes[i].configured && Known(w.lib)
    ensures Ready(e, w, i).1 && Ready(e, w, i).0.lib.t <= w.lib.t + 10
    ensures ActiveChan(Ready(e, w, i).0.lib).Some?
  {
    hide Select, PowerOn, Known, Connected, Quiet;
    SelectKnown(e, w, i);
    NativeSelectTime(e, w, i);
    SelectKeepsConnected(e, w, i);
    ShownPower(e, Select(e, w, i).0, i);
    ReadyQuiet(e, w, i);
  }

  lemma ShownLaunch(e: Env, l: Lib, op: Op)
    requires Shows(e) && ActiveChan(l).Some?
    ensures LaunchHome(e, l, op, true).1
  {
    hide ClearLimitSwitchEvent, Fetch, Talks, Armed;
    var l1 := ClearLimitSwitchEvent(e, l);
    StillActive(l, l1);
    var l2 := Send(e, l1, op).0;
    StillActive(l1, l2);
    StillActive(l2, Fetch(e, l2, "MER_MASK").0);
  }

  const PLAIN := Config(0, "", true, false, false, 0)

  /** The home in the runs looked at: towards the positive limit. */
  function HomeOf(i: nat): Cmd { DoHome(i, 10.0, 0.0, 1.0, true) }

  lemma ShownHome(e: Env, w: World, i: nat)
    requires Shows(e) && Connected(w) && w.fd >= 0 && i < |w.axes| && w.axes[i].configured && Known(w.lib)
    ensures
      var (x, ok) := Home(e, w, i, 10.0, 0.0, 1.0, true);
      ok && HomeOutcome(w, x, i, true, true) && x.lib.t <= w.lib.t + 17
  {
    hide Known, Connected, Ready, LaunchHome, HomingStarted, Quiet, SameIdentity, HomeOutcome, Shows;
    ShownReady(e, w, i);
    var w2 := Ready(e, w, i).0;
    var op := HomeMove(10.0, 0.0, 1.0, true);
    LaunchHomeTime(e, w2.lib, op, true);
    ShownLaunch(e, w2.lib, op);
    HomeHomes(e, w, i, 10.0, 0.0, 1.0, true);
  }
}
