/** Properties that every map and every setup in the library has, in every run. */
module Maps {
  import opened Codec
  import opened TmlLib
  import opened Supervisor
  import opened Channels
  import opened Initialising
  import opened Lifting
  import opened MaskRegister

  /** p holds of what a channel and a setup start from, and of a map that a setup is put over. */
  ghost predicate HandedOn(e: Env, p: VarMap -> bool) {
    && p(DEFAULTS) && (forall path :: p(DEFAULTS + e.file(path)))
    && forall vars, setup :: p(vars) && p(setup) && Complete(setup) ==> p(vars + setup)
  }

  /** All maps and setups in the library have it, and no setup lacks a name. */
  ghost predicate AllMaps(p: VarMap -> bool, l: Lib) {
    && (forall k :: 0 <= k < |l.tab.chans| && l.tab.chans[k].Some? ==> p(l.tab.chans[k].value.vars))
    && (forall k :: SetupLoaded(l, k) ==> Complete(l.tab.setups[k].value) && p(l.tab.setups[k].value))
  }

  lemma SameTabMaps(p: VarMap -> bool, l: Lib, r: Lib)
    requires AllMaps(p, l) && r.tab == l.tab
    ensures AllMaps(p, r)
  {
    hide Complete;
  }

  lemma OpenMaps(e: Env, p: VarMap -> bool, l: Lib, stamp: real)
    requires AllMaps(p, l) && HandedOn(e, p)
    ensures AllMaps(p, OpenChannel(e, l, stamp).0)
  {
    hide Complete;
  }

  lemma SelectChannelMaps(e: Env, p: VarMap -> bool, l: Lib, fd: int)
    requires AllMaps(p, l)
    ensures AllMaps(p, SelectChannel(e, l, fd).0)
  {
    hide Complete;
  }

  lemma CloseMaps(p: VarMap -> bool, l: Lib, fd: int)
    requires AllMaps(p, l)
    ensures AllMaps(p, CloseChannel(l, fd))
  {
    hide Complete;
  }

  lemma HoldMaps(e: Env, p: VarMap -> bool, l: Lib, a: Axis)
    requires AllMaps(p, l) && HandedOn(e, p)
    ensures AllMaps(p, Hold(e, l, a).0)
  {
    hide Complete;
    DefaultsComplete(e.file(a.cfg.file));
  }

  lemma SetupMaps(e: Env, p: VarMap -> bool, l: Lib, id: byte, idx: int)
    requires AllMaps(p, l) && HandedOn(e, p)
    ensures AllMaps(p, SetupAxis(e, l, id, idx).0)
  {
    hide Complete;
    if SetupAxis(e, l, id, idx).1 { assert p(ActiveChan(l).value.vars + l.tab.setups[idx].value); }
  }

  lemma SelectAxisMaps(e: Env, p: VarMap -> bool, l: Lib, id: byte)
    requires AllMaps(p, l)
    ensures AllMaps(p, SelectAxis(e, l, id).0)
  {
    hide Complete;
  }

  lemma ReinitMaps(e: Env, p: VarMap -> bool, l: Lib, a: Axis)
    requires AllMaps(p, l) && HandedOn(e, p)
    ensures AllMaps(p, Reinit(e, l, a).0)
  {
    hide Hold, SetupAxis, SelectAxis, DriveInitialisation, AfterEndInit, AllMaps, HandedOn, Talks;
    var (l1, idx) := Hold(e, l, a);
    HoldMaps(e, p, l, a);
    if idx >= 0 {
      SetupMaps(e, p, l1, a.cfg.id, idx);
      var l2 := SetupAxis(e, l1, a.cfg.id, idx).0;
      SelectAxisMaps(e, p, l2, a.cfg.id);
      var l3 := SelectAxis(e, l2, a.cfg.id).0;
      var l4 := DriveInitialisation(e, l3, ENDINIT_TRIES).0;
      TalksKeeps(l3, l4);
      SameTabMaps(p, l3, l4);
      TalksKeeps(l4, AfterEndInit(e, l4, a));
      SameTabMaps(p, l4, AfterEndInit(e, l4, a));
    }
  }

  lemma {:induction false} TrySelectMaps(e: Env, p: VarMap -> bool, l: Lib, fd: int, tries: nat)
    requires AllMaps(p, l)
    ensures AllMaps(p, TrySelect(e, l, fd, tries).0)
    decreases tries
  {
    hide SelectChannel, AllMaps;
    if tries > 0 {
      SelectChannelMaps(e, p, l, fd);
      TrySelectMaps(e, p, SelectChannel(e, l, fd).0, fd, tries - 1);
    }
  }

  lemma ReconnectMaps(e: Env, p: VarMap -> bool, w: World, i: nat, now: real)
    requires AllMaps(p, w.lib) && HandedOn(e, p) && i < |w.axes|
    ensures AllMaps(p, Reconnect(e, w, i, now).0.lib)
  {
    hide OpenChannel, CloseChannel, SelectChannel, Reinit, FlagAll, AllMaps, HandedOn, Recovered;
    CloseMaps(p, w.lib, w.fd);
    OpenMaps(e, p, CloseChannel(w.lib, w.fd), now);
    var (l, fd) := OpenChannel(e, CloseChannel(w.lib, w.fd), now);
    SameTabMaps(p, l, Tick(l));
    SelectChannelMaps(e, p, Tick(l), fd);
    var l2 := SelectChannel(e, Tick(l), fd).0;
    SameTabMaps(p, l2, StartedOver(l2));
    ReinitMaps(e, p, StartedOver(l2), w.axes[i].(setupIdx := -1));
  }

  lemma SelectMaps(e: Env, p: VarMap -> bool, w: World, i: nat)
    requires AllMaps(p, w.lib) && HandedOn(e, p) && i < |w.axes|
    ensures AllMaps(p, Select(e, w, i).0.lib)
  {
    hide Reconnect, TrySelect, SelectAxis, AllMaps, HandedOn, Lost;
    if w.axes[i].configured && w.fd >= 0 {
      var (l, ok) := TrySelect(e, w.lib, w.fd, SELECT_TRIES);
      TrySelectMaps(e, p, w.lib, w.fd, SELECT_TRIES);
      SameTabMaps(p, l, Tick(l));
      SelectAxisMaps(e, p, l, w.axes[i].cfg.id);
      ReconnectMaps(e, p, w.(lib := Tick(l)), i, Now(e, l));
    }
  }

  lemma PollMaps(e: Env, p: VarMap -> bool, w: World, i: nat)
    requires AllMaps(p, w.lib) && HandedOn(e, p) && i < |w.axes|
    ensures AllMaps(p, PollReinit(e, w, i).0.lib)
  {
    hide Reinit, SelectChannel, AllMaps, HandedOn, BackedOff, Restored, Down, CountedDown;
    SelectChannelMaps(e, p, w.lib, w.fd);
    ReinitMaps(e, p, SelectChannel(e, w.lib, w.fd).0, w.axes[i]);
  }

  lemma ConfigureMaps(e: Env, p: VarMap -> bool, w: World, i: nat, c: Config)
    requires AllMaps(p, w.lib) && HandedOn(e, p) && i < |w.axes|
    ensures AllMaps(p, Configure(e, w, i, c).lib)
  {
    hide Reinit, SelectChannel, AllMaps, HandedOn, Configured, FirstTried, AwaitingChannel;
    SelectChannelMaps(e, p, w.lib, w.fd);
    ReinitMaps(e, p, SelectChannel(e, w.lib, w.fd).0, Configured(w.axes[i], c));
  }

  lemma OpeningMaps(e: Env, p: VarMap -> bool, w: World)
    requires AllMaps(p, w.lib) && HandedOn(e, p)
    ensures AllMaps(p, EnsureChannel(e, w).0.lib)
  {
    hide OpenChannel, FlagAll, AllMaps, HandedOn;
    SameTabMaps(p, w.lib, Tick(w.lib));
    OpenMaps(e, p, Tick(w.lib), Now(e, w.lib));
    var l := OpenChannel(e, Tick(w.lib), Now(e, w.lib)).0;
    SameTabMaps(p, l, StartedOver(l));
  }

  ghost function MapsOf(p: VarMap -> bool): World -> bool { (w: World) => AllMaps(p, w.lib) }

  lemma MapsAreKept(e: Env, p: VarMap -> bool)
    requires HandedOn(e, p)
    ensures Kept(e, MapsOf(p))
  {
    hide Select, PollReinit, Configure, EnsureChannel, AllMaps, HandedOn, Calm;
    var inv := MapsOf(p);
    forall a: World | inv(a) ensures inv(Later(a)) { SameTabMaps(p, a.lib, Tick(a.lib)); }
    forall a, b, i | inv(a) && Calm(a, b, i) ensures inv(b) { CalmMaps(p, a, b, i); }
    forall a: World | inv(a) ensures inv(EnsureChannel(e, a).0) { OpeningMaps(e, p, a); }
    forall a: World, i | inv(a) && 0 <= i < |a.axes| ensures inv(Select(e, a, i).0) { SelectMaps(e, p, a, i); }
    forall a: World, i | inv(a) && 0 <= i < |a.axes| ensures inv(PollReinit(e, a, i).0) { PollMaps(e, p, a, i); }
    forall a: World, i, c | inv(a) && 0 <= i < |a.axes| ensures inv(Configure(e, a, i, c)) {
      ConfigureMaps(e, p, a, i, c);
    }
  }

  lemma CalmMaps(p: VarMap -> bool, a: World, b: World, i: nat)
    requires AllMaps(p, a.lib) && Calm(a, b, i)
    ensures AllMaps(p, b.lib)
  {
    hide AllMaps;
    TalksKeeps(a.lib, b.lib);
    SameTabMaps(p, a.lib, b.lib);
  }

  lemma BootMaps(e: Env, p: VarMap -> bool, n: nat, mem: map<byte, Mem>)
    requires HandedOn(e, p)
    ensures AllMaps(p, Boot(e, n, mem).lib)
  {
    hide OpenChannel, HandedOn;
    var l := EmptyLib(mem);
    assert AllMaps(p, l);
    SameTabMaps(p, l, Tick(l));
    OpenMaps(e, p, Tick(l), Now(e, l));
    var l' := OpenChannel(e, Tick(l), Now(e, l)).0;
    SameTabMaps(p, l', Tick(l'));
  }

  lemma MapsInRuns(e: Env, p: VarMap -> bool, n: nat, mem: map<byte, Mem>, cs: seq<Cmd>)
    requires HandedOn(e, p)
    ensures AllMaps(p, Run(e, Boot(e, n, mem), cs).lib)
  {
    hide Kept, Boot, Run, HandedOn;
    BootMaps(e, p, n, mem);
    MapsAreKept(e, p);
    RunKeeps(e, MapsOf(p), Boot(e, n, mem), cs);
    assert MapsOf(p)(Run(e, Boot(e, n, mem), cs));
  }
}
