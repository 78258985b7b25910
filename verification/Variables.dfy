/** Which address a variable name stands for: the channel's map is what the setups given to
    the axes have made of it, one after the other. */
module Variables {
  import opened Codec
  import opened TmlLib
  import opened Supervisor
  import opened Channels
  import opened Initialising
  import opened Lifting
  import opened Connection
  import opened Epoch

  /** Later setups override earlier ones. */
  function Fold(start: VarMap, setups: seq<VarMap>): VarMap
    decreases |setups|
  {
    if setups == [] then start else Fold(start, setups[..|setups| - 1]) + setups[|setups| - 1]
  }

  lemma {:induction false} KnownOnceGiven(start: VarMap, setups: seq<VarMap>, name: string)
    ensures name in Fold(start, setups) <==> name in start || exists k :: 0 <= k < |setups| && name in setups[k]
    decreases |setups|
  {
    if setups != [] {
      var rest, last := setups[..|setups| - 1], setups[|setups| - 1];
      KnownOnceGiven(start, rest, name);
      assert forall k :: 0 <= k < |rest| ==> rest[k] == setups[k];
    }
  }

  lemma LastOver(start: VarMap, setups: seq<VarMap>)
    requires setups != []
    ensures Fold(start, setups) == Fold(start, setups[..|setups| - 1]) + setups[|setups| - 1]
  {
  }

  /** A name of setup p stands for setup p's address at all times after it was given, exactly
      if no setup given later has a different address for it. */
  lemma {:induction false} CorrectUntilOverridden(start: VarMap, setups: seq<VarMap>, p: nat, name: string)
    requires p < |setups| && name in setups[p]
    ensures forall m :: p < m <= |setups| ==> name in Fold(start, setups[..m])
    ensures (forall m :: p < m <= |setups| ==> Fold(start, setups[..m])[name] == setups[p][name])
       <==> (forall q :: p < q < |setups| && name in setups[q] ==> setups[q][name] == setups[p][name])
    decreases |setups|
  {
    hide Fold;
    var n := |setups| - 1;
    assert setups[..|setups|] == setups;
    LastOver(start, setups);
    forall m | p < m <= |setups| ensures name in Fold(start, setups[..m]) {
      KnownOnceGiven(start, setups[..m], name);
      assert name in setups[..m][p];
    }
    if p == n {
    } else {
      var rest := setups[..n];
      CorrectUntilOverridden(start, rest, p, name);
      assert forall m :: 0 <= m <= n ==> rest[..m] == setups[..m];
    }
  }

  /** The setup given last that has the name. */
  function LastWith(setups: seq<VarMap>, name: string): (q: nat)
    requires exists k :: 0 <= k < |setups| && name in setups[k]
    ensures q < |setups| && name in setups[q] && forall k :: q < k < |setups| ==> name !in setups[k]
    decreases |setups|
  {
    if name in setups[|setups| - 1] then |setups| - 1 else LastWith(setups[..|setups| - 1], name)
  }

  lemma {:induction false} LastWins(start: VarMap, setups: seq<VarMap>, name: string)
    requires exists k :: 0 <= k < |setups| && name in setups[k]
    ensures name in Fold(start, setups) && Fold(start, setups)[name] == setups[LastWith(setups, name)][name]
    decreases |setups|
  {
    var rest := setups[..|setups| - 1];
    if name !in setups[|setups| - 1] {
      var k :| 0 <= k < |setups| && name in setups[k];
      assert name in rest[k];
      LastWins(start, rest, name);
    }
  }

  // ----- What a setup holds -----

  /** A setup loaded to initialise an axis is its own file over the defaults: a name the file has
      stands for the file's address, any other for its default. */
  lemma FreshSetupIsItsFile(e: Env, l: Lib, a: Axis)
    requires a.setupIdx < 0 && Reinit(e, l, a).1.setupIdx >= 0
    ensures
      var (r, b, _) := Reinit(e, l, a);
      var file := e.file(a.cfg.file);
      && b.setupIdx < |l.tab.setups| && l.tab.setups[b.setupIdx] == None && SetupLoaded(r, b.setupIdx)
      && var m := r.tab.setups[b.setupIdx].value;
         && (forall name :: name in m <==> name in file || name in DEFAULTS)
         && (forall name :: name in m ==> m[name] == if name in file then file[name] else DEFAULTS[name])
  {
    hide Reinit, LoadSetup;
    var (l1, idx) := LoadSetup(e, l, a.cfg.file);
    ReinitSetups(e, l, a);
    Over(DEFAULTS, e.file(a.cfg.file));
    assert l1.tab.setups[idx].value == DEFAULTS + e.file(a.cfg.file);
  }

  lemma ReinitSetups(e: Env, l: Lib, a: Axis)
    ensures
      var (l1, idx) := Hold(e, l, a);
      Reinit(e, l, a).0.tab.setups == l1.tab.setups && Reinit(e, l, a).1.setupIdx == idx
  {
    hide BringUp, AfterEndInit, Talks, LoadSetup;
    var (l1, idx) := Hold(e, l, a);
    BringUpKeepsSetups(e, l1, a.cfg.id, idx);
    var l2 := BringUp(e, l1, a.cfg.id, idx).0;
    TalksKeeps(l2, AfterEndInit(e, l2, a));
  }

  lemma Over(m: VarMap, n: VarMap)
    ensures forall name :: name in m + n <==> name in n || name in m
    ensures forall name :: name in m + n ==> (m + n)[name] == if name in n then n[name] else m[name]
  {
  }

  lemma BringUpKeepsSetups(e: Env, l: Lib, id: byte, idx: int)
    ensures BringUp(e, l, id, idx).0.tab.setups == l.tab.setups
  {
    hide DriveInitialisation, Talks;
    var l2 := SelectAxis(e, SetupAxis(e, l, id, idx).0, id).0;
    TalksKeeps(l2, DriveInitialisation(e, l2, ENDINIT_TRIES).0);
  }

  // ----- In the controller -----

  function SetupAt(l: Lib, idx: int): VarMap { if SetupLoaded(l, idx) then l.tab.setups[idx].value else map[] }

  /** The setups given on the open channel, in order. */
  function Given(l: Lib): seq<VarMap> {
    seq(|l.marks.setupDone|, k requires 0 <= k < |l.marks.setupDone| => SetupAt(l, l.marks.setupDone[k].1))
  }

  ghost predicate GivenLoaded(l: Lib) {
    forall k :: 0 <= k < |l.marks.setupDone| ==> SetupLoaded(l, l.marks.setupDone[k].1)
  }

  ghost predicate Resolves(l: Lib) {
    GivenLoaded(l) && (ActiveChan(l).Some? ==> ActiveChan(l).value.vars == Fold(DEFAULTS, Given(l)))
  }

  ghost predicate SameGiven(l: Lib, r: Lib) {
    && r.marks.setupDone == l.marks.setupDone
    && (forall k :: SetupLoaded(l, k) ==> SetupLoaded(r, k) && SetupAt(r, k) == SetupAt(l, k))
    && (ActiveChan(r).Some? ==> ActiveChan(l).Some? && ActiveChan(r).value.vars == ActiveChan(l).value.vars)
  }

  lemma SameGivenResolves(l: Lib, r: Lib)
    requires Resolves(l) && SameGiven(l, r)
    ensures Resolves(r)
  {
    assert Given(r) == Given(l);
  }

  lemma GivingResolves(e: Env, l: Lib, id: byte, idx: int)
    requires Resolves(l)
    ensures Resolves(SetupAxis(e, l, id, idx).0)
  {
    var (r, ok) := SetupAxis(e, l, id, idx);
    if ok {
      var given := Given(r);
      assert given[..|given| - 1] == Given(l);
      assert given[|given| - 1] == SetupAt(l, idx);
    } else { assert Given(r) == Given(l); }
  }

  lemma BringUpResolves(e: Env, l: Lib, id: byte, idx: int)
    requires Resolves(l)
    ensures Resolves(BringUp(e, l, id, idx).0)
  {
    hide SetupAxis, DriveInitialisation, Resolves, Talks;
    var (l1, ok1) := SetupAxis(e, l, id, idx);
    GivingResolves(e, l, id, idx);
    if ok1 {
      var (l2, ok2) := SelectAxis(e, l1, id);
      SameGivenResolves(l1, l2);
      if ok2 {
        var l3 := DriveInitialisation(e, l2, ENDINIT_TRIES).0;
        TalksKeeps(l2, l3);
        SameGivenResolves(l2, l3);
      }
    }
  }

  lemma ReinitResolves(e: Env, l: Lib, a: Axis)
    requires Resolves(l)
    ensures Resolves(Reinit(e, l, a).0)
  {
    hide BringUp, AfterEndInit, Resolves, Talks, LoadSetup;
    var (l1, idx) := Hold(e, l, a);
    assert SameGiven(l, l1);
    SameGivenResolves(l, l1);
    if idx >= 0 {
      BringUpResolves(e, l1, a.cfg.id, idx);
      var (l2, ok) := BringUp(e, l1, a.cfg.id, idx);
      if ok {
        TalksKeeps(l2, AfterEndInit(e, l2, a));
        SameGivenResolves(l2, AfterEndInit(e, l2, a));
      }
    }
  }

  ghost predicate Resolving(w: World) { Connected(w) && Resolves(w.lib) }

  lemma OpenResolves(e: Env, l: Lib, stamp: real)
    requires Resolves(l)
    ensures Resolves(OpenChannel(e, l, stamp).0)
  {
    var (r, fd) := OpenChannel(e, l, stamp);
    if fd >= 0 { assert Given(r) == []; } else { assert Given(r) == Given(l); }
  }

  lemma CloseResolves(l: Lib, fd: int)
    requires Resolves(l) && OneChannel(l, fd) && fd >= 0
    ensures Resolves(CloseChannel(l, fd))
  {
    assert Given(CloseChannel(l, fd)) == Given(l);
  }

  lemma ReconnectResolves(e: Env, w: World, i: nat, now: real)
    requires Resolving(w) && w.fd >= 0 && i < |w.axes|
    ensures Resolves(Reconnect(e, w, i, now).0.lib)
  {
    hide OpenChannel, CloseChannel, SelectChannel, Reinit, FlagAll, Resolves, OneChannel;
    CloseResolves(w.lib, w.fd);
    OpenResolves(e, CloseChannel(w.lib, w.fd), now);
    Reopened(e, w, now);
    var (l, fd) := OpenChannel(e, CloseChannel(w.lib, w.fd), now);
    SameGivenResolves(l, Tick(l));
    if fd >= 0 {
      SameChannelsKeepsOne(l, Tick(l), fd);
      SelectTheOne(e, Tick(l), fd);
      var l2 := SelectChannel(e, Tick(l), fd).0;
      SameGivenResolves(l, l2);
      SameGivenResolves(l2, StartedOver(l2));
      ReinitResolves(e, StartedOver(l2), w.axes[i].(setupIdx := -1));
    }
  }

  lemma SelectResolves(e: Env, w: World, i: nat)
    requires Resolving(w) && i < |w.axes|
    ensures Resolving(Select(e, w, i).0)
  {
    hide Reconnect, TrySelect, Resolves, OneChannel;
    SelectKeepsConnected(e, w, i);
    if w.axes[i].configured && w.fd >= 0 {
      TrySelectStays(e, w.lib, w.fd, SELECT_TRIES);
      var (l, ok) := TrySelect(e, w.lib, w.fd, SELECT_TRIES);
      SameGivenResolves(w.lib, l);
      SameGivenResolves(w.lib, Tick(l));
      if ok { SameGivenResolves(l, SelectAxis(e, l, w.axes[i].cfg.id).0); }
      else {
        SameChannelsKeepsOne(w.lib, Tick(l), w.fd);
        ReconnectResolves(e, w.(lib := Tick(l)), i, Now(e, l));
      }
    }
  }

  lemma PollResolves(e: Env, w: World, i: nat)
    requires Resolving(w) && i < |w.axes|
    ensures Resolving(PollReinit(e, w, i).0)
  {
    hide Reinit, Resolves, OneChannel;
    PollKeepsConnected(e, w, i);
    if w.fd >= 0 {
      SelectTheOne(e, w.lib, w.fd);
      SameGivenResolves(w.lib, SelectChannel(e, w.lib, w.fd).0);
      ReinitResolves(e, SelectChannel(e, w.lib, w.fd).0, w.axes[i]);
    }
  }

  lemma ConfigureResolves(e: Env, w: World, i: nat, c: Config)
    requires Resolving(w) && i < |w.axes|
    ensures Resolving(Configure(e, w, i, c))
  {
    hide Reinit, Resolves, OneChannel;
    ConfigureKeepsConnected(e, w, i, c);
    if w.fd >= 0 {
      SelectTheOne(e, w.lib, w.fd);
      SameGivenResolves(w.lib, SelectChannel(e, w.lib, w.fd).0);
      ReinitResolves(e, SelectChannel(e, w.lib, w.fd).0, Configured(w.axes[i], c));
    }
  }

  lemma OpeningResolves(e: Env, w: World)
    requires Resolving(w)
    ensures Resolving(EnsureChannel(e, w).0)
  {
    hide FlagAll, OpenChannel, Resolves, OneChannel;
    OpeningKeepsConnected(e, w);
    SameGivenResolves(w.lib, Tick(w.lib));
    OpenResolves(e, Tick(w.lib), Now(e, w.lib));
    var l := OpenChannel(e, Tick(w.lib), Now(e, w.lib)).0;
    SameGivenResolves(l, StartedOver(l));
  }

  lemma TalkResolves(a: World, b: World, i: nat)
    requires Resolving(a) && Calm(a, b, i)
    ensures Resolving(b)
  {
    hide Resolves;
    TalksKeeps(a.lib, b.lib);
    SameGivenResolves(a.lib, b.lib);
    SameChannelsKeepsOne(a.lib, b.lib, a.fd);
  }

  lemma TickResolves(w: World)
    requires Resolving(w)
    ensures Resolving(Later(w))
  {
    hide Resolves;
    SameGivenResolves(w.lib, Tick(w.lib));
    SameChannelsKeepsOne(w.lib, Tick(w.lib), w.fd);
  }

  lemma ResolvingIsKept(e: Env)
    ensures Kept(e, Resolving)
  {
    hide Select, PollReinit, Configure, EnsureChannel, Resolving, Calm;
    forall a: World | Resolving(a) ensures Resolving(Later(a)) { TickResolves(a); }
    forall a, b, i | Resolving(a) && Calm(a, b, i) ensures Resolving(b) { TalkResolves(a, b, i); }
    forall a: World | Resolving(a) ensures Resolving(EnsureChannel(e, a).0) { OpeningResolves(e, a); }
    forall a: World, i | Resolving(a) && 0 <= i < |a.axes| ensures Resolving(Select(e, a, i).0) {
      SelectResolves(e, a, i);
    }
    forall a: World, i | Resolving(a) && 0 <= i < |a.axes| ensures Resolving(PollReinit(e, a, i).0) {
      PollResolves(e, a, i);
    }
    forall a: World, i, c | Resolving(a) && 0 <= i < |a.axes| ensures Resolving(Configure(e, a, i, c)) {
      ConfigureResolves(e, a, i, c);
    }
  }

  lemma BootResolves(e: Env, n: nat, mem: map<byte, Mem>)
    ensures Resolving(Boot(e, n, mem))
  {
    hide OneChannel, OpenChannel;
    BootConnected(e, n, mem);
    var l := EmptyLib(mem);
    assert Resolves(l);
    OpenResolves(e, Tick(l), Now(e, l));
    SameGivenResolves(OpenChannel(e, Tick(l), Now(e, l)).0, Boot(e, n, mem).lib);
  }

  /** In every reachable world the active channel's map is the fold of the setups given on it,
      in the order in which they were given. */
  lemma MapIsFold(e: Env, n: nat, mem: map<byte, Mem>, cs: seq<Cmd>)
    ensures
      var l := Run(e, Boot(e, n, mem), cs).lib;
      ActiveChan(l).Some? ==> ActiveChan(l).value.vars == Fold(DEFAULTS, Given(l))
  {
    hide Kept, Boot, Run;
    BootResolves(e, n, mem);
    ResolvingIsKept(e);
    RunKeeps(e, Resolving, Boot(e, n, mem), cs);
  }

  /** An axis that is neither flagged nor stale has been given its own setup on the open channel;
      the names of that setup then stand for its own addresses, exactly if the setup given last
      that has the name agrees with it. */
  lemma OwnNamesResolve(e: Env, n: nat, mem: map<byte, Mem>, cs: seq<Cmd>, j: nat, name: string)
    requires
      var w := Run(e, Boot(e, n, mem), cs);
      && j < n && w.fd >= 0 && j !in w.stale && w.axes[j].configured && !w.axes[j].needsReinit
      && name in SetupAt(w.lib, w.axes[j].setupIdx)
    ensures
      var w := Run(e, Boot(e, n, mem), cs);
      var own, given := SetupAt(w.lib, w.axes[j].setupIdx), Given(w.lib);
      && (exists p :: 0 <= p < |given| && name in given[p]
                      && w.lib.marks.setupDone[p] == (w.axes[j].cfg.id, w.axes[j].setupIdx))
      && ActiveChan(w.lib).Some? && name in ActiveChan(w.lib).value.vars
      && (ActiveChan(w.lib).value.vars[name] == own[name] <==> given[LastWith(given, name)][name] == own[name])
  {
    hide Boot, Run, Fold;
    var w := Run(e, Boot(e, n, mem), cs);
    AlwaysReady(e, n, mem, cs);
    AlwaysConnected(e, n, mem, cs);
    OneChannelIsInOrder(w.lib, w.fd);
    MapIsFold(e, n, mem, cs);
    assert AxisReady(w.lib, w.axes[j]);
    var p :| 0 <= p < |w.lib.marks.setupDone| && w.lib.marks.setupDone[p] == (w.axes[j].cfg.id, w.axes[j].setupIdx);
    assert name in Given(w.lib)[p];
    LastWins(DEFAULTS, Given(w.lib), name);
  }
}
