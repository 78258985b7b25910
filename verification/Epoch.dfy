/** What an axis that is not waiting for initialisation may rely on. */
module Epoch {
  import opened Codec
  import opened TmlLib
  import opened Supervisor
  import opened Channels
  import opened Initialising
  import opened Lifting
  import opened Connection
  import opened Slots

  /** Since the open channel was opened, the drive with this id has acknowledged an ENDINIT. */
  ghost predicate EndInitHere(l: Lib, id: byte) { EndInitFrom(l, l.marks.since, id) }

  /** The axis holds a setup index that is in use and has been given that setup on the open
      channel, and the drive with its id has taken ENDINIT there. Axes configured with one id
      have one drive. */
  ghost predicate SetUpHere(l: Lib, a: Axis) {
    SetupLoaded(l, a.setupIdx) && (a.cfg.id, a.setupIdx) in l.marks.setupDone && EndInitHere(l, a.cfg.id)
  }

  ghost predicate AxisReady(l: Lib, a: Axis) {
    a.configured && !a.needsReinit ==> SetUpHere(l, a)
  }

  ghost predicate AllReady(w: World) {
    forall j :: 0 <= j < |w.axes| ==> AxisReady(w.lib, w.axes[j])
  }

  /** Every configured axis that is not flagged is set up on the channel now open - unless
      that channel came from a reconnect that was given up half way, and the axis was not
      flagged then and has been neither initialised nor flagged since. */
  ghost predicate Ready(w: World) {
    && w.lib.marks.since <= |w.lib.sent|
    && (w.fd >= 0 ==> forall j :: 0 <= j < |w.axes| && j !in w.stale ==> AxisReady(w.lib, w.axes[j]))
  }

  /** Setups stay loaded and marks stay set. */
  ghost predicate Grows(l: Lib, r: Lib) {
    && (forall k :: SetupLoaded(l, k) ==> SetupLoaded(r, k))
    && l.marks.setupDone <= r.marks.setupDone && r.marks.since == l.marks.since && l.sent <= r.sent
  }

  lemma StaysReady(l: Lib, r: Lib, a: Axis)
    requires Grows(l, r) && AxisReady(l, a)
    ensures AxisReady(r, a)
  {
    hide EndInitFrom;
    if a.configured && !a.needsReinit { EndInitStays(l, r, l.marks.since, l.marks.since, a.cfg.id); }
  }

  lemma InitialisedGrows(l: Lib, r: Lib, a: Axis, a': Axis, ok: bool)
    requires Initialised(l, r, a, a', ok)
    ensures Grows(l, r)
  {
    hide SameChannels, EndInitFrom;
  }

  lemma TalkKeepsReady(a: World, b: World, i: nat)
    requires Ready(a) && Calm(a, b, i)
    ensures Ready(b)
  {
    hide AxisReady;
    TalkGrows(a.lib, b.lib);
    forall j | 0 <= j < |a.axes| && AxisReady(a.lib, a.axes[j]) ensures AxisReady(b.lib, b.axes[j]) {
      StaysReady(a.lib, b.lib, a.axes[j]);
      SameSetupReady(b.lib, a.axes[j], b.axes[j]);
    }
  }

  lemma TalkGrows(l: Lib, r: Lib)
    requires Talks(l, r)
    ensures Grows(l, r)
  {
  }

  lemma SameSetupReady(l: Lib, a: Axis, b: Axis)
    requires AxisReady(l, a) && (b == a || SameSetup(a, b))
    ensures AxisReady(l, b)
  {
    hide EndInitFrom;
  }

  /** The axis that has just been initialised is ready, the others still are. */
  lemma ReinitKeepsReady(e: Env, w: World, l: Lib, i: nat, a: Axis, b: World)
    requires Ready(w) && i < |w.axes| && l.tab.setups == w.lib.tab.setups
    requires l.marks == w.lib.marks && l.sent == w.lib.sent
    requires b == w.(lib := Reinit(e, l, a).0, axes := b.axes, stale := b.stale) && |b.axes| == |w.axes|
    requires forall j :: 0 <= j < |w.axes| && j != i ==> b.axes[j] == w.axes[j] && (j in w.stale ==> j in b.stale)
    requires b.axes[i].cfg.id == a.cfg.id && b.axes[i].setupIdx == Reinit(e, l, a).1.setupIdx
    requires b.axes[i].needsReinit || Reinit(e, l, a).2
    ensures Ready(b)
  {
    hide Reinit, SameChannels, SlotTaken, EndInitFrom;
    ReinitInitialises(e, l, a);
    var (r, a', ok) := Reinit(e, l, a);
    InitialisedGrows(l, r, a, a', ok);
    if ok { EndInitStays(r, r, |l.sent|, l.marks.since, a.cfg.id); }
    if w.fd >= 0 {
      forall j | 0 <= j < |w.axes| && j !in b.stale ensures AxisReady(b.lib, b.axes[j]) {
        if j != i { StaysReady(w.lib, b.lib, w.axes[j]); }
      }
    }
  }

  lemma PollKeepsReady(e: Env, w: World, i: nat)
    requires Ready(w) && i < |w.axes|
    ensures Ready(PollReinit(e, w, i).0)
  {
    hide Reinit, Ready, BackedOff;
    var a := w.axes[i];
    if a.needsReinit && w.fd >= 0 && a.countdown == 0 {
      BackedOffStillFlagged(Reinit(e, SelectChannel(e, w.lib, w.fd).0, a).1);
      ReinitKeepsReady(e, w, SelectChannel(e, w.lib, w.fd).0, i, a, PollReinit(e, w, i).0);
    } else {
      SameButFlagged(w, PollReinit(e, w, i).0, i);
    }
  }

  lemma BackedOffStillFlagged(a: Axis)
    ensures BackedOff(a).cfg.id == a.cfg.id && BackedOff(a).setupIdx == a.setupIdx
    ensures BackedOff(a).needsReinit == a.needsReinit
  {
  }

  /** A step that touches neither the tables nor the marks, and axis i only by flagging it. */
  lemma SameButFlagged(a: World, b: World, i: nat)
    requires Ready(a) && |b.axes| == |a.axes| && i < |a.axes|
    requires b.fd == a.fd && b.lib.tab.setups == a.lib.tab.setups
    requires b.lib.marks == a.lib.marks && b.lib.sent == a.lib.sent
    requires forall j :: 0 <= j < |a.axes| && j != i ==> b.axes[j] == a.axes[j] && (j in a.stale ==> j in b.stale)
    requires (b.axes[i] == a.axes[i] && b.stale == a.stale) || b.axes[i].needsReinit
    ensures Ready(b)
  {
    hide EndInitFrom;
    SinceBehind(a);
    forall j | 0 <= j < |a.axes| && AxisReady(a.lib, a.axes[j]) ensures AxisReady(b.lib, a.axes[j]) {
      StaysReady(a.lib, b.lib, a.axes[j]);
    }
  }

  lemma SinceBehind(w: World)
    requires Ready(w)
    ensures w.lib.marks.since <= |w.lib.sent|
  {
    hide AxisReady;
  }

  lemma ConfigureKeepsReady(e: Env, w: World, i: nat, c: Config)
    requires Ready(w) && i < |w.axes|
    ensures Ready(Configure(e, w, i, c))
  {
    hide Reinit, Ready;
    var a := Configured(w.axes[i], c);
    if w.fd >= 0 { ReinitKeepsReady(e, w, SelectChannel(e, w.lib, w.fd).0, i, a, Configure(e, w, i, c)); }
    else { SameButFlagged(w, Configure(e, w, i, c), i); }
  }

  lemma OpeningKeepsReady(e: Env, w: World)
    requires Ready(w)
    ensures Ready(EnsureChannel(e, w).0)
  {
    hide OpenChannel;
  }

  /** After a reconnect that went through, the axis that made it is set up and all the others
      are flagged; after one given up half way, the axes not flagged before are stale. */
  lemma ReconnectLeavesReady(e: Env, w: World, i: nat, now: real)
    requires i < |w.axes| && w.lib.marks.since <= |w.lib.sent|
    ensures Ready(Reconnect(e, w, i, now).0)
  {
    hide OpenChannel, CloseChannel, SelectChannel, Reinit, SameChannels, SlotTaken, EndInitFrom;
    var (l, fd) := OpenChannel(e, CloseChannel(w.lib, w.fd), now);
    var (l2, ok) := SelectChannel(e, Tick(l), fd);
    ReinitInitialises(e, StartedOver(l2), w.axes[i].(setupIdx := -1));
  }

  lemma SelectKeepsReady(e: Env, w: World, i: nat)
    requires Ready(w) && i < |w.axes|
    ensures Ready(Select(e, w, i).0)
  {
    hide Reconnect, TrySelect, Ready;
    if w.axes[i].configured && w.fd >= 0 {
      var (l, ok) := TrySelect(e, w.lib, w.fd, SELECT_TRIES);
      var r := Select(e, w, i).0;
      if ok || Recent(Now(e, l), w.last, COOLDOWN) { SameButFlagged(w, r, i); }
      else {
        SinceBehind(w);
        ReconnectLeavesReady(e, w.(lib := Tick(l)), i, Now(e, l));
      }
    }
  }

  lemma ReadyIsKept(e: Env)
    ensures Kept(e, Ready)
  {
    hide Select, PollReinit, Configure, EnsureChannel;
    forall a, b, i | Ready(a) && Calm(a, b, i) ensures Ready(b) { TalkKeepsReady(a, b, i); }
    forall a: World | Ready(a) ensures Ready(EnsureChannel(e, a).0) { OpeningKeepsReady(e, a); }
    forall a: World, i | Ready(a) && 0 <= i < |a.axes| ensures Ready(Select(e, a, i).0) { SelectKeepsReady(e, a, i); }
    forall a: World, i | Ready(a) && 0 <= i < |a.axes| ensures Ready(PollReinit(e, a, i).0) { PollKeepsReady(e, a, i); }
    forall a: World, i, c | Ready(a) && 0 <= i < |a.axes| ensures Ready(Configure(e, a, i, c)) {
      ConfigureKeepsReady(e, a, i, c);
    }
  }

  /** In every reachable world, whatever failed on the way, an axis that is neither flagged nor
      stale has been set up on the channel now open. */
  lemma AlwaysReady(e: Env, n: nat, mem: map<byte, Mem>, cs: seq<Cmd>)
    ensures Ready(Run(e, Boot(e, n, mem), cs))
  {
    hide Kept, Boot, Ready;
    BootReady(e, n, mem);
    ReadyIsKept(e);
    RunKeeps(e, Ready, Boot(e, n, mem), cs);
  }

  lemma BootReady(e: Env, n: nat, mem: map<byte, Mem>)
    ensures Ready(Boot(e, n, mem))
  {
    hide OpenChannel;
  }

  // ----- Stale axes -----

  /** What initialising adds to the setups given is this axis's own. */
  lemma ReinitGives(e: Env, l: Lib, a: Axis)
    ensures
      var (r, a', ok) := Reinit(e, l, a);
      forall x :: x in r.marks.setupDone ==>
        x in l.marks.setupDone || (x == (a.cfg.id, a'.setupIdx) && a'.setupIdx >= 0)
  {
    hide AfterEndInit, BringUp, Talks, LoadSetup;
    var (l1, idx) := Hold(e, l, a);
    if idx >= 0 {
      var (l2, ok) := BringUp(e, l1, a.cfg.id, idx);
      BringUpGives(e, l1, a.cfg.id, idx);
      TalksKeeps(l2, AfterEndInit(e, l2, a));
    }
  }

  lemma BringUpGives(e: Env, l: Lib, id: byte, idx: int)
    ensures forall x :: x in BringUp(e, l, id, idx).0.marks.setupDone ==>
      x in l.marks.setupDone || (x == (id, idx) && idx >= 0)
  {
    hide DriveInitialisation, SelectAxis, Talks;
    var l2 := SelectAxis(e, SetupAxis(e, l, id, idx).0, id).0;
    TalksKeeps(l2, DriveInitialisation(e, l2, ENDINIT_TRIES).0);
  }

  predicate NotGiven(l: Lib, a: Axis) {
    a.configured && !a.needsReinit && (a.cfg.id, a.setupIdx) !in l.marks.setupDone
  }

  /** Stale axes take themselves to be initialised, but have not been set up here. */
  ghost predicate StaleNotGiven(w: World) {
    forall j :: j in w.stale ==> j < |w.axes| && NotGiven(w.lib, w.axes[j])
  }

  ghost predicate Honest(w: World) { Conserved(w) && StaleNotGiven(w) }

  lemma SameGivenHonest(a: World, b: World, i: nat)
    requires StaleNotGiven(a) && |b.axes| == |a.axes| && b.lib.marks.setupDone == a.lib.marks.setupDone
    requires b.stale <= a.stale
    requires forall j :: j in b.stale ==> j < |a.axes| && (j != i ==> b.axes[j] == a.axes[j])
    requires i in b.stale ==> i < |a.axes| && SameSetup(a.axes[i], b.axes[i])
    ensures StaleNotGiven(b)
  {
  }

  /** Axis i was given its setup, or at least tried to be; the others hold different ones. */
  lemma GivingHonest(e: Env, w: World, l: Lib, i: nat, a: Axis, b: World)
    requires StaleNotGiven(w) && Conserved(b) && i < |w.axes| && l.marks == w.lib.marks
    requires b == w.(lib := Reinit(e, l, a).0, axes := b.axes, stale := b.stale) && |b.axes| == |w.axes|
    requires b.stale <= w.stale - {i} && b.axes[i].setupIdx == Reinit(e, l, a).1.setupIdx
    requires forall j :: 0 <= j < |w.axes| && j != i ==> b.axes[j] == w.axes[j]
    ensures StaleNotGiven(b)
  {
    hide Reinit, Budget, Opened, Prefix;
    ReinitGives(e, l, a);
    forall j | j in b.stale ensures j < |b.axes| && NotGiven(b.lib, b.axes[j]) {
      assert NotGiven(w.lib, w.axes[j]);
      if b.axes[i].setupIdx >= 0 { DifferentSlots(b, i, j); }
    }
  }

  lemma DifferentSlots(w: World, i: nat, j: nat)
    requires Holdings(w) && i < |w.axes| && j < |w.axes| && i != j && w.axes[i].setupIdx >= 0
    ensures w.axes[i].setupIdx != w.axes[j].setupIdx
  {
  }

  lemma PollHonest(e: Env, w: World, i: nat)
    requires Honest(w) && i < |w.axes|
    ensures Honest(PollReinit(e, w, i).0)
  {
    hide Reinit, Conserved, BackedOff, Restored, CountedDown, Down, StaleNotGiven, SelectChannel;
    PollConserves(e, w, i);
    var a, b := w.axes[i], PollReinit(e, w, i).0;
    if a.needsReinit {
      FlaggedNotStale(w, i);
      StaleExist(w);
      if w.fd >= 0 && a.countdown == 0 {
        SlotsUnchanged(Reinit(e, SelectChannel(e, w.lib, w.fd).0, a).1);
        GivingHonest(e, w, SelectChannel(e, w.lib, w.fd).0, i, a, b);
      } else { SameGivenHonest(w, b, i); }
    }
  }

  lemma SlotsUnchanged(a: Axis)
    ensures BackedOff(a).setupIdx == a.setupIdx && Restored(a).setupIdx == a.setupIdx
  {
  }

  lemma FlaggedNotStale(w: World, i: nat)
    requires StaleNotGiven(w) && i < |w.axes| && w.axes[i].needsReinit
    ensures i !in w.stale
  {
  }

  lemma ConfigureHonest(e: Env, w: World, i: nat, c: Config)
    requires Honest(w) && i < |w.axes|
    ensures Honest(Configure(e, w, i, c))
  {
    hide Reinit, Conserved, StaleNotGiven, SelectChannel, FirstTried, AwaitingChannel;
    ConfigureConserves(e, w, i, c);
    var a, b := Configured(w.axes[i], c), Configure(e, w, i, c);
    StaleExist(w);
    if w.fd >= 0 {
      FirstTriedHolds(Reinit(e, SelectChannel(e, w.lib, w.fd).0, a).1, Reinit(e, SelectChannel(e, w.lib, w.fd).0, a).2);
      GivingHonest(e, w, SelectChannel(e, w.lib, w.fd).0, i, a, b);
    } else { SameGivenHonest(w, b, i); }
  }

  lemma StaleExist(w: World)
    requires StaleNotGiven(w)
    ensures forall j :: j in w.stale ==> j < |w.axes|
  {
  }

  lemma FirstTriedHolds(a: Axis, ok: bool)
    ensures FirstTried(a, ok).setupIdx == a.setupIdx
  {
  }

  lemma ReconnectHonest(e: Env, w: World, i: nat, now: real)
    requires Honest(w) && i < |w.axes| && w.fd >= 0 && w.axes[i].configured
    ensures Honest(Reconnect(e, w, i, now).0)
  {
    hide OpenChannel, CloseChannel, SelectChannel, Reinit, FlagAll, Conserved;
    ReconnectConserves(e, w, i, now);
  }

  lemma SelectHonest(e: Env, w: World, i: nat)
    requires Honest(w) && i < |w.axes|
    ensures Honest(Select(e, w, i).0)
  {
    hide Reconnect, TrySelect, SelectAxis, Conserved, StaleNotGiven;
    SelectConserves(e, w, i);
    if w.axes[i].configured && w.fd >= 0 {
      StaleExist(w);
      var (l, ok) := TrySelect(e, w.lib, w.fd, SELECT_TRIES);
      var r := Select(e, w, i).0;
      if ok || Recent(Now(e, l), w.last, COOLDOWN) { SameGivenHonest(w, r, i); }
      else {
        var w1 := w.(lib := Tick(l));
        SameHoldingsConserve(w, w1);
        SameGivenHonest(w, w1, i);
        ReconnectHonest(e, w1, i, Now(e, l));
      }
    }
  }

  lemma OpeningHonest(e: Env, w: World)
    requires Honest(w)
    ensures Honest(EnsureChannel(e, w).0)
  {
    hide OpenChannel, FlagAll, Conserved;
    OpeningConserves(e, w);
  }

  lemma TalkHonest(a: World, b: World, i: nat)
    requires Honest(a) && Calm(a, b, i)
    ensures Honest(b)
  {
    hide Conserved, StaleNotGiven;
    TalkConserves(a, b, i);
    StaleExist(a);
    SameGivenHonest(a, b, i);
  }

  lemma HonestIsKept(e: Env)
    ensures Kept(e, Honest)
  {
    hide Select, PollReinit, Configure, EnsureChannel, Conserved, Calm;
    forall a: World | Honest(a) ensures Honest(Later(a)) { TickConserves(a); }
    forall a, b, i | Honest(a) && Calm(a, b, i) ensures Honest(b) { TalkHonest(a, b, i); }
    forall a: World | Honest(a) ensures Honest(EnsureChannel(e, a).0) { OpeningHonest(e, a); }
    forall a: World, i | Honest(a) && 0 <= i < |a.axes| ensures Honest(Select(e, a, i).0) { SelectHonest(e, a, i); }
    forall a: World, i | Honest(a) && 0 <= i < |a.axes| ensures Honest(PollReinit(e, a, i).0) { PollHonest(e, a, i); }
    forall a: World, i, c | Honest(a) && 0 <= i < |a.axes| ensures Honest(Configure(e, a, i, c)) {
      ConfigureHonest(e, a, i, c);
    }
  }

  /** In every reachable world with the channel open, a configured axis that is not flagged has
      been set up on that channel exactly if it is not stale. */
  lemma SetUpHereIff(e: Env, n: nat, mem: map<byte, Mem>, cs: seq<Cmd>, j: nat)
    requires
      var w := Run(e, Boot(e, n, mem), cs);
      j < n && w.fd >= 0 && w.axes[j].configured && !w.axes[j].needsReinit
    ensures
      var w := Run(e, Boot(e, n, mem), cs);
      SetUpHere(w.lib, w.axes[j]) <==> j !in w.stale
  {
    hide Kept, Boot, Run, Conserved;
    var w := Run(e, Boot(e, n, mem), cs);
    AlwaysReady(e, n, mem, cs);
    BootConserved(e, n, mem);
    BootHonest(e, n, mem);
    HonestIsKept(e);
    RunKeeps(e, Honest, Boot(e, n, mem), cs);
    if j in w.stale { assert NotGiven(w.lib, w.axes[j]); } else { assert AxisReady(w.lib, w.axes[j]); }
  }

  lemma BootHonest(e: Env, n: nat, mem: map<byte, Mem>)
    ensures StaleNotGiven(Boot(e, n, mem))
  {
    hide OpenChannel, EmptyLib;
  }

  // ----- The reconnect that is given up half way -----

  /** If the channel just opened cannot be selected, the axes are left as they were. They are
      then ready for it exactly when each of them happened to be flagged already. */
  lemma OrphanIsReadyIff(e: Env, w: World, i: nat, now: real)
    requires i < |w.axes|
    requires OpenChannel(e, CloseChannel(w.lib, w.fd), now).1 >= 0
    requires !SelectChannel(e, Tick(OpenChannel(e, CloseChannel(w.lib, w.fd), now).0),
                            OpenChannel(e, CloseChannel(w.lib, w.fd), now).1).1
    ensures
      var r := Reconnect(e, w, i, now).0;
      && r.axes == w.axes && r.fd >= 0
      && (AllReady(r) <==> forall j :: 0 <= j < |w.axes| && w.axes[j].configured ==> w.axes[j].needsReinit)
      && (AllReady(r) <==> r.stale == {})
  {
    hide OpenChannel, CloseChannel, SelectChannel;
    var r := Reconnect(e, w, i, now).0;
    assert r.lib.marks.setupDone == [];
    if AllReady(r) {
      forall j | 0 <= j < |w.axes| && w.axes[j].configured ensures w.axes[j].needsReinit {
        assert AxisReady(r.lib, r.axes[j]);
      }
    }
    if exists j :: 0 <= j < |w.axes| && w.axes[j].configured && !w.axes[j].needsReinit {
      var j: nat :| j < |w.axes| && w.axes[j].configured && !w.axes[j].needsReinit;
      assert j in r.stale;
    }
  }

  // ----- A reconnect by one axis leaves the other drives alone -----

  function SetAside(a: Axis): Axis {
    a.(setupIdx := -1, needsReinit := true, countdown := 0, backoff := 1, activated := false, powered := false,
       active := false, motion := a.motion.(stopping := false))
  }

  /** Nothing is sent to any other axis during a reconnect, ENDINIT least of all; where it
      gets as far as initialising, every other configured axis is flagged to try at its next
      poll with the shortest wait, loses its setup index and is taken to be unpowered. */
  lemma ReconnectSparesTheOthers(e: Env, w: World, i: nat, now: real)
    requires i < |w.axes|
    ensures
      var r := Reconnect(e, w, i, now).0;
      && OnlyTo(w.lib, r.lib, w.axes[i].cfg.id)
      && (forall j :: 0 <= j < |w.axes| && j != i ==>
            r.axes[j] == w.axes[j] || (w.axes[j].configured && r.axes[j] == SetAside(w.axes[j])))
      && (r.lib.marks.resets > w.lib.marks.resets ==>
            forall j :: 0 <= j < |w.axes| && j != i && w.axes[j].configured ==>
              r.axes[j] == SetAside(w.axes[j]))
  {
    hide OpenChannel, CloseChannel, SelectChannel, Reinit, SameChannels, OnlyTo, SlotTaken;
    var id := w.axes[i].cfg.id;
    var (l, fd) := OpenChannel(e, CloseChannel(w.lib, w.fd), now);
    NoCalls(w.lib, Tick(l), id);
    var (l2, ok) := SelectChannel(e, Tick(l), fd);
    NoCalls(w.lib, l2, id);
    var l3 := StartedOver(l2);
    NoCalls(w.lib, l3, id);
    ReinitInitialises(e, l3, w.axes[i].(setupIdx := -1));
    OnlyToOn(w.lib, l3, Reinit(e, l3, w.axes[i].(setupIdx := -1)).0, id);
  }
}
