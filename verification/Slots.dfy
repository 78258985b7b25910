/** Setup slots are never given back. How many a run can use up. */
module Slots {
  import opened Codec
  import opened TmlLib
  import opened Supervisor
  import opened Channels
  import opened Initialising
  import opened Lifting

  // ----- Counting -----

  /** Slots in use, as long as they form a prefix. */
  function Used(l: Lib): nat {
    var s := FreeSlot(l.tab.setups, 0);
    if s.Some? then s.value else |l.tab.setups|
  }

  ghost predicate Prefix(l: Lib) {
    forall k :: Used(l) <= k < |l.tab.setups| ==> l.tab.setups[k] == None
  }

  function Count(axes: seq<Axis>, idleOnly: bool): nat {
    if axes == [] then 0
    else
      var a := axes[|axes| - 1];
      Count(axes[..|axes| - 1], idleOnly) + (if a.configured && (idleOnly ==> a.setupIdx < 0) then 1 else 0)
  }

  /** Configured axes; and those of them that hold no slot. */
  function Members(w: World): nat { Count(w.axes, false) }
  function Idle(w: World): nat { Count(w.axes, true) }

  function One(a: Axis, idleOnly: bool): nat { if a.configured && (idleOnly ==> a.setupIdx < 0) then 1 else 0 }

  lemma {:induction false} CountUpdate(axes: seq<Axis>, i: nat, a: Axis, idleOnly: bool)
    requires i < |axes|
    ensures Count(axes[i := a], idleOnly) == Count(axes, idleOnly) - One(axes[i], idleOnly) + One(a, idleOnly)
    decreases |axes|
  {
    var n := |axes| - 1;
    if i < n {
      CountUpdate(axes[..n], i, a, idleOnly);
      assert axes[i := a][..n] == axes[..n][i := a];
    } else {
      assert axes[i := a][..n] == axes[..n];
    }
  }

  lemma {:induction false} CountSame(a: seq<Axis>, b: seq<Axis>, idleOnly: bool)
    requires |a| == |b|
    requires forall j :: 0 <= j < |a| ==>
      a[j].configured == b[j].configured && (a[j].setupIdx < 0) == (b[j].setupIdx < 0)
    ensures Count(a, idleOnly) == Count(b, idleOnly)
    decreases |a|
  {
    if a != [] { CountSame(a[..|a| - 1], b[..|b| - 1], idleOnly); }
  }

  /** With every configured axis flagged, all members are idle. */
  lemma {:induction false} AllIdle(axes: seq<Axis>)
    requires forall j :: 0 <= j < |axes| && axes[j].configured ==> axes[j].setupIdx < 0
    ensures Count(axes, true) == Count(axes, false)
    decreases |axes|
  {
    if axes != [] { AllIdle(axes[..|axes| - 1]); }
  }

  lemma {:induction false} IdleAtMostMembers(axes: seq<Axis>)
    ensures Count(axes, true) <= Count(axes, false)
    decreases |axes|
  {
    if axes != [] { IdleAtMostMembers(axes[..|axes| - 1]); }
  }

  // ----- The invariant -----

  /** Openings that made the axes start over, the first one included. */
  function Rounds(w: World): nat {
    if w.lib.marks.epoch <= w.orphans + 1 then 1 else w.lib.marks.epoch - w.orphans
  }

  /** Only configured axes wait for initialisation or hold slots; slots held are in use, and no
      two axes hold the same. */
  ghost predicate Holdings(w: World) {
    && (forall j :: 0 <= j < |w.axes| && !w.axes[j].configured ==> w.axes[j].setupIdx < 0 && !w.axes[j].needsReinit)
    && (forall j :: 0 <= j < |w.axes| ==> w.axes[j].setupIdx < Used(w.lib))
    && (forall j, k :: 0 <= j < k < |w.axes| && w.axes[j].setupIdx >= 0 ==> w.axes[j].setupIdx != w.axes[k].setupIdx)
  }

  ghost predicate Opened(w: World) {
    && (if w.lib.marks.epoch == 0 then w.orphans == 0 && Used(w.lib) == 0 else w.orphans < w.lib.marks.epoch)
    && (w.fd >= 0 ==> w.lib.marks.epoch > 0) && |w.lib.tab.setups| == MAX_SETUPS
  }

  ghost predicate Budget(w: World) {
    Used(w.lib) + Idle(w) <= Members(w) * Rounds(w)
  }

  ghost predicate Conserved(w: World) {
    Prefix(w.lib) && Holdings(w) && Opened(w) && Budget(w)
  }

  /** The same slots are held by the same axes. */
  ghost predicate SameHoldings(a: World, b: World) {
    && b.lib.tab.setups == a.lib.tab.setups && b.lib.marks.epoch == a.lib.marks.epoch
    && (b.fd == a.fd || b.fd < 0) && b.orphans == a.orphans && |b.axes| == |a.axes|
    && (forall j :: 0 <= j < |a.axes| ==>
       b.axes[j].configured == a.axes[j].configured && b.axes[j].setupIdx == a.axes[j].setupIdx)
    && (forall j :: 0 <= j < |a.axes| && b.axes[j].needsReinit ==> a.axes[j].needsReinit || a.axes[j].configured)
  }

  lemma SameHoldingsConserve(a: World, b: World)
    requires Conserved(a) && SameHoldings(a, b)
    ensures Conserved(b)
  {
    CountSame(a.axes, b.axes, true);
    CountSame(a.axes, b.axes, false);
    assert Used(b.lib) == Used(a.lib);
  }

  lemma TalkConserves(a: World, b: World, i: nat)
    requires Conserved(a) && Calm(a, b, i)
    ensures Conserved(b)
  {
    hide Conserved;
    assert SameHoldings(a, b);
    SameHoldingsConserve(a, b);
  }

  lemma Growth(n: nat, more: int, rounds: nat)
    requires rounds >= 1 && more >= 0
    ensures (n + more) * rounds >= n * rounds + more
  {
    assert (n + more) * rounds == n * rounds + more * rounds;
  }

  lemma TakenUsed(l: Lib, r: Lib, had: int, has: int)
    requires Prefix(l) && SlotTaken(l, r, had, has)
    ensures Prefix(r)
    ensures if had < 0 && has >= 0 then Used(r) == Used(l) + 1 && has == Used(l)
            else Used(r) == Used(l) && (had < 0 ==> has < 0)
  {
    if had < 0 && has >= 0 {
      assert has == Used(l);
      assert forall k :: 0 <= k <= has ==> r.tab.setups[k].Some?;
      assert forall k :: has < k < |r.tab.setups| ==> l.tab.setups[k] == None && r.tab.setups[k] == None;
      var s := FreeSlot(r.tab.setups, 0);
      assert s.Some? ==> r.tab.setups[s.value] == None && s.value > has;
      assert has + 1 < |r.tab.setups| ==> r.tab.setups[has + 1] == None;
    }
  }

  lemma TakingKeepsHoldings(w: World, i: nat, a: Axis, b: World, had: int)
    requires Prefix(w.lib) && Holdings(w) && i < |w.axes| && (had == w.axes[i].setupIdx || had < 0)
    requires SlotTaken(w.lib, b.lib, had, a.setupIdx)
    requires b == w.(lib := b.lib, axes := w.axes[i := a], stale := b.stale) && a.configured
    ensures Prefix(b.lib) && Holdings(b)
  {
    hide SlotTaken, Prefix;
    TakenUsed(w.lib, b.lib, had, a.setupIdx);
    SameOrTaken(w.lib, b.lib, had, a.setupIdx);
  }

  lemma SameOrTaken(l: Lib, r: Lib, had: int, has: int)
    requires SlotTaken(l, r, had, has)
    ensures (had >= 0 ==> has == had) && |r.tab.setups| == |l.tab.setups|
  {
  }

  /** Axis i gives way to a, which may have taken a slot if the axis held none. */
  lemma TakingConserves(w: World, i: nat, a: Axis, b: World)
    requires Conserved(w) && i < |w.axes| && w.fd >= 0
    requires SlotTaken(w.lib, b.lib, w.axes[i].setupIdx, a.setupIdx)
    requires b == w.(lib := b.lib, axes := w.axes[i := a], stale := b.stale)
    requires b.lib.marks.epoch == w.lib.marks.epoch && a.configured
    ensures Conserved(b)
  {
    hide SlotTaken, Holdings, Prefix, Used;
    var had := w.axes[i].setupIdx;
    TakingKeepsHoldings(w, i, a, b, had);
    CountUpdate(w.axes, i, a, true);
    CountUpdate(w.axes, i, a, false);
    Growth(Members(w), One(a, false) - One(w.axes[i], false), Rounds(w));
    TakenUsed(w.lib, b.lib, had, a.setupIdx);
    SameOrTaken(w.lib, b.lib, had, a.setupIdx);
    UnconfiguredHoldNone(w, i);
  }

  lemma UnconfiguredHoldNone(w: World, i: nat)
    requires Holdings(w) && i < |w.axes|
    ensures !w.axes[i].configured ==> w.axes[i].setupIdx < 0 && !w.axes[i].needsReinit
  {
  }

  lemma PollConserves(e: Env, w: World, i: nat)
    requires Conserved(w) && i < |w.axes|
    ensures Conserved(PollReinit(e, w, i).0)
  {
    hide Reinit, Conserved, SlotTaken, SameChannels, OnlyTo;
    var a := w.axes[i];
    assert a.needsReinit ==> a.configured by { ConservedHoldings(w); UnconfiguredHoldNone(w, i); }
    var b := PollReinit(e, w, i).0;
    if a.needsReinit && w.fd >= 0 && a.countdown == 0 {
      var l := SelectChannel(e, w.lib, w.fd).0;
      ReinitInitialises(e, l, a);
      var (r, a', ok) := Reinit(e, l, a);
      SlotsOnly(l, w.lib, r, a.setupIdx, a'.setupIdx);
      TakingConserves(w, i, b.axes[i], b);
    } else {
      SameHoldingsConserve(w, b);
    }
  }

  lemma ConservedHoldings(w: World)
    requires Conserved(w)
    ensures Holdings(w)
  {
  }

  lemma SlotsOnly(l: Lib, m: Lib, r: Lib, had: int, has: int)
    requires SlotTaken(l, r, had, has) && l.tab.setups == m.tab.setups
    ensures SlotTaken(m, r, had, has)
  {
  }

  lemma ConfigureConserves(e: Env, w: World, i: nat, c: Config)
    requires Conserved(w) && i < |w.axes|
    ensures Conserved(Configure(e, w, i, c))
  {
    hide Reinit, Conserved, SlotTaken, SameChannels, OnlyTo;
    var a := Configured(w.axes[i], c);
    var b := Configure(e, w, i, c);
    if w.fd >= 0 {
      var l := SelectChannel(e, w.lib, w.fd).0;
      ReinitInitialises(e, l, a);
      var (r, a', ok) := Reinit(e, l, a);
      SlotsOnly(l, w.lib, r, a.setupIdx, a'.setupIdx);
      TakingConserves(w, i, b.axes[i], b);
    } else {
      JoiningConserves(w, i, b.axes[i], b);
    }
  }

  /** An axis configured while the channel is down. */
  lemma JoiningConserves(w: World, i: nat, a: Axis, b: World)
    requires Conserved(w) && i < |w.axes| && a.setupIdx == w.axes[i].setupIdx && a.configured
    requires b == w.(axes := w.axes[i := a], stale := b.stale)
    ensures Conserved(b)
  {
    CountUpdate(w.axes, i, a, true);
    CountUpdate(w.axes, i, a, false);
    Growth(Members(w), One(a, false) - One(w.axes[i], false), Rounds(w));
  }

  // ----- Opening again -----

  /** All configured axes give their index up; slots stay taken. */
  lemma StartingOverConserves(w: World, b: World)
    requires Conserved(w)
    requires b.lib.tab.setups == w.lib.tab.setups && b.orphans == w.orphans
    requires b.lib.marks.epoch == w.lib.marks.epoch + 1
    requires |b.axes| == |w.axes|
    requires forall j :: 0 <= j < |w.axes| ==> b.axes[j].configured == w.axes[j].configured && b.axes[j].setupIdx < 0
    requires forall j :: 0 <= j < |w.axes| && b.axes[j].needsReinit ==> w.axes[j].configured
    ensures Conserved(b)
  {
    assert Used(b.lib) == Used(w.lib);
    AllIdle(b.axes);
    SameMembers(w.axes, b.axes);
    IdleAtMostMembers(w.axes);
    Growth(Members(w), 0, Rounds(w));
    OneMoreRound(Members(w), Rounds(w));
  }

  lemma OneMoreRound(n: nat, rounds: nat)
    ensures n * (rounds + 1) == n * rounds + n
  {
  }

  lemma {:induction false} SameMembers(a: seq<Axis>, b: seq<Axis>)
    requires |a| == |b| && forall j :: 0 <= j < |a| ==> a[j].configured == b[j].configured
    ensures Count(a, false) == Count(b, false)
    decreases |a|
  {
    if a != [] { SameMembers(a[..|a| - 1], b[..|b| - 1]); }
  }

  lemma OpeningConserves(e: Env, w: World)
    requires Conserved(w)
    ensures Conserved(EnsureChannel(e, w).0)
  {
    hide OpenChannel, Conserved;
    var b := EnsureChannel(e, w).0;
    if b.fd == w.fd {
      SameHoldingsConserve(w, b);
    } else {
      ConservedHoldings(w);
      assert forall j :: 0 <= j < |w.axes| ==>
        w.axes[j].configured || (w.axes[j].setupIdx < 0 && !w.axes[j].needsReinit);
      StartingOverConserves(w, b);
    }
  }

  /** A reconnect given up half way resets nothing and costs nothing. */
  lemma OrphaningConserves(w: World, b: World)
    requires Conserved(w) && w.fd >= 0
    requires b.lib.tab.setups == w.lib.tab.setups && b.axes == w.axes
    requires b.lib.marks.epoch == w.lib.marks.epoch + 1 && b.orphans == w.orphans + 1
    ensures Conserved(b)
  {
    assert Used(b.lib) == Used(w.lib);
  }

  lemma ReconnectConserves(e: Env, w: World, i: nat, now: real)
    requires Conserved(w) && w.fd >= 0 && i < |w.axes| && w.axes[i].configured
    ensures Conserved(Reconnect(e, w, i, now).0)
  {
    hide OpenChannel, CloseChannel, SelectChannel, Reinit, Conserved, SlotTaken, SameChannels, OnlyTo;
    var b := Reconnect(e, w, i, now).0;
    var (l, fd) := OpenChannel(e, CloseChannel(w.lib, w.fd), now);
    var (l2, ok) := SelectChannel(e, Tick(l), fd);
    if fd < 0 { SameHoldingsConserve(w, b); }
    else if !ok { OrphaningConserves(w, b); }
    else { StartedOverConserves(e, w, i, StartedOver(l2), b); }
  }

  /** All axes flagged, and this one initialised afresh. */
  lemma StartedOverConserves(e: Env, w: World, i: nat, l: Lib, b: World)
    requires Conserved(w) && i < |w.axes| && w.axes[i].configured
    requires l.tab.setups == w.lib.tab.setups && l.marks.epoch == w.lib.marks.epoch + 1
    requires
      var (r, a, ok) := Reinit(e, l, w.axes[i].(setupIdx := -1));
      b == World(b.fd, b.last, r, FlagAll(w.axes, i, true)[i := Recovered(a, ok)], {}, w.orphans)
    requires b.fd >= 0
    ensures Conserved(b)
  {
    hide Reinit, Conserved, SlotTaken, SameChannels, OnlyTo, FlagAll, Recovered;
    var a := w.axes[i].(setupIdx := -1);
    var others := FlagAll(w.axes, i, true);
    var flagged := b.(lib := l, axes := others[i := a]);
    FlaggedConserves(w, flagged, i);
    ReinitInitialises(e, l, a);
    var (r, a', ok) := Reinit(e, l, a);
    RecoveredHolds(a', ok);
    UpdatedTwice(others, i, a, Recovered(a', ok));
    TakingConserves(flagged, i, Recovered(a', ok), b);
  }

  lemma RecoveredHolds(a: Axis, ok: bool)
    ensures Recovered(a, ok).setupIdx == a.setupIdx && Recovered(a, ok).configured == a.configured
  {
  }

  lemma UpdatedTwice(axes: seq<Axis>, i: nat, a: Axis, b: Axis)
    requires i < |axes|
    ensures axes[i := a][i := b] == axes[i := b]
  {
  }

  lemma FlaggedConserves(w: World, b: World, i: nat)
    requires Conserved(w) && i < |w.axes| && w.axes[i].configured
    requires b.lib.tab.setups == w.lib.tab.setups && b.orphans == w.orphans
    requires b.lib.marks.epoch == w.lib.marks.epoch + 1
    requires b.axes == FlagAll(w.axes, i, true)[i := w.axes[i].(setupIdx := -1)]
    ensures Conserved(b)
  {
    hide Conserved;
    ConservedHoldings(w);
    assert forall j :: 0 <= j < |w.axes| ==> w.axes[j].configured || (w.axes[j].setupIdx < 0 && !w.axes[j].needsReinit);
    StartingOverConserves(w, b);
  }

  lemma SelectConserves(e: Env, w: World, i: nat)
    requires Conserved(w) && i < |w.axes|
    ensures Conserved(Select(e, w, i).0)
  {
    hide Reconnect, TrySelect, Conserved;
    if w.axes[i].configured && w.fd >= 0 {
      var (l, ok) := TrySelect(e, w.lib, w.fd, SELECT_TRIES);
      var r := Select(e, w, i).0;
      if ok || Recent(Now(e, l), w.last, COOLDOWN) { SameHoldingsConserve(w, r); }
      else {
        SameHoldingsConserve(w, w.(lib := Tick(l)));
        ReconnectConserves(e, w.(lib := Tick(l)), i, Now(e, l));
      }
    }
  }

  lemma TickConserves(w: World)
    requires Conserved(w)
    ensures Conserved(Later(w))
  {
    hide Conserved;
    SameHoldingsConserve(w, Later(w));
  }

  lemma ConservedIsKept(e: Env)
    ensures Kept(e, Conserved)
  {
    hide Select, PollReinit, Configure, EnsureChannel, Conserved, Calm;
    forall a: World | Conserved(a) ensures Conserved(Later(a)) { TickConserves(a); }
    forall a, b, i | Conserved(a) && Calm(a, b, i) ensures Conserved(b) { TalkConserves(a, b, i); }
    forall a: World | Conserved(a) ensures Conserved(EnsureChannel(e, a).0) { OpeningConserves(e, a); }
    forall a: World, i | Conserved(a) && 0 <= i < |a.axes| ensures Conserved(Select(e, a, i).0) {
      SelectConserves(e, a, i);
    }
    forall a: World, i | Conserved(a) && 0 <= i < |a.axes| ensures Conserved(PollReinit(e, a, i).0) {
      PollConserves(e, a, i);
    }
    forall a: World, i, c | Conserved(a) && 0 <= i < |a.axes| ensures Conserved(Configure(e, a, i, c)) {
      ConfigureConserves(e, a, i, c);
    }
  }

  lemma {:induction false} NoMembers(axes: seq<Axis>, idleOnly: bool)
    requires forall j :: 0 <= j < |axes| ==> !axes[j].configured
    ensures Count(axes, idleOnly) == 0
    decreases |axes|
  {
    if axes != [] { NoMembers(axes[..|axes| - 1], idleOnly); }
  }

  lemma BootConserved(e: Env, n: nat, mem: map<byte, Mem>)
    ensures Conserved(Boot(e, n, mem))
  {
    hide OpenChannel;
    var w := Boot(e, n, mem);
    NoMembers(w.axes, true);
    assert w.lib.tab.setups[0] == None;
    assert Used(w.lib) == 0;
  }

  // ----- What follows for every run -----

  lemma AlwaysConserved(e: Env, n: nat, mem: map<byte, Mem>, cs: seq<Cmd>)
    ensures Conserved(Run(e, Boot(e, n, mem), cs))
  {
    hide Kept, Boot, Conserved;
    BootConserved(e, n, mem);
    ConservedIsKept(e);
    RunKeeps(e, Conserved, Boot(e, n, mem), cs);
  }

  /** Used slots form a prefix, axes hold distinct used ones, and a run uses at most one slot
      for every configured axis and every opening that made the axes start over - however many
      initialisations failed on the way. */
  lemma SlotsAreConserved(e: Env, n: nat, mem: map<byte, Mem>, cs: seq<Cmd>)
    ensures
      var w := Run(e, Boot(e, n, mem), cs);
      Prefix(w.lib) && Holdings(w) && Used(w.lib) <= Members(w) * Rounds(w)
  {
    hide Boot, Prefix, Holdings, Opened, Run;
    AlwaysConserved(e, n, mem, cs);
  }

  /** The configured axes, axis i counted as one. */
  function MembersWith(w: World, i: nat): nat
    requires i < |w.axes|
  {
    Members(w) + if w.axes[i].configured then 0 else 1
  }

  lemma LoadingSucceeds(e: Env, w: World, i: nat, path: string)
    requires Conserved(w) && i < |w.axes| && w.axes[i].setupIdx < 0
    requires MembersWith(w, i) * Rounds(w) <= 16
    ensures LoadSetup(e, w.lib, path).1 >= 0
  {
    hide Prefix, Holdings;
    if w.axes[i].configured { SomeoneIdle(w.axes, i); }
    else { assert MembersWith(w, i) * Rounds(w) == Members(w) * Rounds(w) + Rounds(w); }
  }

  /** So loading a setup, for an axis configured before or at its first configure, cannot fail
      as long as that product is within the table. */
  lemma LoadingCannotFail(e: Env, n: nat, mem: map<byte, Mem>, cs: seq<Cmd>, i: nat, path: string)
    requires i < n
    requires
      var w := Run(e, Boot(e, n, mem), cs);
      w.axes[i].setupIdx < 0 && MembersWith(w, i) * Rounds(w) <= 16
    ensures LoadSetup(e, Run(e, Boot(e, n, mem), cs).lib, path).1 >= 0
  {
    hide Boot, Conserved, Run, LoadSetup;
    AlwaysConserved(e, n, mem, cs);
    LoadingSucceeds(e, Run(e, Boot(e, n, mem), cs), i, path);
  }

  lemma {:induction false} SomeoneIdle(axes: seq<Axis>, i: nat)
    requires i < |axes| && axes[i].configured && axes[i].setupIdx < 0
    ensures Count(axes, true) > 0
    decreases |axes|
  {
    if i < |axes| - 1 { SomeoneIdle(axes[..|axes| - 1], i); }
  }
}
