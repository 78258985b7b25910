/** Runs that reach the exceptional states: an axis left unready by a reconnect that was given
    up half way, and an episode of retries that starts with a longer wait. */
module Exceptions {
  import opened Codec
  import opened TmlLib
  import opened Supervisor
  import opened Channels
  import opened Initialising
  import opened Lifting
  import opened Connection
  import opened Epoch
  import opened Slots
  import opened Backoff
  import opened Recovery
  import opened CoupledRuns
  import opened Showing

  /** Every reply in this stretch of interactions is of the one kind. */
  ghost predicate Stretch(e: Env, from: nat, to: nat, ok: bool) {
    forall t: nat :: from <= t < to ==> e.reply(t).ok == ok
  }

  lemma WaitOnce(e: Env, w: World)
    requires w.fd >= 0
    ensures Next(e, w, CtrlPoll) == Later(w)
  {
  }

  /** Controller polls let time pass on an open channel, and do nothing else. */
  lemma {:induction false} WaitTo(e: Env, w0: World, cs: seq<Cmd>, T: nat) returns (all: seq<Cmd>)
    requires Run(e, w0, cs).fd >= 0
    ensures
      var v := Run(e, w0, cs);
      Run(e, w0, all) == v.(lib := v.lib.(t := if v.lib.t < T then T else v.lib.t))
    decreases T - Run(e, w0, cs).lib.t
  {
    hide Next;
    all := cs;
    if Run(e, w0, cs).lib.t < T {
      WaitOnce(e, Run(e, w0, cs));
      assert (cs + [CtrlPoll])[..|cs|] == cs;
      all := WaitTo(e, w0, cs + [CtrlPoll], T);
    }
  }

  /** A channel that opens at boot. */
  lemma OpenAtBoot(e: Env, n: nat)
    requires e.reply(1).fd >= 0
    ensures
      var w := Boot(e, n, map[]);
      && Connected(w) && w.fd >= 0 && w.axes == seq(n, _ => NEW_AXIS) && w.lib.t == 3 && w.last == e.clock(2)
      && FreeSlot(w.lib.tab.setups, 0).Some? && ActiveChan(w.lib).Some?
  {
    BootConnected(e, n, map[]);
    assert FreeSlot(EmptyLib(map[]).tab.chans, 0) == Some(0);
  }

  // ----- Initialising in a stretch of replies of one kind -----

  lemma {:induction false} EndInitFails(e: Env, l: Lib, tries: nat)
    requires Stretch(e, l.t, l.t + tries, false)
    ensures !DriveInitialisation(e, l, tries).1
    decreases tries
  {
    hide Talks;
    if tries > 0 && ActiveChan(l).Some? { EndInitFails(e, Send(e, l, EndInit).0, tries - 1); }
  }

  lemma ReinitFails(e: Env, l: Lib, a: Axis)
    requires Stretch(e, l.t, l.t + 5, false)
    ensures !Reinit(e, l, a).2
  {
    hide AfterEndInit, DriveInitialisation, Talks, LoadSetup;
    var (l1, idx) := Hold(e, l, a);
    if idx >= 0 {
      var l2 := SetupAxis(e, l1, a.cfg.id, idx).0;
      var l3 := SelectAxis(e, l2, a.cfg.id).0;
      EndInitFails(e, l3, ENDINIT_TRIES);
    }
  }

  lemma ReinitSucceeds(e: Env, l: Lib, a: Axis)
    requires Stretch(e, l.t, l.t + 5, true) && ActiveChan(l).Some?
    requires if a.setupIdx < 0 then FreeSlot(l.tab.setups, 0).Some? else SetupLoaded(l, a.setupIdx)
    ensures Reinit(e, l, a).2
  {
    hide AfterEndInit, Talks;
    var (l1, idx) := Hold(e, l, a);
    assert SetupLoaded(l1, idx) && ActiveChan(l1).Some?;
    var l2 := SetupAxis(e, l1, a.cfg.id, idx).0;
    var l3 := SelectAxis(e, l2, a.cfg.id).0;
    assert ActiveChan(l3).Some?;
    assert Send(e, l3, EndInit).1.ok;
  }

  /** A first attempt, whatever comes of it, leaves the axis with a setup in hand. */
  lemma ReinitHolds(e: Env, l: Lib, a: Axis)
    requires a.setupIdx < 0 && FreeSlot(l.tab.setups, 0).Some?
    ensures Reinit(e, l, a).1.setupIdx >= 0 && SetupLoaded(Reinit(e, l, a).0, Reinit(e, l, a).1.setupIdx)
  {
    hide Reinit, OnlyTo, SameChannels;
    ReinitInitialises(e, l, a);
  }

  lemma FirstTriedCounters(a: Axis, idx: int, ok: bool)
    ensures
      var b := FirstTried(Configured(a, PLAIN).(setupIdx := idx), ok);
      b.configured && b.cfg == PLAIN && b.setupIdx == idx && b.needsReinit == !ok && b.countdown == a.countdown
        && b.backoff == a.backoff
  {
  }

  /** Configuring on the open channel: what comes of the initialisation decides. */
  lemma Configuring(e: Env, w: World, ok: bool)
    requires Connected(w) && w.fd >= 0 && |w.axes| == 1 && Stretch(e, w.lib.t, w.lib.t + 6, ok) && (e.native || ok)
    requires ok && w.axes[0].setupIdx < 0 ==> FreeSlot(w.lib.tab.setups, 0).Some?
    requires ok ==> w.axes[0].setupIdx < 0
    ensures
      var x := Configure(e, w, 0, PLAIN);
      var b := x.axes[0];
      && Connected(x) && x.fd == w.fd && |x.axes| == 1 && x.lib.t <= w.lib.t + 8 && x.last == w.last
      && b.configured && b.cfg == PLAIN && b.needsReinit == !ok && b.countdown == w.axes[0].countdown
         && b.backoff == w.axes[0].backoff
      && (w.axes[0].setupIdx < 0 && FreeSlot(w.lib.tab.setups, 0).Some? ==>
         b.setupIdx >= 0 && SetupLoaded(x.lib, b.setupIdx))
  {
    hide Reinit, Configured, FirstTried, AwaitingChannel, Connected;
    var a := Configured(w.axes[0], PLAIN);
    var l := SelectChannel(e, w.lib, w.fd).0;
    ConfigureKeepsConnected(e, w, 0, PLAIN);
    SelectedChannel(e, w);
    ConfiguredAxis(w.axes[0], PLAIN, -1, true);
    PlainReinitTime(e, l, a);
    if ok { ReinitSucceeds(e, l, a); } else { ReinitFails(e, l, a); }
    if w.axes[0].setupIdx < 0 && FreeSlot(w.lib.tab.setups, 0).Some? { ReinitHolds(e, l, a); }
    FirstTriedCounters(w.axes[0], Reinit(e, l, a).1.setupIdx, ok);
  }

  // ----- An axis left unready -----

  /** Natively impossible: replies stop coming, while the channel can still be opened. */
  function GoesSilent(): Env {
    Env(false, 0, (t: nat) => 10.0 + 10.0 * t as real, (t: nat) => Reply(t < 1000, 0, 0, 0), (path: string) => map[],
        (id: byte, at: word) => false, (t: nat) => map[], (id: byte) => 0)
  }

  lemma TrySelectFails(e: Env, l: Lib, fd: int, tries: nat)
    requires !e.native && fd >= 0 && Stretch(e, l.t, l.t + tries, false)
    ensures
      var (r, ok) := TrySelect(e, l, fd, tries);
      !ok && r == l.(t := l.t + tries)
    decreases tries
  {
    if tries > 0 { TrySelectFails(e, SelectChannel(e, l, fd).0, fd, tries - 1); }
  }

  /** With no reply coming and the last reconnect long past, a selection ends in a reconnect
      that is given up half way. */
  lemma SelectOrphans(w: World)
    requires Connected(w) && w.fd >= 0 && |w.axes| == 1 && w.axes[0].configured && !w.axes[0].needsReinit
    requires w.lib.t >= 1000 && w.last <= GoesSilent().clock(500)
    ensures
      var (x, ok) := Select(GoesSilent(), w, 0);
      !ok && x.fd >= 0 && x.axes == w.axes && !AllReady(x) && x.stale == {0}
  {
    hide OneChannel, Reconnect, CloseChannel, OpenChannel, SelectChannel;
    var e := GoesSilent();
    TrySelectFails(e, w.lib, w.fd, SELECT_TRIES);
    var l := w.lib.(t := w.lib.t + 3);
    var w1 := w.(lib := Tick(l));
    assert !Recent(Now(e, l), w.last, COOLDOWN);
    SameChannelsKeepsOne(w.lib, w1.lib, w.fd);
    ReopensButUnselected(w1);
    OrphanIsReadyIff(e, w1, 0, Now(e, l));
    OnlyStale(e, w1, Now(e, l));
  }

  lemma ReopensButUnselected(w: World)
    requires Connected(w) && w.fd >= 0 && w.lib.t >= 1000
    ensures forall now: real ::
      var (l, fd) := OpenChannel(GoesSilent(), CloseChannel(w.lib, w.fd), now);
      fd >= 0 && !SelectChannel(GoesSilent(), Tick(l), fd).1
  {
    CloseTheOne(w.lib, w.fd);
    var c := CloseChannel(w.lib, w.fd);
    assert c.tab.chans[0] == None;
    assert FreeSlot(c.tab.chans, 0) == Some(0);
  }

  lemma OnlyStale(e: Env, w: World, now: real)
    requires |w.axes| == 1 && w.axes[0].configured && !w.axes[0].needsReinit
    requires
      var (l, fd) := OpenChannel(e, CloseChannel(w.lib, w.fd), now);
      fd >= 0 && !SelectChannel(e, Tick(l), fd).1
    ensures Reconnect(e, w, 0, now).0.stale == {0}
    ensures !Reconnect(e, w, 0, now).1
  {
    hide OpenChannel, CloseChannel, SelectChannel;
    assert Unflagged(w.axes) == {0};
  }

  /** A run that ends with an axis taking itself to be initialised which has not been set up on
      the channel now open. */
  lemma UnreadyIsReached() returns (e: Env, cs: seq<Cmd>)
    ensures
      var w := Run(e, Boot(e, 1, map[]), cs);
      w.fd >= 0 && w.stale == {0} && !AllReady(w)
  {
    hide Boot, Configure, Select, Connected, AllReady, Next;
    e := GoesSilent();
    var w0 := Boot(e, 1, map[]);
    OpenAtBoot(e, 1);
    LaterConnected(w0);
    Configuring(e, Later(w0), true);
    var first := [DoConfigure(0, PLAIN)];
    OneStepRun(e, w0, first[0]);
    ConfigureIsNext(e, w0, 0, PLAIN);
    var waited := WaitTo(e, w0, first, 1000);
    var w := Run(e, w0, waited);
    WaitedConnected(Run(e, w0, first), w);
    LaterConnected(w);
    SelectOrphans(Later(w));
    cs := waited + [DoSetPosition(0, 0)];
    OneMore(e, w0, waited, DoSetPosition(0, 0));
    SetPositionIsSelect(e, w);
  }

  lemma WaitedConnected(v: World, w: World)
    requires Connected(v) && w.lib.tab == v.lib.tab && w.fd == v.fd
    ensures Connected(w)
  {
  }

  lemma SetPositionIsSelect(e: Env, w: World)
    requires |w.axes| == 1 && w.axes[0].configured && !Select(e, Later(w), 0).1
    ensures Next(e, w, DoSetPosition(0, 0)) == Select(e, Later(w), 0).0
  {
    hide Select;
  }

  // ----- An episode that starts with a longer wait -----

  /** Nothing is acknowledged before interaction 1000 or from 2000 on. */
  function ComesAndGoes(): Env {
    Env(true, 0, (t: nat) => t as real, (t: nat) => Reply(1000 <= t < 2000, 0, 0, 0), (path: string) => map[],
        (id: byte, at: word) => false, (t: nat) => map[], (id: byte) => 0)
  }

  /** A configured axis that waits, with a setup in hand. */
  ghost predicate Waiting(w: World, countdown: nat, backoff: nat) {
    && Connected(w) && w.fd >= 0 && |w.axes| == 1
    && Counts(w.axes[0], true, countdown, backoff) && w.axes[0].cfg == PLAIN
    && SetupLoaded(w.lib, w.axes[0].setupIdx)
  }

  lemma PollIsReinit(e: Env, w: World)
    requires |w.axes| == 1 && w.axes[0].configured && !PollReinit(e, Later(w), 0).1
    ensures Next(e, w, DoPoll(0)) == PollReinit(e, Later(w), 0).0
  {
    hide PollReinit;
  }

  lemma LaterWaiting(w: World, countdown: nat, backoff: nat)
    requires Waiting(w, countdown, backoff)
    ensures Waiting(Later(w), countdown, backoff)
  {
    hide Connected;
    LaterConnected(w);
  }

  /** A poll whose attempt fails. */
  lemma FailingPoll(w: World)
    requires Waiting(w, 0, 1) && w.lib.t + 10 < 1000
    ensures
      var x := Next(ComesAndGoes(), w, DoPoll(0));
      Waiting(x, 1, 2) && x.lib.t <= w.lib.t + 9
  {
    hide Reinit, Connected, BackedOff, SelectChannel, OnlyTo, SameChannels;
    var e, w1 := ComesAndGoes(), Later(w);
    LaterWaiting(w, 0, 1);
    SelectedChannel(e, w1);
    var l := SelectChannel(e, w1.lib, w1.fd).0;
    ReinitFails(e, l, w1.axes[0]);
    PlainReinitTime(e, l, w1.axes[0]);
    ReinitInitialises(e, l, w1.axes[0]);
    Fails(e, w1, 0);
    PollKeepsConnected(e, w1, 0);
    FailedAxis(w1.axes[0], Reinit(e, l, w1.axes[0]).1.setupIdx);
    PollIsReinit(e, w);
  }

  /** A poll that only waits. */
  lemma WaitingPoll(w: World, backoff: nat)
    requires Waiting(w, 1, backoff)
    ensures
      var x := Next(ComesAndGoes(), w, DoPoll(0));
      Waiting(x, 0, backoff) && x.lib.t == w.lib.t + 1
  {
    hide Reinit, Connected, SelectChannel;
    var e, w1 := ComesAndGoes(), Later(w);
    LaterWaiting(w, 1, backoff);
    Waits(e, w1, 0);
    PollKeepsConnected(e, w1, 0);
    WaitingAxis(w1.axes[0]);
    PollIsReinit(e, w);
  }

  /** A poll whose attempt succeeds: the wait the axis had come to stays behind. */
  lemma SucceedingPoll(w: World, backoff: nat)
    requires Waiting(w, 0, backoff) && 1000 <= w.lib.t < 1900
    ensures
      var x := Next(ComesAndGoes(), w, DoPoll(0));
      && Connected(x) && x.fd >= 0 && |x.axes| == 1
      && x.axes[0].configured && !x.axes[0].needsReinit && x.axes[0].countdown == 0 && x.axes[0].backoff == backoff
  {
    hide Reinit, Connected, Restored, SelectChannel, Observe, KeptInside, OneChannel;
    var e, w1 := ComesAndGoes(), Later(w);
    LaterWaiting(w, 0, backoff);
    SelectedChannel(e, w1);
    var l := SelectChannel(e, w1.lib, w1.fd).0;
    ReinitSucceeds(e, l, w1.axes[0]);
    var w2 := PollReinit(e, w1, 0).0;
    PollKeepsConnected(e, w1, 0);
    RestoredCounters(w1.axes[0], Reinit(e, l, w1.axes[0]).1.setupIdx);
    NativeInside(e, w2, 0);
    LeavesItself(w2);
    assert LeavesOf(w2, 0)(w2);
    ObserveAfter(e, LeavesOf(w2, 0), w2, 0);
    PollIsBoth(e, w);
  }

  lemma PollIsBoth(e: Env, w: World)
    requires |w.axes| == 1 && w.axes[0].configured && PollReinit(e, Later(w), 0).1
    ensures Next(e, w, DoPoll(0)) == Observe(e, PollReinit(e, Later(w), 0).0, 0).0
  {
    hide PollReinit, Observe;
  }

  lemma LeavesItself(w: World)
    requires Connected(w) && |w.axes| == 1
    ensures Leaves(w, 0, w)
  {
    hide OneChannel;
  }

  lemma RestoredCounters(a: Axis, idx: int)
    ensures
      var b := Restored(a.(setupIdx := idx));
      b.configured == a.configured && !b.needsReinit && b.countdown == a.countdown && b.backoff == a.backoff
  {
  }

  /** A run in which configuring an axis once more starts an episode at a wait of two polls, not
      one. */
  lemma LongerStartIsReached() returns (e: Env, cs: seq<Cmd>)
    ensures
      var w := Run(e, Boot(e, 1, map[]), cs);
      var a := Next(e, w, DoConfigure(0, PLAIN)).axes[0];
      !w.axes[0].needsReinit && a.needsReinit && a.backoff == 2
  {
    hide Boot, Configure, Poll, Connected, Next;
    e := ComesAndGoes();
    var w0 := Boot(e, 1, map[]);
    OpenAtBoot(e, 1);
    LaterConnected(w0);
    Configuring(e, Later(w0), false);
    ConfigureIsNext(e, w0, 0, PLAIN);
    var first := [DoConfigure(0, PLAIN)];
    OneStepRun(e, w0, first[0]);
    FailingPoll(Run(e, w0, first));
    OneMore(e, w0, first, DoPoll(0));
    var waited := WaitTo(e, w0, first + [DoPoll(0)], 1000);
    WaitedConnected(Run(e, w0, first + [DoPoll(0)]), Run(e, w0, waited));
    WaitingPoll(Run(e, w0, waited), 2);
    OneMore(e, w0, waited, DoPoll(0));
    SucceedingPoll(Run(e, w0, waited + [DoPoll(0)]), 2);
    OneMore(e, w0, waited + [DoPoll(0)], DoPoll(0));
    cs := WaitTo(e, w0, waited + [DoPoll(0)] + [DoPoll(0)], 2000);
    var w := Run(e, w0, cs);
    WaitedConnected(Run(e, w0, waited + [DoPoll(0)] + [DoPoll(0)]), w);
    LaterConnected(w);
    Configuring(e, Later(w), false);
    ConfigureIsNext(e, w, 0, PLAIN);
  }
}
