/** The backoff ladder and recovery, in runs where other calls come in between. */
module Recovery {
  import opened Codec
  import opened TmlLib
  import opened Supervisor
  import opened Channels
  import opened Initialising
  import opened AxisEffects
  import opened Lifting
  import opened Connection
  import opened Epoch
  import opened Slots
  import opened Backoff

  predicate SameCounters(a: Axis, b: Axis) {
    && b.configured == a.configured && b.needsReinit == a.needsReinit
    && b.countdown == a.countdown && b.backoff == a.backoff
  }

  /** Polls of axis i in the run; and those of them that try to initialise. */
  function Polls(cs: seq<Cmd>, i: nat): nat {
    if cs == [] then 0
    else Polls(cs[..|cs| - 1], i) + (if cs[|cs| - 1] == DoPoll(i) then 1 else 0)
  }

  function Attempts(e: Env, w: World, cs: seq<Cmd>, i: nat): nat
    requires i < |w.axes|
  {
    if cs == [] then 0
    else
      Attempts(e, w, cs[..|cs| - 1], i)
      + (if cs[|cs| - 1] == DoPoll(i) && Run(e, w, cs[..|cs| - 1]).axes[i].countdown == 0 then 1 else 0)
  }

  /** The channel is open at every poll of axis i, no such poll gets it initialised, and no
      other call touches its counters. */
  ghost predicate Unlucky(e: Env, w: World, cs: seq<Cmd>, i: nat)
    requires i < |w.axes|
  {
    cs == [] ||
    var v := Run(e, w, cs[..|cs| - 1]);
    && Unlucky(e, w, cs[..|cs| - 1], i)
    && if cs[|cs| - 1] == DoPoll(i) then v.fd >= 0 && !PollReinit(e, Later(v), i).1
       else SameCounters(v.axes[i], Next(e, v, cs[|cs| - 1]).axes[i])
  }

  /** An axis that still waits, with these counters. */
  predicate Counts(a: Axis, configured: bool, countdown: int, backoff: nat) {
    a.configured == configured && a.needsReinit && a.countdown == countdown && a.backoff == backoff
  }

  lemma Waits(e: Env, w: World, i: nat)
    requires i < |w.axes| && w.axes[i].needsReinit && w.fd >= 0 && w.axes[i].countdown > 0
    ensures
      var (r, go) := PollReinit(e, w, i);
      !go && Counts(r.axes[i], w.axes[i].configured, w.axes[i].countdown - 1, w.axes[i].backoff)
  {
    hide Reinit, SelectChannel;
  }

  lemma Fails(e: Env, w: World, i: nat)
    requires i < |w.axes| && w.axes[i].needsReinit && w.fd >= 0 && w.axes[i].countdown == 0
    requires !PollReinit(e, w, i).1
    ensures
      var r := PollReinit(e, w, i).0;
      Counts(r.axes[i], w.axes[i].configured, w.axes[i].backoff, Doubled(w.axes[i].backoff))
  {
    hide Reinit, SelectChannel, Doubled;
  }

  /** A poll that does not get a waiting axis initialised. */
  lemma TryClimbs(e: Env, w: World, i: nat)
    requires i < |w.axes| && w.axes[i].configured && w.axes[i].needsReinit
    requires w.fd >= 0 && !PollReinit(e, w, i).1
    ensures
      var a := PollReinit(e, w, i).0.axes[i];
      && a.configured && a.needsReinit
      && (if w.axes[i].countdown > 0 then a.countdown == w.axes[i].countdown - 1 && a.backoff == w.axes[i].backoff
          else a.countdown == w.axes[i].backoff && a.backoff == Doubled(w.axes[i].backoff))
  {
    hide PollReinit, Doubled;
    if w.axes[i].countdown > 0 { Waits(e, w, i); } else { Fails(e, w, i); }
  }

  lemma PollClimbs(e: Env, w: World, i: nat)
    requires i < |w.axes| && w.axes[i].configured && w.axes[i].needsReinit
    requires w.fd >= 0 && !PollReinit(e, Later(w), i).1
    ensures
      var a := Next(e, w, DoPoll(i)).axes[i];
      && a.configured && a.needsReinit
      && (if w.axes[i].countdown > 0 then a.countdown == w.axes[i].countdown - 1 && a.backoff == w.axes[i].backoff
          else a.countdown == w.axes[i].backoff && a.backoff == Doubled(w.axes[i].backoff))
  {
    hide PollReinit, Doubled, Observe;
    TryClimbs(e, Later(w), i);
    assert Next(e, w, DoPoll(i)) == Poll(e, Later(w), i).0;
  }

  /** The ladder, after the waiting polls the episode starts with. */
  function LadderFrom(start: nat, p: nat): Rung {
    if p < start then Rung(start - p, 1, 0) else Ladder(p - start)
  }

  /** From the start of an episode - with or without a wait before the first attempt -, with
      every attempt failing, the axis climbs the ladder by its own polls alone, whatever else is
      called in between. */
  lemma {:induction false} ClimbsTheLadder(e: Env, w: World, cs: seq<Cmd>, i: nat)
    requires i < |w.axes| && w.axes[i].configured && w.axes[i].needsReinit
    requires w.axes[i].backoff == 1 && Unlucky(e, w, cs, i)
    ensures
      var a := Run(e, w, cs).axes[i];
      && a.configured && a.needsReinit
      && Rung(a.countdown, a.backoff, Attempts(e, w, cs, i)) == LadderFrom(w.axes[i].countdown, Polls(cs, i))
    decreases |cs|
  {
    hide Next, PollReinit, Doubled;
    if cs != [] {
      var rest, c := cs[..|cs| - 1], cs[|cs| - 1];
      ClimbsTheLadder(e, w, rest, i);
      if c == DoPoll(i) {
        PollClimbs(e, Run(e, w, rest), i);
        NextRung(w.axes[i].countdown, Polls(rest, i));
      }
    }
  }

  lemma NextRung(start: nat, p: nat)
    ensures LadderFrom(start, p + 1) == Climb(LadderFrom(start, p))
  {
    hide Doubled;
    if p >= start { LadderNext(p - start); } else { LadderNext(0); }
  }

  /** So the failed attempt number n is followed by exactly min(2^n, 30) polls that only wait. */
  lemma WaitsDouble(e: Env, w: World, cs: seq<Cmd>, i: nat, n: nat, k: nat)
    requires i < |w.axes| && w.axes[i].configured && w.axes[i].needsReinit
    requires w.axes[i].backoff == 1 && Unlucky(e, w, cs, i)
    requires k <= Wait(n) && Polls(cs, i) == w.axes[i].countdown + AttemptAt(n) + 1 + k
    ensures Attempts(e, w, cs, i) == n + 1 && Run(e, w, cs).axes[i].countdown == Wait(n) - k
  {
    hide Run, Attempts, Unlucky, Polls, Wait, Ladder, AttemptAt;
    ClimbsTheLadder(e, w, cs, i);
    LadderShape(n, k);
  }

  // ----- Natively no other call is in the way -----

  ghost predicate Leaves(w: World, i: nat, x: World) {
    Connected(x) && x.fd == w.fd && i < |w.axes| && |x.axes| == |w.axes| && SameCounters(w.axes[i], x.axes[i])
  }

  /** With table lookups only, on an open channel, nothing but its own polls and configuring
      touches an axis's counters, and the channel stays open. */
  lemma NativeLeavesAlone(e: Env, w: World, c: Cmd, i: nat)
    requires e.native && Connected(w) && w.fd >= 0 && i < |w.axes|
    requires !(c.DoConfigure? && c.i == i)
    ensures Connected(Next(e, w, c)) && Next(e, w, c).fd == w.fd
    ensures c != DoPoll(i) ==> SameCounters(w.axes[i], Next(e, w, c).axes[i])
  {
    hide Select, PollReinit, Configure, Observe, OneChannel, Step;
    ConnectedIsKept(e);
    NextKeeps(e, Connected, w, c);
    NativeNeverReconnects(e, w, [c]);
    OneStepRun(e, w, c);
    if c != DoPoll(i) { LeavesAlone(e, w, c, i); }
  }

  lemma OneStepRun(e: Env, w: World, c: Cmd)
    ensures Run(e, w, [c]) == Next(e, w, c)
  {
    hide Next;
    assert [c][..0] == [];
  }

  ghost function LeavesOf(w: World, i: nat): World -> bool { (x: World) => Leaves(w, i, x) }

  lemma NativeInside(e: Env, w: World, i: nat)
    requires e.native && w.fd >= 0
    ensures forall k: nat :: KeptInside(e, LeavesOf(w, i), k)
  {
    hide Select, OneChannel;
    var inv := LeavesOf(w, i);
    forall a: World, k | inv(a) && 0 <= k < |a.axes| ensures inv(Select(e, a, k).0) {
      NativeSelect(e, a, k);
      SelectKeepsConnected(e, a, k);
    }
    forall a, b, k | inv(a) && Calm(a, b, k) ensures inv(b) { CalmLeaves(a, b, k, w, i); }
  }

  lemma LeavesAlone(e: Env, w: World, c: Cmd, i: nat)
    requires e.native && Connected(w) && w.fd >= 0 && i < |w.axes|
    requires c != DoPoll(i) && !(c.DoConfigure? && c.i == i)
    ensures SameCounters(w.axes[i], Next(e, w, c).axes[i])
  {
    hide Select, PollReinit, Configure, Observe, OneChannel, EnsureChannel, KeptInside;
    var inv := LeavesOf(w, i);
    NativeInside(e, w, i);
    var w1 := Later(w);
    SameChannelsKeepsOne(w.lib, w1.lib, w.fd);
    if IsCommand(c) { CommandKeeps(e, inv, w1, c); }
    else if c.CtrlPoll? { assert EnsureChannel(e, w1).0 == w1 by { StaysOpen(e, w1); } }
    else if c.i < |w.axes| {
      if c.DoPoll? {
        OthersPoll(e, w1, c.i, i);
        PollKeepsConnected(e, w1, c.i);
        if PollReinit(e, w1, c.i).1 { ObserveAfter(e, inv, PollReinit(e, w1, c.i).0, c.i); }
      } else { OthersConfigure(e, w1, c.i, c.c, i); }
    }
  }

  lemma StaysOpen(e: Env, w: World)
    requires w.fd >= 0
    ensures EnsureChannel(e, w).0 == w
  {
  }

  lemma CalmLeaves(a: World, b: World, k: nat, w: World, i: nat)
    requires Leaves(w, i, a) && Calm(a, b, k)
    ensures Leaves(w, i, b)
  {
    SameChannelsKeepsOne(a.lib, b.lib, a.fd);
  }

  lemma OthersPoll(e: Env, w: World, k: nat, i: nat)
    requires k < |w.axes| && i < |w.axes| && k != i
    ensures PollReinit(e, w, k).0.axes[i] == w.axes[i] && PollReinit(e, w, k).0.fd == w.fd
  {
    hide Reinit, SelectChannel;
  }

  lemma OthersConfigure(e: Env, w: World, k: nat, c: Config, i: nat)
    requires k < |w.axes| && i < |w.axes| && k != i
    ensures Configure(e, w, k, c).axes[i] == w.axes[i]
  {
    hide Reinit, SelectChannel;
  }

  ghost predicate NotReconfigured(cs: seq<Cmd>, i: nat) {
    forall k :: 0 <= k < |cs| ==> !(cs[k].DoConfigure? && cs[k].i == i)
  }

  /** A waiting axis whose countdown lasts longer than the run has polls for it. */
  lemma {:induction false} CountsDown(e: Env, w: World, cs: seq<Cmd>, i: nat)
    requires e.native && Connected(w) && w.fd >= 0 && i < |w.axes|
    requires w.axes[i].configured && w.axes[i].needsReinit && NotReconfigured(cs, i)
    requires Polls(cs, i) <= w.axes[i].countdown
    ensures
      var r := Run(e, w, cs);
      && Connected(r) && r.fd == w.fd
      && r.axes[i].configured && r.axes[i].needsReinit && r.axes[i].countdown == w.axes[i].countdown - Polls(cs, i)
    decreases |cs|
  {
    hide Next, OneChannel, PollReinit;
    if cs != [] {
      var rest, c := cs[..|cs| - 1], cs[|cs| - 1];
      CountsDown(e, w, rest, i);
      var v := Run(e, w, rest);
      NativeLeavesAlone(e, v, c, i);
      if c == DoPoll(i) {
        Waits(e, Later(v), i);
        PollClimbs(e, v, i);
      }
    }
  }

  ghost predicate MayRecover(e: Env, w: World, i: nat) {
    && Acked(e) && Connected(w) && Conserved(w) && w.fd >= 0 && i < |w.axes|
    && w.axes[i].configured && Members(w) * Rounds(w) <= 16
  }

  lemma SetupAtHand(e: Env, w: World, i: nat)
    requires MayRecover(e, w, i)
    ensures if w.axes[i].setupIdx < 0 then FreeSlot(w.lib.tab.setups, 0).Some?
      else SetupLoaded(w.lib, w.axes[i].setupIdx)
  {
    if w.axes[i].setupIdx < 0 { LoadingSucceeds(e, w, i, w.axes[i].cfg.file); }
    else { HeldIsLoaded(w, i); }
  }

  lemma HeldIsLoaded(w: World, i: nat)
    requires Holdings(w) && i < |w.axes| && w.axes[i].setupIdx >= 0
    ensures SetupLoaded(w.lib, w.axes[i].setupIdx)
  {
  }

  /** On an open channel where every call is acknowledged, a poll with the countdown at 0
      initialises the axis. */
  lemma AckedPollRecovers(e: Env, w: World, i: nat)
    requires i < |w.axes| && MayRecover(e, w, i) && w.axes[i].needsReinit && w.axes[i].countdown == 0
    ensures PollReinit(e, w, i).1 && !PollReinit(e, w, i).0.axes[i].needsReinit
  {
    hide Reinit, SelectChannel, MayRecover;
    assert Acked(e) && OneChannel(w.lib, w.fd) && w.fd >= 0 by { Parts(e, w, i); }
    SelectTheOne(e, w.lib, w.fd);
    SetupAtHand(e, w, i);
    AckedReinitSucceeds(e, SelectChannel(e, w.lib, w.fd).0, w.axes[i]);
  }

  lemma Parts(e: Env, w: World, i: nat)
    requires MayRecover(e, w, i)
    ensures Acked(e) && OneChannel(w.lib, w.fd) && w.fd >= 0 && Connected(w) && i < |w.axes| && w.axes[i].configured
  {
  }

  lemma AckedNextRecovers(e: Env, w: World, i: nat)
    requires i < |w.axes| && MayRecover(e, w, i) && w.axes[i].needsReinit && w.axes[i].countdown == 0
    ensures !Next(e, w, DoPoll(i)).axes[i].needsReinit
  {
    hide PollReinit, Observe, KeptInside, OneChannel, Conserved;
    var w1 := Later(w);
    TickConserves(w);
    SameChannelsKeepsOne(w.lib, w1.lib, w.fd);
    AckedPollRecovers(e, w1, i);
    PollKeepsConnected(e, w1, i);
    var w2 := PollReinit(e, w1, i).0;
    PollOpensNothing(e, w1, i);
    NativeInside(e, w2, i);
    assert LeavesOf(w2, i)(w2);
    ObserveAfter(e, LeavesOf(w2, i), w2, i);
  }

  /** With table lookups and every call acknowledged, an axis that waits for initialisation on
      an open channel has it back after at most countdown + 1 <= 31 of its polls, whatever
      else is called in between. */
  lemma RecoversInTime(e: Env, w: World, cs: seq<Cmd>, i: nat)
    requires Acked(e) && Connected(w) && Conserved(w) && AllInRange(w) && w.fd >= 0 && i < |w.axes|
    requires w.axes[i].configured && w.axes[i].needsReinit && NotReconfigured(cs, i)
    requires Polls(cs, i) == w.axes[i].countdown
    requires Members(Run(e, w, cs)) * Rounds(Run(e, w, cs)) <= 16
    ensures !Next(e, Run(e, w, cs), DoPoll(i)).axes[i].needsReinit
    ensures Polls(cs + [DoPoll(i)], i) == w.axes[i].countdown + 1 <= 31
  {
    hide Run, Next, Kept, Conserved, OneChannel;
    CountsDown(e, w, cs, i);
    ConservedIsKept(e);
    RunKeeps(e, Conserved, w, cs);
    AckedNextRecovers(e, Run(e, w, cs), i);
    assert InRange(w.axes[i]);
    assert (cs + [DoPoll(i)])[..|cs|] == cs;
  }

  /** The axis has not been initialised by any of its polls in the run. */
  ghost predicate AllFail(e: Env, w: World, cs: seq<Cmd>, i: nat)
    requires i < |w.axes|
  {
    forall k :: 0 <= k < |cs| && cs[k] == DoPoll(i) ==> !PollReinit(e, Later(Run(e, w, cs[..k])), i).1
  }

  /** Natively, failing attempts are all it takes to climb the ladder. */
  lemma {:induction false} NativeUnlucky(e: Env, w: World, cs: seq<Cmd>, i: nat)
    requires e.native && Connected(w) && w.fd >= 0 && i < |w.axes|
    requires NotReconfigured(cs, i) && AllFail(e, w, cs, i)
    ensures Unlucky(e, w, cs, i) && Connected(Run(e, w, cs)) && Run(e, w, cs).fd == w.fd
    decreases |cs|
  {
    hide Next, OneChannel, PollReinit;
    if cs != [] {
      var rest, c := cs[..|cs| - 1], cs[|cs| - 1];
      assert forall k :: 0 <= k < |rest| ==> rest[..k] == cs[..k] && rest[k] == cs[k];
      NativeUnlucky(e, w, rest, i);
      NativeLeavesAlone(e, Run(e, w, rest), c, i);
    }
  }
}
