/** How long a failing axis waits before it tries again, and how soon it recovers. */
module Backoff {
  import opened Codec
  import opened TmlLib
  import opened Supervisor
  import opened Channels
  import opened Initialising
  import opened AxisEffects
  import opened Lifting
  import opened Connection

  // ----- The values the counters take -----

  predicate OnLadder(n: nat) { n == 1 || n == 2 || n == 4 || n == 8 || n == 16 || n == 30 }

  predicate CountersInRange(configured: bool, needsReinit: bool, countdown: nat, backoff: nat) {
    && countdown <= 30 && OnLadder(backoff)
    && (!configured ==> !needsReinit && backoff == 1 && countdown == 0)
  }

  predicate InRange(a: Axis) { CountersInRange(a.configured, a.needsReinit, a.countdown, a.backoff) }

  ghost predicate AllInRange(w: World) {
    forall j :: 0 <= j < |w.axes| ==> InRange(w.axes[j])
  }

  lemma RangeIsKept(e: Env)
    ensures Kept(e, AllInRange)
  {
    hide Select, PollReinit, Configure, EnsureChannel;
    forall a: World | AllInRange(a) ensures AllInRange(EnsureChannel(e, a).0) { OpeningInRange(e, a); }
    forall a: World, i | AllInRange(a) && 0 <= i < |a.axes| ensures AllInRange(Select(e, a, i).0) {
      SelectInRange(e, a, i);
    }
    forall a: World, i | AllInRange(a) && 0 <= i < |a.axes| ensures AllInRange(PollReinit(e, a, i).0) {
      PollInRange(e, a, i);
    }
    forall a: World, i, c | AllInRange(a) && 0 <= i < |a.axes| ensures AllInRange(Configure(e, a, i, c)) {
      ConfigureInRange(e, a, i, c);
    }
  }

  lemma OpeningInRange(e: Env, w: World)
    requires AllInRange(w)
    ensures AllInRange(EnsureChannel(e, w).0)
  {
    hide OpenChannel, FlagAll, InRange;
    FlagAllInRange(w.axes, -1, false);
  }

  lemma LostInRange(a: Axis)
    requires a.configured
    ensures InRange(Lost(a))
  {
  }

  lemma RecoveredInRange(a: Axis, idx: int, ok: bool)
    requires InRange(a) && a.configured
    ensures InRange(Recovered(a.(setupIdx := idx), ok))
  {
  }

  lemma SelectedInRange(a: Axis, b: Axis, own: bool, reopened: bool)
    requires InRange(a) && Selected(a, b, own, reopened)
    ensures InRange(b)
  {
    hide InRange, Lost, Flagged, Recovered;
    if a.configured {
      LostInRange(a);
      FlaggedInRange(a);
      RecoveredInRange(a, b.setupIdx, !b.needsReinit);
    }
  }

  lemma SelectInRange(e: Env, w: World, i: nat)
    requires AllInRange(w) && i < |w.axes|
    ensures AllInRange(Select(e, w, i).0)
  {
    hide Select, InRange, Selected;
    var r := Select(e, w, i).0;
    forall j | 0 <= j < |r.axes| ensures InRange(r.axes[j]) {
      SelectEffect(e, w, i, j);
      SelectedInRange(w.axes[j], r.axes[j], i == j, r.lib.marks.resets > w.lib.marks.resets);
    }
  }

  lemma FlaggedInRange(a: Axis)
    requires a.configured
    ensures InRange(Flagged(a)) && InRange(Flagged(a).(active := false))
  {
  }

  lemma FlagAllInRange(axes: seq<Axis>, except: int, publish: bool)
    requires forall j :: 0 <= j < |axes| ==> InRange(axes[j])
    ensures forall j :: 0 <= j < |axes| ==> InRange(FlagAll(axes, except, publish)[j])
  {
    hide InRange, Flagged;
    forall j | 0 <= j < |axes| ensures InRange(FlagAll(axes, except, publish)[j]) {
      if axes[j].configured { FlaggedInRange(axes[j]); }
    }
  }

  lemma PollInRange(e: Env, w: World, i: nat)
    requires AllInRange(w) && i < |w.axes|
    ensures AllInRange(PollReinit(e, w, i).0)
  {
    hide Reinit, SelectChannel, InRange, BackedOff, Down, CountedDown, Restored;
    var a := w.axes[i];
    var r := PollReinit(e, w, i).0;
    if a.needsReinit && w.fd >= 0 && a.countdown == 0 {
      var a' := Reinit(e, SelectChannel(e, w.lib, w.fd).0, a).1;
      assert a' == a.(setupIdx := a'.setupIdx);
      TriedInRange(a, a'.setupIdx);
      assert InRange(r.axes[i]);
    } else if a.needsReinit && w.fd >= 0 {
      WaitedInRange(a);
      assert InRange(r.axes[i]);
    } else if a.needsReinit {
      DownInRange(a);
      assert InRange(r.axes[i]);
    }
  }

  lemma DownInRange(a: Axis)
    requires InRange(a)
    ensures InRange(Down(a))
  {
  }

  lemma WaitedInRange(a: Axis)
    requires InRange(a) && a.countdown > 0
    ensures InRange(CountedDown(a))
  {
  }

  lemma TriedInRange(a: Axis, idx: int)
    requires InRange(a) && a.needsReinit
    ensures InRange(BackedOff(a.(setupIdx := idx)))
    ensures InRange(Restored(a.(setupIdx := idx)))
  {
  }

  lemma ConfigureInRange(e: Env, w: World, i: nat, c: Config)
    requires AllInRange(w) && i < |w.axes|
    ensures AllInRange(Configure(e, w, i, c))
  {
    hide Reinit, SelectChannel;
  }

  // ----- A new episode of failures -----

  /** The axis waits for initialisation with the shortest wait ahead of it. */
  predicate Fresh(a: Axis) { a.needsReinit ==> a.backoff == 1 && a.countdown <= 1 }

  lemma SelectedFresh(a: Axis, b: Axis, own: bool, reopened: bool)
    requires Fresh(a) && Selected(a, b, own, reopened)
    ensures Fresh(b)
  {
  }

  lemma SelectStartsFresh(e: Env, w: World, i: nat, j: nat)
    requires i < |w.axes| && j < |w.axes| && Fresh(w.axes[j])
    ensures Fresh(Select(e, w, i).0.axes[j])
  {
    hide Select, Fresh, Selected;
    var r := Select(e, w, i).0;
    SelectEffect(e, w, i, j);
    SelectedFresh(w.axes[j], r.axes[j], i == j, r.lib.marks.resets > w.lib.marks.resets);
  }

  ghost function FreshOf(j: nat): World -> bool { (x: World) => j < |x.axes| && Fresh(x.axes[j]) }

  lemma FreshInside(e: Env, j: nat, i: nat)
    ensures KeptInside(e, FreshOf(j), i)
  {
    hide Select, Fresh;
    forall a, b | FreshOf(j)(a) && Calm(a, b, i) ensures FreshOf(j)(b) { CalmStaysFresh(a, b, i, j); }
    forall a: World | FreshOf(j)(a) && i < |a.axes| ensures FreshOf(j)(Select(e, a, i).0) {
      SelectStartsFresh(e, a, i, j);
    }
  }

  /** When an axis starts to wait for initialisation, the first wait ahead is the shortest one,
      whatever it had come to before. Only configuring it once more is different: that leaves
      the wait where it was. */
  lemma EpisodeStartsAtOne(e: Env, w: World, c: Cmd, j: nat)
    requires j < |w.axes| && !w.axes[j].needsReinit && Next(e, w, c).axes[j].needsReinit
    ensures
      var a := Next(e, w, c).axes[j];
      if c.DoConfigure? && c.i == j && w.fd >= 0 then a.backoff == w.axes[j].backoff
        && a.countdown == w.axes[j].countdown
      else a.backoff == 1 && a.countdown <= 1
  {
    hide Poll, EnsureChannel, Configure, Fresh, KeptInside;
    var w1 := Later(w);
    FreshIfNotFlagged(w1.axes[j]);
    assert FreshOf(j)(w1);
    if IsCommand(c) {
      FreshInside(e, j, c.i);
      CommandKeeps(e, FreshOf(j), w1, c);
    }
    else if c.CtrlPoll? { OpeningStartsFresh(e, w1, j); }
    else if c.i < |w.axes| {
      if c.DoPoll? { PollStartsFresh(e, w1, c.i, j); }
      else { ConfigureStartsFresh(e, w1, c.i, c.c, j); }
    }
    FreshMeans(Next(e, w, c).axes[j]);
  }

  lemma FreshIfNotFlagged(a: Axis)
    ensures !a.needsReinit ==> Fresh(a)
  {
  }

  lemma FreshMeans(a: Axis)
    ensures Fresh(a) && a.needsReinit ==> a.backoff == 1 && a.countdown <= 1
  {
  }

  lemma CalmStaysFresh(a: World, b: World, i: nat, j: nat)
    requires Calm(a, b, i) && j < |a.axes| && Fresh(a.axes[j])
    ensures Fresh(b.axes[j])
  {
  }

  lemma OpeningStartsFresh(e: Env, w: World, j: nat)
    requires j < |w.axes| && Fresh(w.axes[j])
    ensures Fresh(EnsureChannel(e, w).0.axes[j])
  {
    hide OpenChannel;
  }

  lemma PollStartsFresh(e: Env, w: World, i: nat, j: nat)
    requires i < |w.axes| && j < |w.axes| && !w.axes[j].needsReinit
    ensures Fresh(Poll(e, w, i).0.axes[j])
  {
    hide Observe, PollReinit, KeptInside, Fresh;
    var (w1, go) := PollReinit(e, w, i);
    FreshIfNotFlagged(w.axes[j]);
    PollFlagsNobody(e, w, i, j);
    FreshIfNotFlagged(w1.axes[j]);
    if go {
      FreshInside(e, j, i);
      assert FreshOf(j)(w1);
      ObserveAfter(e, FreshOf(j), w1, i);
    }
  }

  lemma PollFlagsNobody(e: Env, w: World, i: nat, j: nat)
    requires i < |w.axes| && j < |w.axes| && !w.axes[j].needsReinit
    ensures !PollReinit(e, w, i).0.axes[j].needsReinit
  {
    hide Reinit, SelectChannel, Down, CountedDown, BackedOff, Restored;
  }

  lemma ConfigureStartsFresh(e: Env, w: World, i: nat, c: Config, j: nat)
    requires i < |w.axes| && j < |w.axes| && Fresh(w.axes[j])
    ensures
      var a := Configure(e, w, i, c).axes[j];
      if i == j && w.fd >= 0 then a.backoff == w.axes[j].backoff && a.countdown == w.axes[j].countdown else Fresh(a)
  {
    hide Reinit, SelectChannel;
  }

  /** Configured once, an axis starts every episode with the shortest wait. */
  lemma FirstConfigureStartsAtOne(e: Env, n: nat, mem: map<byte, Mem>, cs: seq<Cmd>, c: Cmd, j: nat)
    requires j < n
    requires var w := Run(e, Boot(e, n, mem), cs);
             && !w.axes[j].needsReinit && Next(e, w, c).axes[j].needsReinit
             && (c.DoConfigure? && c.i == j ==> !w.axes[j].configured)
    ensures
      var a := Next(e, Run(e, Boot(e, n, mem), cs), c).axes[j];
      a.backoff == 1 && a.countdown <= 1
  {
    hide Run, Boot, Next, Kept;
    AlwaysInRange(e, n, mem, cs);
    EpisodeStartsAtOne(e, Run(e, Boot(e, n, mem), cs), c, j);
  }

  /** In every reachable world waits are at most 30 polls, and backoffs come from the ladder. */
  lemma AlwaysInRange(e: Env, n: nat, mem: map<byte, Mem>, cs: seq<Cmd>)
    ensures AllInRange(Run(e, Boot(e, n, mem), cs))
  {
    hide Kept, OpenChannel, Run;
    RangeIsKept(e);
    RunKeeps(e, AllInRange, Boot(e, n, mem), cs);
  }

  // ----- Counting polls -----

  function Pow2(n: nat): nat { if n == 0 then 1 else 2 * Pow2(n - 1) }

  /** The wait after the failed attempt number n, counted from 0. */
  function Wait(n: nat): nat { if Pow2(n) < 30 then Pow2(n) else 30 }

  /** Wait, backoff and failed attempts of an axis whose attempts all fail, after p polls. */
  datatype Rung = Rung(countdown: nat, backoff: nat, failed: nat)

  function Climb(r: Rung): Rung {
    if r.countdown > 0 then r.(countdown := r.countdown - 1)
    else Rung(r.backoff, Doubled(r.backoff), r.failed + 1)
  }

  function Ladder(p: nat): Rung { if p == 0 then Rung(0, 1, 0) else Climb(Ladder(p - 1)) }

  /** The poll, counted from 0, that makes attempt number n. */
  function AttemptAt(n: nat): nat { if n == 0 then 0 else AttemptAt(n - 1) + 1 + Wait(n - 1) }

  lemma {:induction false} WaitDoubles(n: nat)
    ensures Wait(n + 1) == Doubled(Wait(n)) && Wait(n) >= 1
    decreases n
  {
    if n > 0 { WaitDoubles(n - 1); }
  }

  lemma LadderNext(p: nat)
    ensures Ladder(p + 1) == Climb(Ladder(p)) && Ladder(0) == Rung(0, 1, 0)
  {
  }

  lemma AttemptNext(n: nat)
    ensures AttemptAt(n + 1) == AttemptAt(n) + 1 + Wait(n) && AttemptAt(0) == 0 && Wait(0) == 1
  {
  }

  /** Attempt number n is made at poll AttemptAt(n), and is followed by exactly
      min(2^n, 30) polls that only wait. */
  lemma {:induction false} LadderShape(n: nat, k: nat)
    requires k <= Wait(n)
    ensures Ladder(AttemptAt(n)) == Rung(0, Wait(n), n)
    ensures Ladder(AttemptAt(n) + 1 + k) == Rung(Wait(n) - k, Wait(n + 1), n + 1)
    decreases n, k
  {
    hide Ladder, AttemptAt, Wait, Doubled;
    WaitDoubles(n);
    if k > 0 {
      LadderShape(n, k - 1);
      LadderNext(AttemptAt(n) + k);
    } else {
      AttemptNext(n);
      if n > 0 {
        LadderShape(n - 1, Wait(n - 1));
        AttemptNext(n - 1);
      }
      LadderNext(AttemptAt(n));
    }
  }
}
