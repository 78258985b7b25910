/** How often the channel is opened. */
module Reconnects {
  import opened Codec
  import opened TmlLib
  import opened Supervisor
  import opened Channels
  import opened Initialising
  import opened Lifting
  import opened Connection

  /** The clock never goes back, and does not read a time in its first second. */
  ghost predicate Steady(e: Env) {
    (forall m, n :: 0 <= m <= n ==> e.clock(m) <= e.clock(n)) && forall n: nat :: e.clock(n) >= 1.0
  }

  /** There are such clocks, and with them links on which nothing goes unanswered. */
  lemma AnIdealEnvironment(file: string -> VarMap) returns (e: Env)
    ensures Steady(e) && Acked(e) && e.file == file
  {
    e := Env(true, 0, (t: nat) => 1.0 + t as real, (t: nat) => Reply(true, 0, 0, 0), file,
             (id: byte, at: word) => false, (t: nat) => map[], (id: byte) => DEFAULTS["MER_MASK"]);
  }

  ghost predicate Spaced(stamps: seq<real>) {
    forall k :: 0 < k < |stamps| ==> stamps[k] - stamps[k - 1] >= 3.0
  }

  /** The controller's note of its last attempt is not older than that attempt. */
  ghost predicate Paced(e: Env, w: World) {
    && Spaced(w.lib.opens) && |w.lib.opens| > 0
    && 1.0 <= w.last <= Now(e, w.lib)
    && w.lib.opens[|w.lib.opens| - 1] <= w.last
  }

  lemma ClockGoesOn(e: Env, l: Lib, r: Lib)
    requires Steady(e) && l.t <= r.t
    ensures Now(e, l) <= Now(e, r) && Now(e, r) >= 1.0
  {
  }

  lemma NothingOpened(e: Env, a: World, b: World)
    requires Steady(e) && Paced(e, a) && b.lib.opens == a.lib.opens && b.last == a.last && a.lib.t <= b.lib.t
    ensures Paced(e, b)
  {
    ClockGoesOn(e, a.lib, b.lib);
  }

  /** One more attempt, admitted at `stamp`. */
  lemma Attempted(e: Env, a: World, b: World, stamp: real)
    requires Steady(e) && Paced(e, a) && b.lib.opens == a.lib.opens + [stamp] && stamp - a.last >= COOLDOWN
    requires 1.0 <= b.last && stamp <= b.last <= Now(e, b.lib)
    ensures Paced(e, b)
  {
  }

  lemma EnsurePaced(e: Env, w: World)
    requires Steady(e) && Paced(e, w)
    ensures Paced(e, EnsureChannel(e, w).0)
  {
    hide OpenChannel, FlagAll, Steady, Paced, Spaced;
    var b := EnsureChannel(e, w).0;
    ClockGoesOn(e, w.lib, b.lib);
    ClockGoesOn(e, w.lib, w.lib);
    assert 1.0 <= w.last by { LastIsReal(e, w); }
    if b.lib.opens == w.lib.opens { NothingOpened(e, w, b); }
    else { Attempted(e, w, b, Now(e, w.lib)); }
  }

  lemma LastIsReal(e: Env, w: World)
    requires Paced(e, w)
    ensures 1.0 <= w.last
  {
  }

  lemma ReconnectPaced(e: Env, w: World, i: nat, now: real)
    requires Steady(e) && Paced(e, w) && i < |w.axes|
    requires 1.0 <= now <= Now(e, w.lib) && now - w.last >= COOLDOWN
    ensures Paced(e, Reconnect(e, w, i, now).0)
  {
    hide OpenChannel, CloseChannel, SelectChannel, Reinit, FlagAll, Steady, Paced, Spaced, SameChannels, OnlyTo,
      SlotTaken;
    var (l, fd) := OpenChannel(e, CloseChannel(w.lib, w.fd), now);
    var l2 := StartedOver(SelectChannel(e, Tick(l), fd).0);
    ReinitInitialises(e, l2, w.axes[i].(setupIdx := -1));
    var b := Reconnect(e, w, i, now).0;
    ClockGoesOn(e, w.lib, l);
    ClockGoesOn(e, l, b.lib);
    Attempted(e, w, b, now);
  }

  lemma SelectPaced(e: Env, w: World, i: nat)
    requires Steady(e) && Paced(e, w) && i < |w.axes|
    ensures Paced(e, Select(e, w, i).0)
  {
    hide Reconnect, TrySelect, Steady, Paced;
    if w.axes[i].configured && w.fd >= 0 {
      var (l, ok) := TrySelect(e, w.lib, w.fd, SELECT_TRIES);
      if ok || Recent(Now(e, l), w.last, COOLDOWN) { NothingOpened(e, w, Select(e, w, i).0); }
      else {
        var w1 := w.(lib := Tick(l));
        NothingOpened(e, w, w1);
        LastIsReal(e, w);
        ClockGoesOn(e, l, w1.lib);
        ClockGoesOn(e, w.lib, l);
        ReconnectPaced(e, w1, i, Now(e, l));
      }
    }
  }

  lemma PacedIsKept(e: Env)
    requires Steady(e)
    ensures Kept(e, w => Paced(e, w))
  {
    hide Select, PollReinit, Configure, EnsureChannel, Paced, Calm, Steady;
    var inv := (w: World) => Paced(e, w);
    forall a: World | inv(a) ensures inv(Later(a)) { NothingOpened(e, a, Later(a)); }
    forall a, b, i | inv(a) && Calm(a, b, i) ensures inv(b) { CalmOpensNothing(a, b, i); NothingOpened(e, a, b); }
    forall a: World | inv(a) ensures inv(EnsureChannel(e, a).0) { EnsurePaced(e, a); }
    forall a: World, i | inv(a) && 0 <= i < |a.axes| ensures inv(Select(e, a, i).0) { SelectPaced(e, a, i); }
    forall a: World, i | inv(a) && 0 <= i < |a.axes| ensures inv(PollReinit(e, a, i).0) {
      PollOpensNothing(e, a, i);
      NothingOpened(e, a, PollReinit(e, a, i).0);
    }
    forall a: World, i, c | inv(a) && 0 <= i < |a.axes| ensures inv(Configure(e, a, i, c)) {
      ConfigureOpensNothing(e, a, i, c);
      NothingOpened(e, a, Configure(e, a, i, c));
    }
  }

  lemma CalmOpensNothing(a: World, b: World, i: nat)
    requires Calm(a, b, i)
    ensures b.lib.opens == a.lib.opens && b.last == a.last && a.lib.t <= b.lib.t
  {
  }

  lemma BootPaced(e: Env, n: nat, mem: map<byte, Mem>)
    requires Steady(e)
    ensures Paced(e, Boot(e, n, mem))
  {
    hide OpenChannel;
    var l := EmptyLib(mem);
    var l' := OpenChannel(e, Tick(l), Now(e, l)).0;
    ClockGoesOn(e, l, l');
    ClockGoesOn(e, l', Tick(l'));
    ClockGoesOn(e, l, l);
  }

  /** With a clock that does not go back, attempts to open the channel are at least 3 s apart
      in every run. */
  lemma OpensAreSpaced(e: Env, n: nat, mem: map<byte, Mem>, cs: seq<Cmd>)
    requires Steady(e)
    ensures Spaced(Run(e, Boot(e, n, mem), cs).lib.opens)
  {
    hide Kept, Boot, Run, Spaced, Steady;
    BootPaced(e, n, mem);
    PacedIsKept(e);
    RunKeeps(e, w => Paced(e, w), Boot(e, n, mem), cs);
  }

  /** The controller poll leaves at least 10 s between the previous attempt and its own. */
  lemma EnsureWaitsLonger(e: Env, n: nat, mem: map<byte, Mem>, cs: seq<Cmd>)
    requires Steady(e)
    ensures
      var w := Run(e, Boot(e, n, mem), cs);
      var opens := Next(e, w, CtrlPoll).lib.opens;
      && |w.lib.opens| > 0
      && (opens == w.lib.opens
          || (|opens| == |w.lib.opens| + 1 && opens[|opens| - 1] - w.lib.opens[|w.lib.opens| - 1] >= 10.0))
  {
    hide Kept, Boot, Run, Spaced, Steady, OpenChannel, FlagAll;
    BootPaced(e, n, mem);
    PacedIsKept(e);
    RunKeeps(e, w => Paced(e, w), Boot(e, n, mem), cs);
  }

  // ----- Any window of time -----

  function Within(stamps: seq<real>, from: real, to: real): nat {
    if stamps == [] then 0
    else
      var x := stamps[|stamps| - 1];
      Within(stamps[..|stamps| - 1], from, to) + (if from <= x <= to then 1 else 0)
  }

  lemma {:induction false} AllBefore(stamps: seq<real>, k: nat)
    requires Spaced(stamps) && k < |stamps|
    ensures stamps[k] <= stamps[|stamps| - 1] - (if k < |stamps| - 1 then 3.0 else 0.0)
    decreases |stamps|
  {
    if k < |stamps| - 1 { AllBefore(stamps[..|stamps| - 1], k); }
  }

  /** A later end that no stamp reaches makes no difference. */
  lemma {:induction false} SameWithin(stamps: seq<real>, from: real, to: real, cut: real)
    requires cut <= to && forall k :: 0 <= k < |stamps| ==> stamps[k] <= cut || stamps[k] > to
    ensures Within(stamps, from, to) == Within(stamps, from, cut)
    decreases |stamps|
  {
    if stamps != [] { SameWithin(stamps[..|stamps| - 1], from, to, cut); }
  }

  lemma {:induction false} NoneWithin(stamps: seq<real>, from: real, to: real)
    requires to < from
    ensures Within(stamps, from, to) == 0
    decreases |stamps|
  {
    if stamps != [] { NoneWithin(stamps[..|stamps| - 1], from, to); }
  }

  lemma {:induction false} WindowHolds(stamps: seq<real>, from: real, to: real)
    requires Spaced(stamps) && from <= to
    ensures Within(stamps, from, to) <= 1 + ((to - from) / 3.0).Floor
    decreases |stamps|
  {
    if stamps != [] {
      var rest, x := stamps[..|stamps| - 1], stamps[|stamps| - 1];
      if from <= x <= to {
        var cut := x - 3.0;
        forall k | 0 <= k < |rest| ensures rest[k] <= cut { AllBefore(stamps, k); }
        SameWithin(rest, from, to, cut);
        if from <= cut { WindowHolds(rest, from, cut); } else { NoneWithin(rest, from, cut); }
      } else {
        WindowHolds(rest, from, to);
      }
    }
  }

  /** Any window of T seconds contains at most 1 + floor(T / 3) attempts. */
  lemma OpensPerWindow(e: Env, n: nat, mem: map<byte, Mem>, cs: seq<Cmd>, from: real, T: real)
    requires Steady(e) && T >= 0.0
    ensures Within(Run(e, Boot(e, n, mem), cs).lib.opens, from, from + T) <= 1 + (T / 3.0).Floor
  {
    hide Run, Boot, Spaced;
    OpensAreSpaced(e, n, mem, cs);
    WindowHolds(Run(e, Boot(e, n, mem), cs).lib.opens, from, from + T);
  }
}
