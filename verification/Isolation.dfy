/** Which drive a call for an axis talks to. */
module Isolation {
  import opened Codec
  import opened TmlLib
  import opened Supervisor
  import opened Channels
  import opened Initialising
  import opened AxisEffects
  import opened Lifting
  import opened Connection

  /** Since w only axis i's drive has been talked to, and the next call, if any can be made,
      goes there as well. */
  ghost predicate Aimed(w: World, i: nat, x: World) {
    && Connected(x) && |x.axes| == |w.axes| && i < |w.axes|
    && x.axes[i].configured && w.axes[i].configured && x.axes[i].cfg.id == w.axes[i].cfg.id
    && OnlyTo(w.lib, x.lib, w.axes[i].cfg.id)
    && (ActiveChan(x.lib) == None || Addressed(x.lib, w.axes[i].cfg.id))
  }

  ghost function AimedOf(w: World, i: nat): World -> bool { (x: World) => Aimed(w, i, x) }

  lemma TalkStaysAimed(a: World, b: World, k: nat, w: World, i: nat)
    requires Aimed(w, i, a) && Calm(a, b, k)
    ensures Aimed(w, i, b)
  {
    hide OneChannel, OnlyTo;
    SameChannelsKeepsOne(a.lib, b.lib, a.fd);
    TalkIsOnlyTo(a.lib, b.lib, w.axes[i].cfg.id);
    OnlyToOn(w.lib, a.lib, b.lib, w.axes[i].cfg.id);
  }

  /** Natively selecting the axis aims at it - or else there is no channel to talk on. */
  lemma SelectAims(e: Env, w: World, i: nat, x: World)
    requires e.native && Connected(x) && |x.axes| == |w.axes| && i < |w.axes|
    requires x.axes[i].configured && w.axes[i].configured && x.axes[i].cfg.id == w.axes[i].cfg.id
    requires OnlyTo(w.lib, x.lib, w.axes[i].cfg.id)
    ensures Aimed(w, i, Select(e, x, i).0)
  {
    hide Select, OneChannel, OnlyTo;
    NativeSelect(e, x, i);
    SelectKeepsConnected(e, x, i);
    var r := Select(e, x, i).0;
    NoCalls(x.lib, r.lib, w.axes[i].cfg.id);
    OnlyToOn(w.lib, x.lib, r.lib, w.axes[i].cfg.id);
    OneChannelIsInOrder(r.lib, r.fd);
    OneChannelIsInOrder(x.lib, x.fd);
  }

  lemma AimedIsKept(e: Env, w: World, i: nat)
    requires e.native
    ensures KeptInside(e, AimedOf(w, i), i)
  {
    hide Select, Connected, OnlyTo;
    var inv := AimedOf(w, i);
    forall a, b, k | inv(a) && Calm(a, b, k) ensures inv(b) { TalkStaysAimed(a, b, k, w, i); }
    forall a: World | inv(a) && i < |a.axes| ensures inv(Select(e, a, i).0) { SelectAims(e, w, i, a); }
  }

  /** A command for an axis that is not configured changes nothing and sends nothing. */
  lemma UnconfiguredIgnores(e: Env, w: World, c: Cmd)
    requires IsCommand(c) && c.i < |w.axes| && !w.axes[c.i].configured
    ensures Step(e, w, c).0 == w
  {
  }

  /** The drive a call is meant for. */
  function Target(w: World, c: Cmd): byte
    requires !c.CtrlPoll? && c.i < |w.axes|
  {
    if c.DoConfigure? then c.c.id else w.axes[c.i].cfg.id
  }

  lemma CommandAims(e: Env, w: World, c: Cmd)
    requires e.native && Connected(w) && IsCommand(c) && c.i < |w.axes|
    ensures OnlyTo(w.lib, Step(e, w, c).0.lib, w.axes[c.i].cfg.id)
  {
    hide Step, Select, OnlyTo, Connected, KeptInside, Aimed;
    var id := w.axes[c.i].cfg.id;
    NoCalls(w.lib, w.lib, id);
    if w.axes[c.i].configured {
      AimedIsKept(e, w, c.i);
      SelectAims(e, w, c.i, w);
      CommandBegins(e, AimedOf(w, c.i), w, c);
      if Aimed(w, c.i, Step(e, w, c).0) { AimedTells(w, c.i, Step(e, w, c).0); }
    } else { UnconfiguredIgnores(e, w, c); }
  }

  lemma AimedTells(w: World, i: nat, x: World)
    requires Aimed(w, i, x)
    ensures i < |w.axes| && OnlyTo(w.lib, x.lib, w.axes[i].cfg.id)
  {
    hide OnlyTo;
  }

  lemma PollReinitOnlyTo(e: Env, w: World, i: nat)
    requires i < |w.axes|
    ensures
      var r := PollReinit(e, w, i).0;
      OnlyTo(w.lib, r.lib, w.axes[i].cfg.id) && r.axes[i].cfg.id == w.axes[i].cfg.id
        && r.axes[i].configured == w.axes[i].configured
  {
    hide Reinit, SelectChannel, OnlyTo, SameChannels, SlotTaken, PollReinit;
    PollReinitEffect(e, w, i);
    var l := SelectChannel(e, w.lib, w.fd).0;
    var a := w.axes[i];
    NoCalls(w.lib, w.lib, a.cfg.id);
    NoCalls(w.lib, l, a.cfg.id);
    ReinitInitialises(e, l, a);
    OnlyToOn(w.lib, l, Reinit(e, l, a).0, a.cfg.id);
  }

  lemma PollAims(e: Env, w: World, i: nat)
    requires e.native && Connected(w) && i < |w.axes|
    ensures OnlyTo(w.lib, Poll(e, w, i).0.lib, w.axes[i].cfg.id)
  {
    hide PollReinit, Observe, Select, OnlyTo, Connected, KeptInside, Aimed;
    var id := w.axes[i].cfg.id;
    NoCalls(w.lib, w.lib, id);
    if w.axes[i].configured {
      var (w1, go) := PollReinit(e, w, i);
      PollReinitOnlyTo(e, w, i);
      PollKeepsConnected(e, w, i);
      if go {
        AimedIsKept(e, w, i);
        SelectAims(e, w, i, w1);
        ObserveKeeps(e, AimedOf(w, i), w1, i);
        AimedTells(w, i, Observe(e, w1, i).0);
      }
    }
  }

  lemma ConfigureOnlyTo(e: Env, w: World, i: nat, c: Config)
    requires i < |w.axes|
    ensures OnlyTo(w.lib, Configure(e, w, i, c).lib, c.id)
  {
    hide Reinit, SelectChannel, OnlyTo, SameChannels, SlotTaken;
    var l := SelectChannel(e, w.lib, w.fd).0;
    NoCalls(w.lib, w.lib, c.id);
    NoCalls(w.lib, l, c.id);
    ReinitInitialises(e, l, Configured(w.axes[i], c));
    OnlyToOn(w.lib, l, Reinit(e, l, Configured(w.axes[i], c)).0, c.id);
  }

  /** Natively, from any world with the one channel in order, a call for an axis talks to that
      axis's drive and to no other, and leaves every other drive's registers alone - also where the
      code goes on after a selection that failed. The controller's own poll talks to none. */
  lemma EveryCallIsAddressed(e: Env, w: World, c: Cmd)
    requires e.native && Connected(w)
    ensures if c.CtrlPoll? || c.i >= |w.axes| then Next(e, w, c).lib.sent == w.lib.sent
            else OnlyTo(w.lib, Next(e, w, c).lib, Target(w, c))
  {
    hide Poll, Configure, OnlyTo, OneChannel, OpenChannel, FlagAll;
    var w1 := Later(w);
    SameChannelsKeepsOne(w.lib, w1.lib, w.fd);
    if !c.CtrlPoll? && c.i < |w.axes| {
      NoCalls(w.lib, w1.lib, Target(w, c));
      OnlyToOn(w.lib, w1.lib, Step(e, w1, c).0.lib, Target(w, c)) by {
        if c.DoPoll? { PollAims(e, w1, c.i); }
        else if c.DoConfigure? { ConfigureOnlyTo(e, w1, c.i, c.c); }
        else { CommandAims(e, w1, c); }
      }
    }
  }
}
