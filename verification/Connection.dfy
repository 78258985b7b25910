/** The controller's one channel, over whole runs. */
module Connection {
  import opened Codec
  import opened TmlLib
  import opened Supervisor
  import opened Channels
  import opened Initialising
  import opened Lifting

  // ----- The controller's channel is the only one, and active -----

  ghost predicate Connected(w: World) { OneChannel(w.lib, w.fd) }

  lemma TrySelectStays(e: Env, l: Lib, fd: int, tries: nat)
    requires OneChannel(l, fd) && fd >= 0
    ensures TrySelect(e, l, fd, tries).0.tab == l.tab
    ensures e.native && tries > 0 ==> TrySelect(e, l, fd, tries).1
    decreases tries
  {
    if tries > 0 {
      SelectTheOne(e, l, fd);
      TrySelectStays(e, SelectChannel(e, l, fd).0, fd, tries - 1);
    }
  }

  lemma SelectingAxis(e: Env, l: Lib, id: byte)
    ensures
      var (r, ok) := SelectAxis(e, l, id);
      && SameChannels(l, r) && r.tab.setups == l.tab.setups
      && (ok ==> Addressed(r, id)) && (e.native && ActiveChan(l).Some? ==> ok)
  {
  }

  lemma Reopened(e: Env, w: World, now: real)
    requires Connected(w) && w.fd >= 0
    ensures
      var (l, fd) := OpenChannel(e, CloseChannel(w.lib, w.fd), now);
      OneChannel(l, fd)
  {
    CloseTheOne(w.lib, w.fd);
    OpenFromNone(e, CloseChannel(w.lib, w.fd), now);
  }

  lemma ReconnectKeepsConnected(e: Env, w: World, i: nat, now: real)
    requires Connected(w) && w.fd >= 0 && i < |w.axes|
    ensures Connected(Reconnect(e, w, i, now).0)
  {
    hide OpenChannel, CloseChannel, SelectChannel, Reinit, FlagAll;
    Reopened(e, w, now);
    var (l, fd) := OpenChannel(e, CloseChannel(w.lib, w.fd), now);
    if fd >= 0 {
      SelectTheOne(e, Tick(l), fd);
      var (l2, ok) := SelectChannel(e, Tick(l), fd);
      if ok {
        var a := w.axes[i].(setupIdx := -1);
        ReinitInitialises(e, StartedOver(l2), a);
        SameChannelsKeepsOne(StartedOver(l2), Reinit(e, StartedOver(l2), a).0, fd);
      }
    }
  }

  lemma SelectKeepsConnected(e: Env, w: World, i: nat)
    requires Connected(w) && i < |w.axes|
    ensures Connected(Select(e, w, i).0)
  {
    hide Reconnect, TrySelect, SelectAxis;
    if w.axes[i].configured && w.fd >= 0 {
      TrySelectStays(e, w.lib, w.fd, SELECT_TRIES);
      var (l, ok) := TrySelect(e, w.lib, w.fd, SELECT_TRIES);
      if ok { SelectingAxis(e, l, w.axes[i].cfg.id); }
      else { ReconnectKeepsConnected(e, w.(lib := Tick(l)), i, Now(e, l)); }
    }
  }

  lemma ReinitKeepsConnected(e: Env, w: World, i: nat, a: Axis)
    requires Connected(w) && w.fd >= 0
    ensures OneChannel(Reinit(e, SelectChannel(e, w.lib, w.fd).0, a).0, w.fd)
  {
    hide Reinit;
    SelectTheOne(e, w.lib, w.fd);
    var l := SelectChannel(e, w.lib, w.fd).0;
    ReinitInitialises(e, l, a);
    SameChannelsKeepsOne(l, Reinit(e, l, a).0, w.fd);
  }

  lemma ConnectedIsKept(e: Env)
    ensures Kept(e, Connected)
  {
    hide Select, PollReinit, Configure, EnsureChannel;
    forall a: World | Connected(a) ensures Connected(EnsureChannel(e, a).0) { OpeningKeepsConnected(e, a); }
    forall a: World, i | Connected(a) && 0 <= i < |a.axes| ensures Connected(Select(e, a, i).0) {
      SelectKeepsConnected(e, a, i);
    }
    forall a: World, i | Connected(a) && 0 <= i < |a.axes| ensures Connected(PollReinit(e, a, i).0) {
      PollKeepsConnected(e, a, i);
    }
    forall a: World, i, c | Connected(a) && 0 <= i < |a.axes| ensures Connected(Configure(e, a, i, c)) {
      ConfigureKeepsConnected(e, a, i, c);
    }
  }

  lemma OpeningKeepsConnected(e: Env, w: World)
    requires Connected(w)
    ensures Connected(EnsureChannel(e, w).0)
  {
    hide FlagAll, OpenChannel;
    if w.fd < 0 { OpenFromNone(e, Tick(w.lib), Now(e, w.lib)); }
  }

  lemma PollKeepsConnected(e: Env, w: World, i: nat)
    requires Connected(w) && i < |w.axes|
    ensures Connected(PollReinit(e, w, i).0)
  {
    hide Reinit;
    if w.fd >= 0 { ReinitKeepsConnected(e, w, i, w.axes[i]); }
  }

  lemma ConfigureKeepsConnected(e: Env, w: World, i: nat, c: Config)
    requires Connected(w) && i < |w.axes|
    ensures Connected(Configure(e, w, i, c))
  {
    hide Reinit;
    if w.fd >= 0 { ReinitKeepsConnected(e, w, i, Configured(w.axes[i], c)); }
  }

  lemma BootConnected(e: Env, n: nat, mem: map<byte, Mem>)
    ensures Connected(Boot(e, n, mem))
  {
    OpenFromNone(e, Tick(EmptyLib(mem)), Now(e, EmptyLib(mem)));
  }

  /** In every reachable world the descriptor held names the one channel in use, and without
      a descriptor there is no active channel. */
  lemma AlwaysConnected(e: Env, n: nat, mem: map<byte, Mem>, cs: seq<Cmd>)
    ensures Connected(Run(e, Boot(e, n, mem), cs))
  {
    BootConnected(e, n, mem);
    ConnectedIsKept(e);
    RunKeeps(e, Connected, Boot(e, n, mem), cs);
  }

  // ----- Natively selecting never fails -----

  /** With table lookups only, selecting a configured axis on an open channel succeeds at the
      first try, and no tier beyond the first is entered. */
  lemma NativeSelect(e: Env, w: World, i: nat)
    requires e.native && Connected(w) && i < |w.axes|
    ensures
      var (r, ok) := Select(e, w, i);
      && (ok <==> w.axes[i].configured && w.fd >= 0)
      && r == w.(lib := r.lib)
      && r.lib.opens == w.lib.opens && r.lib.marks == w.lib.marks
      && r.lib.sent == w.lib.sent && r.lib.mem == w.lib.mem && w.lib.t <= r.lib.t
      && (if ok then Addressed(r.lib, w.axes[i].cfg.id) else ActiveChan(w.lib) == None || !w.axes[i].configured)
  {
    hide TrySelect, SelectAxis;
    if w.axes[i].configured && w.fd >= 0 {
      TrySelectStays(e, w.lib, w.fd, SELECT_TRIES);
      SelectingAxis(e, TrySelect(e, w.lib, w.fd, SELECT_TRIES).0, w.axes[i].cfg.id);
    }
  }

  ghost predicate StillOn(w: World, fd: int, opens: seq<real>) {
    Connected(w) && w.fd == fd && w.lib.opens == opens
  }

  /** Natively a channel, once open, is never closed or opened again. */
  lemma NativeNeverReconnects(e: Env, w: World, cs: seq<Cmd>)
    requires e.native && Connected(w) && w.fd >= 0
    ensures Run(e, w, cs).fd == w.fd && Run(e, w, cs).lib.opens == w.lib.opens
  {
    hide Select, PollReinit, Configure;
    var inv := (x: World) => StillOn(x, w.fd, w.lib.opens);
    forall a: World, i | inv(a) && 0 <= i < |a.axes| ensures inv(Select(e, a, i).0) {
      NativeSelect(e, a, i);
      SelectKeepsConnected(e, a, i);
    }
    forall a: World, i | inv(a) && 0 <= i < |a.axes| ensures inv(PollReinit(e, a, i).0) {
      PollKeepsConnected(e, a, i);
      PollOpensNothing(e, a, i);
    }
    forall a: World, i, c | inv(a) && 0 <= i < |a.axes| ensures inv(Configure(e, a, i, c)) {
      ConfigureKeepsConnected(e, a, i, c);
      ConfigureOpensNothing(e, a, i, c);
    }
    RunKeeps(e, inv, w, cs);
  }

  lemma PollOpensNothing(e: Env, w: World, i: nat)
    requires i < |w.axes|
    ensures
      var r := PollReinit(e, w, i).0;
      r.fd == w.fd && r.last == w.last && r.lib.opens == w.lib.opens && r.lib.t >= w.lib.t
        && r.lib.marks.epoch == w.lib.marks.epoch
  {
    hide Reinit;
    if w.fd >= 0 { ReinitInitialises(e, SelectChannel(e, w.lib, w.fd).0, w.axes[i]); }
  }

  lemma ConfigureOpensNothing(e: Env, w: World, i: nat, c: Config)
    requires i < |w.axes|
    ensures
      var r := Configure(e, w, i, c);
      r.fd == w.fd && r.last == w.last && r.lib.opens == w.lib.opens && r.lib.t >= w.lib.t
        && r.lib.marks.epoch == w.lib.marks.epoch
  {
    hide Reinit;
    if w.fd >= 0 { ReinitInitialises(e, SelectChannel(e, w.lib, w.fd).0, Configured(w.axes[i], c)); }
  }
}
