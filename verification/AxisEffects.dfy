/** What selecting and initialising do to the axes. */
module AxisEffects {
  import opened Codec
  import opened TmlLib
  import opened Supervisor
  import opened Channels
  import opened Initialising

  /** The ways an axis can come out of a selection: of itself (`own`) or of another axis. */
  predicate Selected(a: Axis, b: Axis, own: bool, reopened: bool) {
    || b == a
    || (own && a.configured && b == Lost(a))
    || (reopened && !own && a.configured && b == Flagged(a).(active := false))
    || (reopened && own && a.configured && b == Recovered(a.(setupIdx := b.setupIdx), !b.needsReinit))
  }

  lemma RecoveredTells(a: Axis, ok: bool)
    ensures Recovered(a, ok).needsReinit == !ok && Recovered(a, ok).setupIdx == a.setupIdx
  {
  }

  lemma SelectedWays(a: Axis, own: bool, reopened: bool, idx: int, ok: bool)
    ensures Selected(a, a, own, reopened)
    ensures a.configured ==> Selected(a, Lost(a), true, reopened)
                             && Selected(a, Flagged(a).(active := false), false, true)
                             && Selected(a, Recovered(a.(setupIdx := idx), ok), true, true)
  {
    hide Recovered, Flagged, Lost;
    RecoveredTells(a.(setupIdx := idx), ok);
  }

  lemma ReconnectEffect(e: Env, w: World, i: nat, now: real, j: nat)
    requires i < |w.axes| && j < |w.axes| && w.axes[i].configured
    ensures Selected(w.axes[j], Reconnect(e, w, i, now).0.axes[j], i == j,
      Reconnect(e, w, i, now).0.lib.marks.resets > w.lib.marks.resets)
  {
    hide OpenChannel, CloseChannel, SelectChannel, Reinit, FlagAll, Recovered, Flagged, SameChannels, OnlyTo, SlotTaken,
      Selected;
    var (l, fd) := OpenChannel(e, CloseChannel(w.lib, w.fd), now);
    var (l2, ok) := SelectChannel(e, Tick(l), fd);
    var a := w.axes[i].(setupIdx := -1);
    var (l3, a', done) := Reinit(e, StartedOver(l2), a);
    ReinitInitialises(e, StartedOver(l2), a);
    assert a' == w.axes[i].(setupIdx := a'.setupIdx);
    SelectedWays(w.axes[j], i == j, Reconnect(e, w, i, now).0.lib.marks.resets > w.lib.marks.resets, a'.setupIdx, done);
  }

  lemma SelectEffect(e: Env, w: World, i: nat, j: nat)
    requires i < |w.axes| && j < |w.axes|
    ensures Selected(w.axes[j], Select(e, w, i).0.axes[j], i == j,
      Select(e, w, i).0.lib.marks.resets > w.lib.marks.resets)
  {
    hide TrySelect, SelectAxis, Reconnect, Recovered, Flagged, Lost;
    if w.axes[i].configured && w.fd >= 0 {
      var (l, ok) := TrySelect(e, w.lib, w.fd, SELECT_TRIES);
      if !ok && !Recent(Now(e, l), w.last, COOLDOWN) { ReconnectEffect(e, w.(lib := Tick(l)), i, Now(e, l), j); }
    }
  }

  /** What the axis is, as opposed to what it is doing. */
  predicate SameIdentity(a: Axis, b: Axis) { b.configured == a.configured && b.cfg == a.cfg }

  predicate SameMotion(a: Axis, b: Axis) { b.motion == a.motion }

  predicate Alike(a: Axis, b: Axis) { SameIdentity(a, b) && SameMotion(a, b) }

  lemma DownAlike(a: Axis)
    ensures Alike(a, Down(a))
  {
  }

  lemma CountedDownAlike(a: Axis)
    requires a.countdown > 0
    ensures Alike(a, CountedDown(a))
  {
  }

  lemma BackedOffAlike(a: Axis, idx: int)
    ensures Alike(a, BackedOff(a.(setupIdx := idx)))
  {
  }

  lemma RestoredAlike(a: Axis, idx: int)
    ensures Alike(a, Restored(a.(setupIdx := idx)))
  {
  }

  /** The initialising part of a poll changes neither, and touches no other axis. */
  lemma PollReinitEffect(e: Env, w: World, i: nat)
    requires i < |w.axes|
    ensures
      var r := PollReinit(e, w, i).0;
      && Alike(w.axes[i], r.axes[i])
      && (forall j :: 0 <= j < |w.axes| && j != i ==> r.axes[j] == w.axes[j])
      && (r.lib == w.lib || r.lib == Reinit(e, SelectChannel(e, w.lib, w.fd).0, w.axes[i]).0)
  {
    hide Reinit, SelectChannel, BackedOff, Restored, CountedDown, Down, Alike;
    var a := w.axes[i];
    var a' := Reinit(e, SelectChannel(e, w.lib, w.fd).0, a).1;
    AlikeItself(a);
    DownAlike(a);
    if a.countdown > 0 { CountedDownAlike(a); }
    BackedOffAlike(a, a'.setupIdx);
    RestoredAlike(a, a'.setupIdx);
  }

  lemma AlikeItself(a: Axis)
    ensures Alike(a, a)
  {
  }
}
