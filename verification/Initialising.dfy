/** What initialising one axis does: to the tables, to the marks of the open channel, and to
    the wire. */
module Initialising {
  import opened Codec
  import opened TmlLib
  import opened Supervisor
  import opened Channels

  /** Every new call went to this id, and no other drive's registers changed. */
  ghost predicate OnlyTo(l: Lib, r: Lib, id: byte) {
    && l.sent <= r.sent
    && (forall j :: |l.sent| <= j < |r.sent| ==> r.sent[j].dest == id)
    && (forall other :: other != id ==> Drive(r, other) == Drive(l, other))
  }

  lemma OnlyToOn(l: Lib, m: Lib, r: Lib, id: byte)
    requires OnlyTo(l, m, id) && OnlyTo(m, r, id)
    ensures OnlyTo(l, r, id)
  {
    forall j | |l.sent| <= j < |r.sent| ensures r.sent[j].dest == id {
      if j < |m.sent| { assert r.sent[j] == m.sent[j]; }
    }
  }

  lemma TalkIsOnlyTo(l: Lib, r: Lib, id: byte)
    requires Talks(l, r) && (ActiveChan(l) == None || Addressed(l, id))
    ensures OnlyTo(l, r, id)
  {
  }

  /** An ENDINIT to this id, acknowledged. */
  predicate TakenEndInit(c: Call, id: byte) { c.dest == id && c.op == EndInit && c.ok }

  /** There is one in the log from call number `from` on. */
  ghost predicate EndInitFrom(l: Lib, from: nat, id: byte) {
    exists k :: from <= k < |l.sent| && TakenEndInit(l.sent[k], id)
  }

  lemma EndInitStays(l: Lib, r: Lib, from: nat, earlier: nat, id: byte)
    requires EndInitFrom(l, from, id) && l.sent <= r.sent && earlier <= from
    ensures EndInitFrom(r, earlier, id)
  {
    var k :| from <= k < |l.sent| && TakenEndInit(l.sent[k], id);
    assert r.sent[k] == l.sent[k];
  }

  /** The calls from l to r are `count` ENDINITs to id; only the last may be acknowledged. */
  ghost predicate EndInits(l: Lib, r: Lib, id: byte, count: nat, ok: bool) {
    && l.sent <= r.sent && |r.sent| == |l.sent| + count
    && (forall k :: |l.sent| <= k < |r.sent| ==> r.sent[k].dest == id && r.sent[k].op == EndInit)
    && (forall k :: |l.sent| <= k < |r.sent| ==> r.sent[k].ok == (ok && k == |r.sent| - 1))
  }

  /** Initialising a drive sends it one ENDINIT after the other, at most as many as are allowed
      and none after one that is acknowledged; it succeeds exactly if the last one is. */
  lemma {:induction false} EndInitsSent(e: Env, l: Lib, id: byte, tries: nat) returns (count: nat)
    requires Addressed(l, id)
    ensures
      var (r, ok) := DriveInitialisation(e, l, tries);
      EndInits(l, r, id, count, ok) && count <= tries && (ok ==> count >= 1) && (!ok ==> count == tries)
    decreases tries
  {
    hide Talks;
    count := 0;
    if tries > 0 {
      var (l', a) := Send(e, l, EndInit);
      StillAddressedTo(l, l', id);
      count := 1;
      if !a.ok {
        var n := EndInitsSent(e, l', id, tries - 1);
        count := n + 1;
      }
    }
  }

  lemma StillAddressedTo(l: Lib, r: Lib, id: byte)
    requires Talks(l, r) && Addressed(l, id)
    ensures Addressed(r, id)
  {
  }

  /** A setup slot is taken only by an axis that holds none, and then the first free one. */
  ghost predicate SlotTaken(l: Lib, r: Lib, had: int, has: int) {
    var s := FreeSlot(l.tab.setups, 0);
    if had >= 0 then r.tab.setups == l.tab.setups && has == had
    else if s == None then r.tab.setups == l.tab.setups && has == -1
    else
      && |r.tab.setups| == |l.tab.setups| && r.tab.setups[s.value].Some?
      && r.tab.setups == l.tab.setups[s.value := r.tab.setups[s.value]] && has == s.value
  }

  /** Nothing but the active channel's axis and variables, the marks, and calls to id. */
  ghost predicate BroughtUp(l: Lib, r: Lib, id: byte, idx: int, ok: bool) {
    && r.opens == l.opens && r.tab.setups == l.tab.setups && SameChannels(l, r)
    && l.t <= r.t && r.marks.epoch == l.marks.epoch && r.marks.resets == l.marks.resets
    && OnlyTo(l, r, id)
    && l.marks.setupDone <= r.marks.setupDone && r.marks.since == l.marks.since
    && (ok ==> Addressed(r, id) && SetupLoaded(l, idx) && (id, idx) in r.marks.setupDone
               && EndInitFrom(r, |l.sent|, id))
  }

  lemma InitialisationOnlyTo(e: Env, l: Lib, id: byte, tries: nat)
    requires Addressed(l, id)
    ensures OnlyTo(l, DriveInitialisation(e, l, tries).0, id)
  {
    hide DriveInitialisation;
    var r := DriveInitialisation(e, l, tries).0;
    TalkIsOnlyTo(l, r, id);
  }

  lemma BringingUp(e: Env, l: Lib, id: byte, idx: int)
    ensures BroughtUp(l, BringUp(e, l, id, idx).0, id, idx, BringUp(e, l, id, idx).1)
  {
    hide DriveInitialisation, OnlyTo, Talks, SelectAxis, SetupAxis;
    var (l1, ok1) := SetupAxis(e, l, id, idx);
    assert OnlyTo(l, l, id) && OnlyTo(l, l1, id) by { NoCalls(l, l, id); NoCalls(l, l1, id); }
    if ok1 {
      assert (id, idx) in l1.marks.setupDone;
      var (l2, ok2) := SelectAxis(e, l1, id);
      NoCalls(l, l2, id);
      if ok2 {
        InitialisationOnlyTo(e, l2, id, ENDINIT_TRIES);
        var l3 := DriveInitialisation(e, l2, ENDINIT_TRIES).0;
        OnlyToOn(l, l2, l3, id);
        TalksKeeps(l2, l3);
        if DriveInitialisation(e, l2, ENDINIT_TRIES).1 { LastIsTaken(e, l2, id); }
      }
    }
  }

  lemma LastIsTaken(e: Env, l: Lib, id: byte)
    requires Addressed(l, id) && DriveInitialisation(e, l, ENDINIT_TRIES).1
    ensures EndInitFrom(DriveInitialisation(e, l, ENDINIT_TRIES).0, |l.sent|, id)
  {
    hide Talks, DriveInitialisation;
    var r := DriveInitialisation(e, l, ENDINIT_TRIES).0;
    var count := EndInitsSent(e, l, id, ENDINIT_TRIES);
    assert TakenEndInit(r.sent[|r.sent| - 1], id);
  }

  lemma NoCalls(l: Lib, r: Lib, id: byte)
    requires r.sent == l.sent && r.mem == l.mem
    ensures OnlyTo(l, r, id)
  {
  }

  lemma TalksKeeps(l: Lib, r: Lib)
    requires Talks(l, r)
    ensures r == l.(t := r.t, sent := r.sent, mem := r.mem) && l.t <= r.t
  {
  }

  lemma SettlingDown(e: Env, l: Lib, a: Axis)
    requires Addressed(l, a.cfg.id)
    ensures
      var r := AfterEndInit(e, l, a);
      && r.tab == l.tab && r.opens == l.opens && r.marks == l.marks && l.t <= r.t
      && OnlyTo(l, r, a.cfg.id) && SameChannels(l, r)
  {
    hide AfterEndInit;
  }

  lemma SettingUp(e: Env, l: Lib, a: Axis, idx: int)
    ensures BroughtUp(l, SetUp(e, l, a, idx).0, a.cfg.id, idx, SetUp(e, l, a, idx).1)
  {
    hide BringUp, AfterEndInit, OnlyTo, SameChannels;
    BringingUp(e, l, a.cfg.id, idx);
    var (l', ok) := BringUp(e, l, a.cfg.id, idx);
    if ok {
      SettlingDown(e, l', a);
      OnlyToOn(l, l', AfterEndInit(e, l', a), a.cfg.id);
      OnlyToGrows(l', AfterEndInit(e, l', a), a.cfg.id);
      EndInitStays(l', AfterEndInit(e, l', a), |l.sent|, |l.sent|, a.cfg.id);
      SameChannelsOn(l, l', AfterEndInit(e, l', a));
    }
  }

  lemma OnlyToGrows(l: Lib, r: Lib, id: byte)
    requires OnlyTo(l, r, id)
    ensures l.sent <= r.sent
  {
  }

  lemma Holding(e: Env, l: Lib, a: Axis)
    ensures
      var (r, idx) := Hold(e, l, a);
      && r == l.(tab := l.tab.(setups := r.tab.setups))
      && SlotTaken(l, r, a.setupIdx, idx) && OnlyTo(l, r, a.cfg.id) && SameChannels(l, r)
  {
  }

  lemma TakenBefore(l: Lib, m: Lib, r: Lib, had: int, has: int)
    requires SlotTaken(l, m, had, has) && r.tab.setups == m.tab.setups
    ensures SlotTaken(l, r, had, has)
  {
  }

  ghost predicate Initialised(l: Lib, r: Lib, a: Axis, a': Axis, ok: bool) {
    && r.opens == l.opens && l.t <= r.t && r.marks.epoch == l.marks.epoch && r.marks.resets == l.marks.resets
    && SameChannels(l, r) && SlotTaken(l, r, a.setupIdx, a'.setupIdx) && OnlyTo(l, r, a.cfg.id)
    && l.marks.setupDone <= r.marks.setupDone && r.marks.since == l.marks.since
    && (ok ==> Addressed(r, a.cfg.id) && SetupLoaded(r, a'.setupIdx)
               && (a.cfg.id, a'.setupIdx) in r.marks.setupDone && EndInitFrom(r, |l.sent|, a.cfg.id))
  }

  /** Initialising sends only to the axis itself, takes at most one setup slot, and where it
      succeeds the axis is set up, selected and has taken ENDINIT. */
  lemma ReinitInitialises(e: Env, l: Lib, a: Axis)
    ensures Initialised(l, Reinit(e, l, a).0, a, Reinit(e, l, a).1, Reinit(e, l, a).2)
  {
    hide SetUp, Hold, OnlyTo, SameChannels, SlotTaken;
    var (l1, idx) := Hold(e, l, a);
    Holding(e, l, a);
    if idx >= 0 {
      SettingUp(e, l1, a, idx);
      var (l2, ok) := SetUp(e, l1, a, idx);
      OnlyToOn(l, l1, l2, a.cfg.id);
      SameChannelsOn(l, l1, l2);
      TakenBefore(l, l1, l2, a.setupIdx, idx);
    }
  }

  // ----- When nothing goes unanswered -----

  /** Everything sent is acknowledged. Opening the channel may still fail. */
  ghost predicate Acked(e: Env) { e.native && forall t: nat :: e.reply(t).ok }

  /** With every call acknowledged and a loaded setup in hand, initialising succeeds. */
  lemma AckedReinitSucceeds(e: Env, l: Lib, a: Axis)
    requires Acked(e) && ActiveChan(l).Some?
    requires if a.setupIdx < 0 then FreeSlot(l.tab.setups, 0).Some? else SetupLoaded(l, a.setupIdx)
    ensures Reinit(e, l, a).2
  {
    hide AfterEndInit;
    var (l1, idx) := Hold(e, l, a);
    assert SetupLoaded(l1, idx) && ActiveChan(l1).Some?;
    AckedBringUpSucceeds(e, l1, a.cfg.id, idx);
  }

  lemma AckedBringUpSucceeds(e: Env, l: Lib, id: byte, idx: int)
    requires Acked(e) && ActiveChan(l).Some? && SetupLoaded(l, idx)
    ensures BringUp(e, l, id, idx).1
  {
    hide Talks;
    var l1 := SetupAxis(e, l, id, idx).0;
    var l2 := SelectAxis(e, l1, id).0;
    assert ActiveChan(l2).Some?;
    assert Send(e, l2, EndInit).1 == e.reply(l2.t);
  }
}
