/** What a poll publishes, bit by bit, and what it read it from. */
module Published {
  import opened Codec
  import opened Masks
  import opened TmlLib
  import opened Supervisor
  import opened Channels
  import opened Initialising
  import opened AxisEffects
  import opened Lifting
  import opened Connection
  import opened Slots
  import opened CoupledRuns
  import opened MaskRegister
  import opened Coupling
  import opened Maps
  import opened Scripts
  import opened Scripted

  // ----- What is made of the registers -----

  /** The axis after a poll that read SRL and MER; a poll that missed TPOS or SRL only says so. */
  ghost predicate Shown(a: Axis, b: Axis, moving: bool, ok: bool, srl: word, mer: word) {
    if !ok then b == a.(polls := a.polls + 1, commsError := true) && !moving
    else
      var p, on, complete := a.motion, HasBit(srl, 0x8000), HasBit(srl, 0x0400) || a.motion.stopping;
      var run := on && !complete;
      var seen := p.moveSeen || (p.homing && run);
      var over := p.homing && complete && (seen || HasBit(mer, if p.towardLsp then 0x40 else 0x80));
      var activated := a.activated || (on && !a.powered);
      && moving == run
      && b == Axis(
           a.cfg, a.configured, a.setupIdx, a.needsReinit, a.countdown, a.backoff, a.polls + 1, activated, on,
           Motion(p.stopping && !HasBit(srl, 0x0400), p.homing && !over, seen, p.towardLsp, complete, run,
             p.homed || over),
           if over then true else if p.homing then a.atHome else HasBit(mer, 0x0100),
           false,
           activated && on)
  }

  lemma ShownIs(a: Axis, r: Readings)
    ensures
      var o := Observed(a, r);
      Shown(a, if r.ok && Reached(o.motion, r.mer) then AtHome(o) else o, r.ok && o.motion.moving, r.ok, r.srl, r.mer)
  {
    BitsAre(r.srl, r.mer);
    hide HasBit, MotionComplete, AxisIsOn, HasLsp, HasLsn, AtHomeSwitch;
  }

  lemma BitsAre(srl: word, mer: word)
    ensures HasBit(srl, 0x8000) == AxisIsOn(srl) && HasBit(srl, 0x0400) == MotionComplete(srl)
    ensures HasBit(mer, 0x40) == HasLsp(mer) && HasBit(mer, 0x80) == HasLsn(mer)
    ensures HasBit(mer, 0x0100) == AtHomeSwitch(mer)
  {
  }

  // ----- Where they were read -----

  /** TPOS, APOS, SRL and MER read one after the other, from the axis with this id. */
  ghost predicate ReadFrom(sent: seq<Call>, k: nat, id: byte) {
    && k + 4 <= |sent|
    && sent[k].op == Read("TPOS") && sent[k + 1].op == Read("APOS")
    && sent[k + 2].op == Read("SRL") && sent[k + 3].op == Read("MER")
    && forall j :: k <= j < k + 4 ==> sent[j].dest == id
  }

  /** One read, and what it brought. */
  ghost predicate OneRead(l: Lib, r: Lib, name: string, id: byte, ok: bool, v: word) {
    && l.sent <= r.sent && |r.sent| == |l.sent| + 1
    && var c := r.sent[|l.sent|];
       c.op == Read(name) && c.dest == id && c.ok == ok && Got(c) == v
  }

  lemma ReadIs(e: Env, l: Lib, name: string, id: byte)
    requires Scripted.Aimed(l) && Addressed(l, id) && name in DEFAULTS
    ensures
      var (r, ok, v) := GetVar(e, l, name);
      OneRead(l, r, name, id, ok, v) && Scripted.Aimed(r) && Addressed(r, id)
  {
    hide Brought, MemAfter;
    AimedKnows(l, name);
  }

  lemma FourReads(e: Env, l: Lib, polls: nat, id: byte)
    requires Scripted.Aimed(l) && Addressed(l, id)
    ensures
      var (m, r) := ReadStatus(e, l, polls);
      var k := |l.sent|;
      && l.sent <= m.sent && ReadFrom(m.sent, k, id)
      && r == Readings(m.sent[k].ok && m.sent[k + 2].ok, Got(m.sent[k + 2]), Got(m.sent[k + 3]))
  {
    hide GetVar, ReadAll, Faulty, Talks, Scripted.Aimed, Addressed, Got, OneRead, ReadFrom;
    var (l1, tposOk, tpos) := GetVar(e, l, "TPOS");
    ReadIs(e, l, "TPOS", id);
    var (l2, aposOk, apos) := GetVar(e, l1, "APOS");
    ReadIs(e, l1, "APOS", id);
    var (l3, srlOk, srl) := GetVar(e, l2, "SRL");
    ReadIs(e, l2, "SRL", id);
    var (l4, merOk, mer) := GetVar(e, l3, "MER");
    ReadIs(e, l3, "MER", id);
    var names := (if Faulty(srl) then ["SRH"] else []) + (if polls % 10 == 0 then SLOW_READS else []);
    ReadAllPeeks(e, l4, names);
    var m := ReadStatus(e, l, polls).0;
    assert l4.sent <= m.sent;
    Stays(l, l1, m, "TPOS", id, tposOk, tpos) by {
      Prefixes(l1, l2, l3, l4, m, id, aposOk, apos, srlOk, srl, merOk, mer);
    }
    Stays(l1, l2, m, "APOS", id, aposOk, apos) by {
      Prefixes(l1, l2, l3, l4, m, id, aposOk, apos, srlOk, srl, merOk, mer);
    }
    Stays(l2, l3, m, "SRL", id, srlOk, srl) by {
      Prefixes(l1, l2, l3, l4, m, id, aposOk, apos, srlOk, srl, merOk, mer);
    }
    Stays(l3, l4, m, "MER", id, merOk, mer);
    ReadsInARow(m.sent, |l.sent|, id);
  }

  lemma Prefixes(l1: Lib, l2: Lib, l3: Lib, l4: Lib, m: Lib, id: byte, ok2: bool, v2: word, ok3: bool, v3: word,
    ok4: bool, v4: word)
    requires OneRead(l1, l2, "APOS", id, ok2, v2) && OneRead(l2, l3, "SRL", id, ok3, v3)
    requires OneRead(l3, l4, "MER", id, ok4, v4) && l4.sent <= m.sent
    ensures l1.sent <= m.sent && l2.sent <= m.sent && l3.sent <= m.sent
  {
    hide Got;
  }

  lemma Stays(l: Lib, r: Lib, m: Lib, name: string, id: byte, ok: bool, v: word)
    requires OneRead(l, r, name, id, ok, v) && r.sent <= m.sent
    ensures
      && l.sent <= m.sent && |r.sent| == |l.sent| + 1 <= |m.sent|
      && var c := m.sent[|l.sent|];
         c.op == Read(name) && c.dest == id && c.ok == ok && Got(c) == v
  {
    hide Got;
  }

  lemma ReadsInARow(sent: seq<Call>, k: nat, id: byte)
    requires k + 4 <= |sent|
    requires sent[k].op == Read("TPOS") && sent[k + 1].op == Read("APOS")
    requires sent[k + 2].op == Read("SRL") && sent[k + 3].op == Read("MER")
    requires sent[k].dest == id && sent[k + 1].dest == id && sent[k + 2].dest == id && sent[k + 3].dest == id
    ensures ReadFrom(sent, k, id)
  {
  }

  /** What one poll of an initialised axis did and shows: the reads from call k on, and the axis. */
  ghost predicate Polled(a: Axis, b: Axis, moving: bool, sent: seq<Call>, k: nat) {
    && ReadFrom(sent, k, a.cfg.id)
    && Shown(a, b, moving, sent[k].ok && sent[k + 2].ok, Got(sent[k + 2]), Got(sent[k + 3]))
  }

  lemma ObserveShows(e: Env, w: World, i: nat)
    requires Stands(e, w, i)
    ensures
      var (x, moving) := Observe(e, w, i);
      Polled(w.axes[i], x.axes[i], moving, x.lib.sent, |w.lib.sent|)
  {
    hide Select, ReadStatus, Observed, Reached, ZeroAtHome, Open, Scripted.Aimed, Talks, Shown, AtHome, ReadFrom;
    SelectSilent(e, w, i);
    NativeSelect(e, w, i) by { StandsConnected(e, w, i); }
    var w1 := Select(e, w, i).0;
    var a := w1.axes[i];
    var (l, r) := ReadStatus(e, w1.lib, a.polls);
    FourReads(e, w1.lib, a.polls, a.cfg.id);
    ShownIs(a, r);
    var w2 := Talked(w1, i, l, Observed(a, r));
    ObservedHoming(a, r);
    TalkedOpen(e, w1, i, l, Observed(a, r));
    ZeroSays(e, w2, i);
    var x := Observe(e, w, i).0;
    assert l.sent <= x.lib.sent;
    ReadsStay(l.sent, x.lib.sent, |w.lib.sent|, a.cfg.id);
  }

  lemma StandsConnected(e: Env, w: World, i: nat)
    requires Stands(e, w, i)
    ensures e.native && Connected(w) && w.fd >= 0 && i < |w.axes| && w.axes[i].configured
  {
  }

  lemma ZeroSays(e: Env, w: World, i: nat)
    requires Stands(e, w, i)
    ensures
      var x := ZeroAtHome(e, w, i);
      x.axes[i] == AtHome(w.axes[i]) && w.lib.sent <= x.lib.sent
  {
    hide Select, ZeroPosition, AtHome, Open, Scripted.Aimed;
    SelectSilent(e, w, i);
  }

  lemma ReadsStay(a: seq<Call>, b: seq<Call>, k: nat, id: byte)
    requires a <= b && ReadFrom(a, k, id)
    ensures ReadFrom(b, k, id) && b[k] == a[k] && b[k + 2] == a[k + 2] && b[k + 3] == a[k + 3]
  {
    assert forall j :: k <= j < k + 4 ==> b[j] == a[j];
  }

  // ----- Main result -----

  /** A poll that finds the axis waiting for its initialisation, and goes no further. */
  predicate StillWaits(a: Axis, b: Axis, moving: bool) {
    && a.needsReinit && b.needsReinit && b.commsError && !moving
    && b.motion == a.motion && b.powered == a.powered && b.activated == a.activated && b.active == a.active
    && b.atHome == a.atHome && b.polls == a.polls
  }

  function Renewal(a: Axis, b: Axis): Axis {
    a.(needsReinit := false, activated := true, active := true, commsError := false, setupIdx := b.setupIdx)
  }

  lemma PollShows(e: Env, w: World, i: nat) returns (k: nat)
    requires Stands(e, w, i) && (w.axes[i].setupIdx >= 0 ==> SetupLoaded(w.lib, w.axes[i].setupIdx))
    ensures
      var (x, moving) := Poll(e, w, i);
      var a, b := w.axes[i], x.axes[i];
      && k >= |w.lib.sent|
      && if b.needsReinit then StillWaits(a, b, moving)
         else Polled(if a.needsReinit then Renewal(a, b) else a, b, moving, x.lib.sent, k)
  {
    hide PollReinit, Observe, Played, InitScript, Supplied, Connected, Complete, SetupLoaded, Polled;
    var a := w.axes[i];
    k := |w.lib.sent|;
    var (w1, go) := PollReinit(e, w, i);
    if !a.needsReinit {
      NotFlagged(e, w, i);
      ObserveShows(e, w, i);
      PolledKeeps(a, Observe(e, w, i).0.axes[i], Observe(e, w, i).1, Observe(e, w, i).0.lib.sent, k);
    } else {
      PollReinitPlays(e, w, i);
      PollReinitShows(e, w, i);
      if go {
        k := |w1.lib.sent|;
        PlayedOnward(w.lib, w1.lib, InitScript(a.cfg));
        ObserveShows(e, w1, i);
        var (x, moving) := Observe(e, w1, i);
        PolledKeeps(w1.axes[i], x.axes[i], moving, x.lib.sent, k);
      }
    }
  }

  lemma PlayedOnward(l: Lib, r: Lib, p: seq<Piece>)
    ensures Played(l, r, true, p) ==> l.sent <= r.sent
  {
    hide Plays;
  }

  lemma PolledKeeps(a: Axis, b: Axis, moving: bool, sent: seq<Call>, k: nat)
    requires Polled(a, b, moving, sent, k)
    ensures b.needsReinit == a.needsReinit && b.setupIdx == a.setupIdx
  {
  }

  lemma PollReinitShows(e: Env, w: World, i: nat)
    requires i < |w.axes| && w.axes[i].needsReinit && w.fd >= 0
    ensures
      var (x, go) := PollReinit(e, w, i);
      var a, b := w.axes[i], x.axes[i];
      if go then b == Renewal(a, b) else StillWaits(a, b, false)
  {
    hide Reinit, SelectChannel;
    ReinitAxis(e, SelectChannel(e, w.lib, w.fd).0, w.axes[i]);
  }

  lemma ReinitAxis(e: Env, l: Lib, a: Axis)
    ensures Reinit(e, l, a).1 == a.(setupIdx := Reinit(e, l, a).1.setupIdx)
  {
    hide BringUp, AfterEndInit;
  }

  /** In every native run, with the channel open: a poll of an axis that still waits for its
      initialisation afterwards publishes a communication error. Any other read TPOS, APOS, SRL and
      MER of that axis, one after the other, and what it publishes is what those readings say - an
      error exactly if TPOS or SRL did not come through. */
  lemma PollsPublishWhatTheyRead(e: Env, n: nat, mem: map<byte, Mem>, cs: seq<Cmd>, i: nat) returns (k: nat)
    requires
      var w := Run(e, Boot(e, n, mem), cs);
      e.native && w.fd >= 0 && i < n && w.axes[i].configured
    ensures
      var w := Run(e, Boot(e, n, mem), cs);
      var (x, moving) := Step(e, Later(w), DoPoll(i));
      var a, b := w.axes[i], x.axes[i];
      && k >= |w.lib.sent|
      && if b.needsReinit then StillWaits(a, b, moving)
         else Polled(if a.needsReinit then Renewal(a, b) else a, b, moving, x.lib.sent, k)
  {
    hide Run, Boot, Poll, Conserved, SetupLoaded, HandedOn, Connected, Polled, Open;
    var v := Run(e, Boot(e, n, mem), cs);
    AlwaysConnected(e, n, mem, cs);
    AlwaysConserved(e, n, mem, cs);
    CompleteHandedOn(e);
    MapsInRuns(e, Complete, n, mem, cs);
    LaterOpen(e, v);
    if v.axes[i].setupIdx >= 0 {
      HeldIsLoaded(v, i);
      StillLoaded(v, v.axes[i].setupIdx);
    }
    k := PollShows(e, Later(v), i);
  }
}
