/** What it takes for an axis to be shown as homed, told from calls and log alone. */
module Homing {
  import opened Codec
  import opened Masks
  import opened TmlLib
  import opened Supervisor
  import opened AxisEffects
  import opened AxisMotion
  import opened AxisOutcomes
  import opened Stopping

  /** How homing stands after a run: none under way, or one towards a limit, since whose start
      a poll has seen the motor turn or not. */
  datatype Course = NoHome | HomeTo(lsp: bool, seen: bool)

  /** A poll read SRL with motion complete clear and the axis powered. */
  ghost predicate TurningRead(l: Lib, r: Lib) {
    exists srl :: WasRead(l, r, "SRL", srl) && !MotionComplete(srl) && AxisIsOn(srl)
  }

  /** SRL was read with motion complete set. */
  ghost predicate CompleteRead(l: Lib, r: Lib) {
    exists srl :: WasRead(l, r, "SRL", srl) && MotionComplete(srl)
  }

  ghost predicate Raised(w: World, x: World, i: nat) {
    i < |w.axes| && i < |x.axes| && !w.axes[i].motion.homed && x.axes[i].motion.homed
  }

  /** One call's part in it. A home that was taken starts a course; a stop ends it, and so do a
      move or jog that got past power-on, and homing on the spot; a poll may see the motor turn,
      and ends the course when it shows the axis as homed. */
  ghost function After(e: Env, before: Course, w: World, c: Cmd, i: nat): Course
    requires i < |w.axes|
  {
    var (x, ok) := Step(e, w, c);
    match c
    case DoHome(k, _, _, _, forwards) => if k == i && ok then HomeTo(forwards, false) else before
    case DoForceHome(k, _, _) =>
      if k == i && ok then (if x.axes[i].motion.homed then NoHome else HomeTo(w.axes[i].cfg.useLsp, false))
      else before
    case DoStop(k) => if k == i && w.axes[i].configured then NoHome else before
    case DoMove(k, _, _, _, _) => if k == i && MoveSent(w.lib, x.lib) then NoHome else before
    case DoJog(k, _, _) => if k == i && MoveSent(w.lib, x.lib) then NoHome else before
    case DoPoll(k) =>
      if k == i && Raised(w, x, i) then NoHome
      else if k == i && before.HomeTo? && TurningRead(w.lib, x.lib) then before.(seen := true)
      else before
    case _ => before
  }

  ghost function CourseOf(e: Env, w: World, cs: seq<Cmd>, i: nat): Course
    requires i < |w.axes|
    decreases |cs|
  {
    if cs == [] then NoHome
    else After(e, CourseOf(e, w, cs[..|cs| - 1], i), Later(Run(e, w, cs[..|cs| - 1])), cs[|cs| - 1], i)
  }

  /** The driver's homing state says no more than calls and log do. */
  predicate Tracks(course: Course, p: Motion) {
    && (p.homing <==> course.HomeTo?)
    && (course.HomeTo? ==> p.towardLsp == course.lsp && (p.moveSeen ==> course.seen))
  }

  lemma QuietTracks(course: Course, w: World, x: World, i: nat)
    requires Quiet(w, x, i) && Tracks(course, M(w.axes[i]))
    ensures i < |x.axes| && Tracks(course, M(x.axes[i]))
  {
    hide SameIdentity;
  }

  lemma QuietRaisesNot(w: World, x: World, i: nat)
    requires Quiet(w, x, i)
    ensures !Raised(w, x, i)
  {
    hide SameIdentity;
  }

  /** A poll that shows the axis as homed met it homing; any other may see it turn. */
  lemma PollTracks(course: Course, w: World, x: World, i: nat, moving: bool)
    requires PollOutcome(w, x, i, moving) && i < |w.axes| && Sane(M(w.axes[i])) && Tracks(course, M(w.axes[i]))
    ensures i < |x.axes|
    ensures Raised(w, x, i) ==> course.HomeTo? && !M(x.axes[i]).homing
    ensures !Raised(w, x, i) ==>
              Tracks(if course.HomeTo? && TurningRead(w.lib, x.lib) then course.(seen := true) else course,
                M(x.axes[i]))
  {
    hide M, SameIdentity, WasRead, MotionComplete, AxisIsOn, LimitBit;
    Homed(w.axes[i]);
    if p1, srl, mer :| Published(w.lib, x.lib, M(w.axes[i]), M(x.axes[i]), moving, p1, srl, mer) {
      Homed(x.axes[i]);
      NoLimitInZero(p1.towardLsp);
      assert WasRead(w.lib, x.lib, "SRL", srl);
      assert LimitBit(mer, p1.towardLsp) ==> WasRead(w.lib, x.lib, "MER", mer);
    } else {
      QuietTracks(course, w, x, i);
      QuietRaisesNot(w, x, i);
    }
  }

  lemma Homed(a: Axis)
    ensures M(a).homed == a.motion.homed
  {
  }

  lemma MoveTracks(course: Course, w: World, x: World, i: nat, ok: bool)
    requires MoveOutcome(w, x, i, ok) && i < |w.axes| && Tracks(course, M(w.axes[i]))
    ensures i < |x.axes| && Tracks(if MoveSent(w.lib, x.lib) then NoHome else course, M(x.axes[i])) && !Raised(w, x, i)
  {
    hide M, MoveSent, SameIdentity;
    Homed(w.axes[i]);
    if MoveSent(w.lib, x.lib) { Homed(x.axes[i]); }
    else {
      QuietTracks(course, w, x, i);
      QuietRaisesNot(w, x, i);
    }
  }

  lemma HomeTracks(course: Course, w: World, x: World, i: nat, forwards: bool, ok: bool)
    requires HomeOutcome(w, x, i, forwards, ok) && i < |w.axes| && Tracks(course, M(w.axes[i]))
    ensures i < |x.axes| && Tracks(if ok then HomeTo(forwards, false) else course, M(x.axes[i]))
    ensures !Raised(w, x, i) && (ok ==> !x.axes[i].motion.homed)
  {
    hide M, MoveSent, SameIdentity;
    if ok { Homed(x.axes[i]); }
    else {
      QuietTracks(course, w, x, i);
      QuietRaisesNot(w, x, i);
    }
  }

  lemma ZeroTracks(w: World, x: World, i: nat)
    requires ZeroOutcome(w, x, i) && i < |w.axes|
    ensures i < |x.axes| && Tracks(NoHome, M(x.axes[i])) && x.axes[i].motion.homed
  {
    hide M, SameIdentity;
    Homed(x.axes[i]);
  }

  lemma ForceTracks(e: Env, course: Course, w: World, i: nat, velo: real, accl: real)
    requires i < |w.axes| && Tracks(course, M(w.axes[i]))
    ensures
      var (x, ok) := ForceHome(e, w, i, velo, accl);
      && Tracks(if !ok then course else if x.axes[i].motion.homed then NoHome else HomeTo(w.axes[i].cfg.useLsp, false),
         M(x.axes[i]))
      && (Raised(w, x, i) ==> ok && SwitchFound(e, w, i))
  {
    hide M, ForceHome, HomeOutcome, ZeroOutcome, SwitchFound, SwitchRead, Tracks, Raised;
    var (x, ok) := ForceHome(e, w, i, velo, accl);
    ForceHomeHomes(e, w, i, velo, accl);
    if HomeOutcome(w, x, i, w.axes[i].cfg.useLsp, ok) { HomeTracks(course, w, x, i, w.axes[i].cfg.useLsp, ok); }
    else { ZeroTracks(w, x, i); }
  }

  lemma StopTracks(e: Env, course: Course, w: World, i: nat)
    requires i < |w.axes| && Tracks(course, M(w.axes[i]))
    ensures
      var x := Stop(e, w, i).0;
      Tracks(if w.axes[i].configured then NoHome else course, M(x.axes[i])) && !Raised(w, x, i)
  {
    hide M, Select, Halt, Halted;
    if w.axes[i].configured {
      StopStops(e, w, i);
      Homed(w.axes[i]);
      Homed(Stop(e, w, i).0.axes[i]);
    }
  }

  lemma ConfigureTracks(e: Env, w: World, i: nat, c: Config)
    requires i < |w.axes|
    ensures
      var x := Configure(e, w, i, c);
      M(x.axes[i]) == M(w.axes[i]) && !Raised(w, x, i)
  {
    hide M, Configure;
    ConfigureOutcome(e, w, i, c);
    Homed(w.axes[i]);
    Homed(Configure(e, w, i, c).axes[i]);
  }

  // ----- When exactly a poll shows the axis as homed -----

  lemma SeenReached(p: Motion, srl: word, mer: word)
    requires p.homing ==> !p.stopping
    ensures Reached(Seen(p, srl), mer)
      <==> p.homing && MotionComplete(srl) && (p.moveSeen || LimitBit(mer, p.towardLsp))
    ensures Seen(p, srl).homed == p.homed
  {
    hide MotionComplete, AxisIsOn, LimitBit;
  }

  /** Initialising and selecting leave what the poll goes by. */
  lemma StillTheSame(e: Env, w: World, i: nat)
    requires i < |w.axes|
    ensures
      var p, q := M(w.axes[i]), M(Select(e, PollReinit(e, w, i).0, i).0.axes[i]);
      q.homing == p.homing && q.moveSeen == p.moveSeen && q.towardLsp == p.towardLsp && q.homed == p.homed
        && (q.stopping ==> p.stopping)
  {
    hide Select, PollReinit, SameIdentity;
    PollReinitEffect(e, w, i);
    SelectDrifts(e, PollReinit(e, w, i).0, i, i);
  }

  /** A poll shows the axis as homed exactly if it got to read the registers and they came
      through, a home is under way, SRL says motion complete, and the motor has been seen to move
      since the home started or MER shows the switch it was sent to. */
  lemma PollRaisesIff(e: Env, w: World, i: nat)
    requires i < |w.axes| && w.axes[i].configured && Sane(M(w.axes[i]))
    ensures
      var p := w.axes[i].motion;
      var (w1, go) := PollReinit(e, w, i);
      var (w2, ok) := Select(e, w1, i);
      var r := ReadStatus(e, w2.lib, w2.axes[i].polls).1;
      Raised(w, Poll(e, w, i).0, i)
      <==> go && ok && r.ok && p.homing && MotionComplete(r.srl) && (p.moveSeen || LimitBit(r.mer, p.towardLsp))
  {
    hide Select, PollReinit, ReadStatus, Observed, SelectLost, ZeroAtHome, SameIdentity, Seen, Reached, MotionComplete,
      LimitBit, M, Talks;
    var w1 := PollReinit(e, w, i).0;
    var w2 := Select(e, w1, i).0;
    var (l, r) := ReadStatus(e, w2.lib, w2.axes[i].polls);
    var a := Observed(w2.axes[i], r);
    StillTheSame(e, w, i);
    PollReinitQuiet(e, w, i);
    Homed(w.axes[i]);
    Homed(w1.axes[i]);
    SelectLostDrifts(w2.axes[i]);
    Homed(SelectLost(w2.axes[i]));
    ObservedMotion(w2.axes[i], r);
    MovingOf(a);
    MovingOf(w.axes[i]);
    SeenReached(M(w2.axes[i]), r.srl, r.mer);
    var w3 := Talked(w2, i, l, a);
    ZeroZeroes(e, w3, i);
    Homed(ZeroAtHome(e, w3, i).axes[i]);
  }

  // ----- Main result: evidence -----

  /** From where a poll starts to read the registers it publishes to where it has read them: no
      read that it makes while initialising or while disarming is among these. */
  ghost function PollReads(e: Env, w: World, i: nat): (Lib, Lib)
    requires i < |w.axes|
  {
    var w2 := Select(e, PollReinit(e, w, i).0, i).0;
    (w2.lib, ReadStatus(e, w2.lib, w2.axes[i].polls).0)
  }

  ghost predicate PollFound(e: Env, course: Course, w: World, i: nat)
    requires i < |w.axes|
  {
    var (l, r) := PollReads(e, w, i);
    course.HomeTo? && CompleteRead(l, r) && (course.seen || SwitchRead(l, r, course.lsp))
  }

  lemma PollEvidence(e: Env, course: Course, w: World, i: nat)
    requires i < |w.axes| && Sane(M(w.axes[i])) && Tracks(course, M(w.axes[i])) && Raised(w, Poll(e, w, i).0, i)
    ensures PollFound(e, course, w, i)
  {
    hide Select, PollReinit, ReadStatus, WasRead, MotionComplete, LimitBit, Raised, M, Poll, Talks;
    if !w.axes[i].configured {
      UnconfiguredPoll(e, w, i);
      ItselfQuiet(w, i);
      QuietRaisesNot(w, w, i);
    } else {
      var w2 := Select(e, PollReinit(e, w, i).0, i).0;
      MovingOf(w.axes[i]);
      PollRaisesIff(e, w, i);
      StatusIsRead(e, w2.lib, w2.axes[i].polls);
      NoLimitInZero(course.lsp);
    }
  }

  /** How an axis comes to be shown as homed: by a poll with a home under way and the evidence
      for it, or on the spot, with the switch read as made. */
  ghost predicate Evidence(e: Env, course: Course, w: World, c: Cmd, ok: bool, i: nat) {
    && i < |w.axes|
    && ((c == DoPoll(i) && PollFound(e, course, w, i)) || (c.DoForceHome? && c.i == i && ok && SwitchFound(e, w, i)))
  }

  lemma StepTracks(e: Env, course: Course, w: World, c: Cmd, i: nat)
    requires i < |w.axes| && Sane(M(w.axes[i])) && Tracks(course, M(w.axes[i]))
    ensures
      var (x, ok) := Step(e, w, c);
      && Tracks(After(e, course, w, c, i), M(x.axes[i]))
      && (Raised(w, x, i) ==> Evidence(e, course, w, c, ok, i))
  {
    hide M, Tracks, Raised, EnsureChannel, Poll, Configure, Move, MoveVelocity, Home, ForceHome, Stop, SetPosition,
      SetClosedLoop, WriteParam, Quiet, PollOutcome, MoveOutcome, HomeOutcome, ZeroOutcome, MoveSent, SwitchFound,
      PollFound, TurningRead;
    var x := Step(e, w, c).0;
    if c.CtrlPoll? || c.i != i {
      Bystander(e, w, c, i);
      QuietTracks(course, w, x, i);
      QuietRaisesNot(w, x, i);
    } else {
      match c
      case DoPoll(i) =>
        PollPolls(e, w, i);
        PollTracks(course, w, x, i, Poll(e, w, i).1);
        NoCourse(M(x.axes[i]));
        PollRaised(e, course, w, i);
      case DoConfigure(i, cfg) => ConfigureTracks(e, w, i, cfg);
      case DoMove(i, pos, relative, speed, acc) =>
        MoveMoves(e, w, i, pos, relative, speed, acc);
        MoveTracks(course, w, x, i, Move(e, w, i, pos, relative, speed, acc).1);
      case DoJog(i, speed, acc) =>
        JogMoves(e, w, i, speed, acc);
        MoveTracks(course, w, x, i, MoveVelocity(e, w, i, speed, acc).1);
      case DoHome(i, v, velo, acc, forwards) =>
        HomeHomes(e, w, i, v, velo, acc, forwards);
        HomeTracks(course, w, x, i, forwards, Home(e, w, i, v, velo, acc, forwards).1);
      case DoForceHome(i, velo, accl) => ForceTracks(e, course, w, i, velo, accl);
      case DoStop(i) => StopTracks(e, course, w, i);
      case DoSetPosition(i, pos) =>
        SetPositionQuiet(e, w, i, pos);
        QuietTracks(course, w, x, i);
        QuietRaisesNot(w, x, i);
      case DoClosedLoop(i, on) =>
        ClosedLoopQuiet(e, w, i, on);
        QuietTracks(course, w, x, i);
        QuietRaisesNot(w, x, i);
      case DoParam(i, p) =>
        ParamQuiet(e, w, i, p);
        QuietTracks(course, w, x, i);
        QuietRaisesNot(w, x, i);
    }
  }

  lemma PollRaised(e: Env, course: Course, w: World, i: nat)
    requires i < |w.axes| && Sane(M(w.axes[i])) && Tracks(course, M(w.axes[i]))
    ensures Raised(w, Poll(e, w, i).0, i) ==> PollFound(e, course, w, i)
  {
    hide Raised, Poll, PollFound, Sane, Tracks, M;
    if Raised(w, Poll(e, w, i).0, i) { PollEvidence(e, course, w, i); }
  }

  lemma NoCourse(p: Motion)
    ensures !p.homing ==> Tracks(NoHome, p)
  {
  }

  /** In every run from the start, an axis is homing exactly if its calls and log say so. */
  lemma {:induction false} CourseIsTracked(e: Env, w: World, cs: seq<Cmd>, i: nat)
    requires i < |w.axes| && AllSane(w) && Tracks(NoHome, M(w.axes[i]))
    ensures AllSane(Run(e, w, cs)) && Tracks(CourseOf(e, w, cs, i), M(Run(e, w, cs).axes[i]))
    decreases |cs|
  {
    hide Step, After, M, Tracks, Sane;
    if cs != [] {
      var rest, c := cs[..|cs| - 1], cs[|cs| - 1];
      CourseIsTracked(e, w, rest, i);
      var v := Run(e, w, rest);
      NextSane(e, v, c);
      StepTracks(e, CourseOf(e, w, rest, i), Later(v), c, i);
    }
  }

  /** Whenever an axis comes to be shown as homed, in any run: either a poll did it that read
      motion complete from the drive, with a home under way that no stop, move or jog had
      ended - and an earlier poll since its start had read the motor turning, or this one read
      the switch it was heading for - or forced homing found the switch made. */
  lemma HomedNeedsEvidence(e: Env, n: nat, mem: map<byte, Mem>, cs: seq<Cmd>, c: Cmd, i: nat)
    requires i < n
    requires
      var v := Later(Run(e, Boot(e, n, mem), cs));
      Raised(v, Step(e, v, c).0, i)
    ensures
      var v := Later(Run(e, Boot(e, n, mem), cs));
      Evidence(e, CourseOf(e, Boot(e, n, mem), cs, i), v, c, Step(e, v, c).1, i)
  {
    hide Step, Run, Raised, Evidence, Boot, Sane, Tracks, M;
    var w := Boot(e, n, mem);
    BootTracks(e, n, mem, i);
    CourseIsTracked(e, w, cs, i);
    StepTracks(e, CourseOf(e, w, cs, i), Later(Run(e, w, cs)), c, i);
  }

  lemma BootTracks(e: Env, n: nat, mem: map<byte, Mem>, i: nat)
    requires i < n
    ensures AllSane(Boot(e, n, mem)) && Tracks(NoHome, M(Boot(e, n, mem).axes[i]))
  {
    hide OpenChannel, EmptyLib;
  }
}
