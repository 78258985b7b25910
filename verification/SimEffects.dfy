/** What each command does to the simulated drive, by its code. */
module SimEffects {
  import opened Codec
  import opened Simulator

  /** v as a 32-bit number with a sign. */
  predicate Signed(x: int, v: int) { -0x8000_0000 <= x < 0x8000_0000 && (x - v) % 0x1_0000_0000 == 0 }

  /** A 32-bit value from its low and high word. */
  function Whole(lo: int, hi: int): int { lo + 0x1_0000 * hi }

  lemma SignedIs(v: nat)
    requires v < 0x1_0000_0000
    ensures Signed(Signed32(v), v)
  {
  }

  /** Nothing but these registers may differ. */
  ghost predicate OnlyAt(s: Sim, t: Sim, at: set<nat>) { forall a: nat :: a !in at ==> Get16(t, a) == Get16(s, a) }

  const STATUS: set<nat> := {0x0228, 0x0229, 0x022A, 0x022B, 0x090E, 0x090F}

  /** The status words and the position registers tell how the drive stands: bit 15 of SRL and SRH
      whether it is powered, bit 10 of SRL whether it stands still, APOS and TPOS where. */
  ghost predicate Tells(s: Sim, t: Sim) {
    && OnlyAt(s, t, STATUS)
    && Bit(Get16(t, 0x090E), 0x8000) == t.powered && Bit(Get16(t, 0x090F), 0x8000) == t.powered
    && Bit(Get16(t, 0x090E), 0x0400) == !t.moving
    && Get32(t, 0x0228) == t.actual % 0x1_0000_0000 && Get32(t, 0x022A) == t.actual % 0x1_0000_0000
  }

  lemma UpdateTells(s: Sim)
    ensures Tells(s, UpdateStatus(s)) && UpdateStatus(s) == s.(dm := UpdateStatus(s).dm)
  {
    hide StatusBits, Bit, Put32, Get32, Put16, Get16;
    var srl, srh := StatusBits(Get16(s, DM_SRL), !s.moving, s.powered),
      StatusBits(Get16(s, DM_SRH), Bit(Get16(s, DM_SRH), MOTION_COMPLETE), s.powered);
    StatusBitsAreSet(Get16(s, DM_SRL), !s.moving, s.powered);
    StatusBitsAreSet(Get16(s, DM_SRH), Bit(Get16(s, DM_SRH), MOTION_COMPLETE), s.powered);
    var a := Put16(s, DM_SRL, srl);
    ShortIs(s, DM_SRL, srl);
    var b := Put16(a, DM_SRH, srh);
    ShortIs(a, DM_SRH, srh);
    var c := Put32(b, DM_APOS, s.actual);
    PutIs(b, DM_APOS, s.actual);
    PutIs(c, DM_TPOS, s.actual);
    SameLong(c, Put32(c, DM_TPOS, s.actual));
  }

  lemma ShortIs(s: Sim, a: nat, v: word)
    ensures
      var t := Put16(s, a, v);
      t == s.(dm := t.dm) && Get16(t, a) == v && OnlyAt(s, t, {a})
  {
  }

  lemma SameLong(s: Sim, t: Sim)
    requires OnlyAt(s, t, {0x022A, 0x022B})
    ensures Get32(t, 0x0228) == Get32(s, 0x0228)
  {
    hide Get16;
  }

  lemma Halves(v: int)
    ensures v / 0x1_0000 % 0x1_0000 * 0x1_0000 + v % 0x1_0000 == v % 0x1_0000_0000
  {
  }

  lemma PutIs(s: Sim, a: nat, v: int)
    ensures
      var t := Put32(s, a, v);
      t == s.(dm := t.dm) && Get32(t, a) == v % 0x1_0000_0000 && OnlyAt(s, t, {a, a + 1})
  {
    Halves(v);
  }

  // ----- Main result: command by command -----

  /** s, told the commands that put the drive on and off, stop it, start it, or do nothing. */
  ghost predicate Switched(s: Sim, op: word, t: Sim) {
    match op
    case 0x0102 => t == s.(dm := t.dm, powered := true) && Tells(s, t)
    case 0x0002 => t == s.(dm := t.dm, powered := false, moving := false, mode := Idle) && Tells(s, t)
    case 0x0104 => t == s.(dm := t.dm, moving := false, mode := Idle) && Tells(s, t)
    case 0x01C4 => t == s.(dm := t.dm, moving := false, mode := Idle) && Tells(s, t)
    case 0x0008 =>
      && t == s.(dm := t.dm, moving := t.moving, speed := t.speed) && Tells(s, t)
      && t.moving == (s.moving || (s.powered && s.mode != Idle))
      && t.speed == if s.powered && s.mode != Idle && s.speed < 1 then 1 else s.speed
    case 0x0402 => t == s.(dm := t.dm) && Get16(t, 0x0910) == 0 && OnlyAt(s, t, {0x0910})
    case 0x2CB2 => t == s.(dm := t.dm, target := s.actual) && Get32(t, 0x022A) == Get32(s, 0x0228)
                   && OnlyAt(s, t, {0x022A, 0x022B})
    case _ => t == s
  }

  const WITH_WORDS: set<word> := {0x9004, 0x9005, 0x8400, 0x5909}

  /** s, told a command: with its data words a register is written, the position set, or the mode
      chosen; with too few of them nothing is done. */
  ghost predicate Told(s: Sim, m: TmlMsg, t: Sim) {
    var ws := m.data;
    if m.opCode !in WITH_WORDS then Switched(s, m.opCode, t)
    else if |ws| < 2 || (m.opCode == 0x9005 && |ws| < 3) then t == s
    else
      match m.opCode
      case 0x9004 => t == s.(dm := t.dm) && Get16(t, ws[0]) == ws[1] && OnlyAt(s, t, {ws[0]})
      case 0x9005 =>
        && t == s.(dm := t.dm, speed := t.speed)
        && t.speed == (if ws[0] == 0x0230 then StepOf(Whole(ws[1], ws[2])) else s.speed)
        && Get32(t, ws[0]) == Whole(ws[1], ws[2]) && OnlyAt(s, t, {ws[0], ws[0] as int + 1})
      case 0x8400 =>
        && t == s.(dm := t.dm, actual := t.actual) && Signed(t.actual, Whole(ws[0], ws[1]))
        && Get32(t, 0x0228) == Whole(ws[0], ws[1]) && OnlyAt(s, t, {0x0228, 0x0229})
      case 0x5909 =>
        var cpos, cspd := Get32(s, 0x022E), Get32(s, 0x0230);
        if ws[0] == 0xFFFF && ws[1] == 0x2000 then t == s.(target := t.target) && Signed(t.target, cpos)
        else if ws[0] == 0xDFFF && ws[1] == 0 then t == s.(target := t.target) && Signed(t.target - s.actual, cpos)
        else if ws[1] == 0x8701 then t == s.(mode := Position)
        else if ws[1] == 0x8301 then t == s.(mode := Velocity, direction := if cspd < 0x8000_0000 then 1 else -1)
        else t == s
  }

  /** The size of a 32-bit number with a sign over 2^14, and at least 1. */
  function StepOf(v: int): int {
    var size := if v < 0x8000_0000 then v else 0x1_0000_0000 - v;
    if size < 0x4000 then 1 else size / 0x4000
  }

  lemma Switches(s: Sim, m: TmlMsg)
    requires m.opCode !in WITH_WORDS
    ensures Switched(s, m.opCode, Process(s, m))
  {
    hide UpdateStatus, Tells, Bit, Put32;
    UpdateTells(s.(powered := true));
    UpdateTells(s.(powered := false, moving := false, mode := Idle));
    UpdateTells(s.(moving := false, mode := Idle));
    UpdateTells(s);
    UpdateTells(s.(moving := true, speed := if s.speed < 1 then 1 else s.speed));
    SameTells(s, s.(powered := true));
    SameTells(s, s.(powered := false, moving := false, mode := Idle));
    SameTells(s, s.(moving := false, mode := Idle));
    SameTells(s, s.(moving := true, speed := if s.speed < 1 then 1 else s.speed));
    PutIs(s.(target := s.actual), 0x022A, Get32(s, 0x0228));
  }

  lemma SameTells(s: Sim, s': Sim)
    requires s'.dm == s.dm
    ensures Tells(s', UpdateStatus(s')) ==> Tells(s, UpdateStatus(s'))
  {
    hide UpdateStatus, Bit;
  }

  /** Every command is carried out as its code says. */
  lemma CommandsDoTheirPart(s: Sim, m: TmlMsg)
    ensures Told(s, m, Process(s, m))
  {
    hide Put32, Get32, Switched, Signed, Process;
    if m.opCode !in WITH_WORDS { Switches(s, m); }
    else {
      TooShort(s, m);
      match m.opCode
      case 0x9004 => WritesShort(s, m);
      case 0x9005 => WritesLong(s, m);
      case 0x8400 => SetsPosition(s, m);
      case _ => Configures(s, m);
    }
  }

  lemma TooShort(s: Sim, m: TmlMsg)
    requires m.opCode in WITH_WORDS
    ensures |m.data| < 2 || (m.opCode == 0x9005 && |m.data| < 3) ==> Process(s, m) == s
  {
    hide Put16, Put32, Get32, Signed32;
  }

  lemma WritesShort(s: Sim, m: TmlMsg)
    requires m.opCode == 0x9004
    ensures Told(s, m, Process(s, m))
  {
  }

  lemma WritesLong(s: Sim, m: TmlMsg)
    requires m.opCode == 0x9005
    ensures Told(s, m, Process(s, m))
  {
    hide Put32, Get32, StepOf;
    if |m.data| >= 3 { LongIs(s, m.data[0], m.data[1], m.data[2]); }
  }

  lemma LongIs(s: Sim, a: word, lo: word, hi: word)
    ensures
      var t := Simulator.WriteLong(s, a, lo, hi);
      && t == s.(dm := t.dm, speed := t.speed)
      && t.speed == (if a == 0x0230 then StepOf(Whole(lo, hi)) else s.speed)
      && Get32(t, a) == Whole(lo, hi) && OnlyAt(s, t, {a, a as int + 1})
  {
    hide Put32, Get32, Get16, Join, Abs, Signed32, StepOf, OnlyAt;
    var v := Join(lo, hi);
    PutIs(s, a, v);
    StepIs(lo, hi);
    SameCells(Put32(s, a, v), Simulator.WriteLong(s, a, lo, hi));
    assert OnlyAt(s, Put32(s, a, v), {a, a as int + 1});
    SameOnlyAt(s, Put32(s, a, v), Simulator.WriteLong(s, a, lo, hi), {a, a as int + 1});
  }

  lemma StepIs(lo: word, hi: word)
    ensures
      var v, step := Join(lo, hi), Abs(Signed32(Join(lo, hi))) / 0x4000;
      v == Whole(lo, hi) && v % 0x1_0000_0000 == v && StepOf(v) == if step < 1 then 1 else step
  {
  }

  lemma SameCells(s: Sim, t: Sim)
    requires t.dm == s.dm
    ensures forall a: nat :: Get16(t, a) == Get16(s, a) && Get32(t, a) == Get32(s, a)
  {
  }

  lemma SameOnlyAt(s: Sim, t: Sim, t': Sim, at: set<nat>)
    requires OnlyAt(s, t, at) && t'.dm == t.dm
    ensures OnlyAt(s, t', at)
  {
  }

  lemma SetsPosition(s: Sim, m: TmlMsg)
    requires m.opCode == 0x8400
    ensures Told(s, m, Process(s, m))
  {
    hide Put32, Get32, Signed;
    if |m.data| >= 2 {
      var v := Join(m.data[0], m.data[1]);
      SignedIs(v);
      PutIs(s.(actual := Signed32(v)), 0x0228, v);
    }
  }

  lemma CposIs(s: Sim)
    ensures Signed(Signed32(Get32(s, 0x022E)), Get32(s, 0x022E)) && Get32(s, 0x0230) < 0x1_0000_0000
  {
    SignedIs(Get32(s, 0x022E));
  }

  lemma Configures(s: Sim, m: TmlMsg)
    requires m.opCode == 0x5909
    ensures Told(s, m, Process(s, m))
  {
    hide Get32, Signed;
    CposIs(s);
  }

  // ----- Main result: a velocity move -----

  /** Undisturbed, it goes on at its speed and in its direction for ever. */
  lemma {:induction false} VelocityRuns(s: Sim, n: nat)
    requires s.moving && s.mode == Velocity
    ensures
      var t := Ticks(s, n);
      && t == s.(dm := t.dm, actual := s.actual + n * (s.speed * s.direction))
      && (n > 0 ==> Bit(Get16(t, 0x090E), 0x0400) == false && Get32(t, 0x0228) == t.actual % 0x1_0000_0000)
  {
    hide UpdateStatus, Bit;
    if n > 0 {
      VelocityRuns(s, n - 1);
      var t := Ticks(s, n - 1);
      UpdateTells(t.(actual := t.actual + t.speed * t.direction));
    }
  }
}
