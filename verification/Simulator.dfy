/** The drive simulator: a drive's memory and motion, and the loop that cuts the byte
    stream it receives into frames. */
module Simulator {
  import opened Codec

  const ACK: byte := 0x4F
  const SYNC: byte := 0x0D

  const GIVE_ME_DATA_16: word := 0xB004
  const GIVE_ME_DATA_32: word := 0xB005
  const TAKE_DATA_16: word := 0xB404
  const TAKE_DATA_32: word := 0xB405
  const WRITE_DATA_16: word := 0x9004
  const WRITE_DATA_32: word := 0x9005
  const MCR_CONFIG: word := 0x5909
  const SAP: word := 0x8400
  const STA: word := 0x2CB2
  const AXISON: word := 0x0102
  const AXISOFF: word := 0x0002
  const STOP: word := 0x01C4
  const STOP_IMM: word := 0x0104
  const FAULTR: word := 0x0402
  const UPD_IMM: word := 0x0008  // the simulator's own numbering

  const DM_APOS := 0x0228
  const DM_TPOS := 0x022A
  const DM_CPOS := 0x022E
  const DM_CSPD := 0x0230
  const DM_CACC := 0x0232
  const DM_MCR := 0x0908
  const DM_MSR := 0x0909
  const DM_ISR := 0x090A
  const DM_SRL := 0x090E
  const DM_SRH := 0x090F
  const DM_MER := 0x0910
  const DM_SRL_MASK := 0x0912
  const DM_SRH_MASK := 0x0913
  const DM_MER_MASK := 0x0914
  const DM_MASTERID := 0x0916

  const MOTION_COMPLETE := 0x0400  // SRL bit 10
  const BIT_15 := 0x8000           // SRL: axis on; SRH: drive on

  // ----- The simulated drive as a value -----

  datatype Mode = Idle | Position | Velocity

  datatype Sim = Sim(dm: map<nat, word>, powered: bool, moving: bool, target: int, actual: int, speed: nat,
    direction: int, mode: Mode)

  function Get16(s: Sim, a: nat): word { if a in s.dm then s.dm[a] else 0 }

  function Join(lo: word, hi: word): nat { hi * 0x1_0000 + lo }

  function Get32(s: Sim, a: nat): nat { Join(Get16(s, a), Get16(s, a + 1)) }

  function Put16(s: Sim, a: nat, v: int): Sim { s.(dm := s.dm[a := v % 0x1_0000]) }

  function Put32(s: Sim, a: nat, v: int): Sim { Put16(Put16(s, a, v), a + 1, v / 0x1_0000) }

  function Signed32(v: nat): int { if v >= 0x8000_0000 then v - 0x1_0000_0000 else v }

  function Abs(x: int): nat { if x < 0 then -x else x }

  predicate Bit(w: word, b: nat)
    requires b > 0
  {
    w / b % 2 == 1
  }

  /** w with bits 10 and 15 as given. */
  function StatusBits(w: word, bit10: bool, bit15: bool): word {
    var low := w % MOTION_COMPLETE;
    var middle := w / (2 * MOTION_COMPLETE) % 0x10;
    (if bit15 then BIT_15 else 0) + middle * 2 * MOTION_COMPLETE + (if bit10 then MOTION_COMPLETE else 0) + low
  }

  lemma StatusBitsAreSet(w: word, bit10: bool, bit15: bool)
    ensures var r := StatusBits(w, bit10, bit15);
            && Bit(r, MOTION_COMPLETE) == bit10 && Bit(r, BIT_15) == bit15
            && r % MOTION_COMPLETE == w % MOTION_COMPLETE
            && r / (2 * MOTION_COMPLETE) % 0x10 == w / (2 * MOTION_COMPLETE) % 0x10
  {
    var r := StatusBits(w, bit10, bit15);
    var low, middle := w % MOTION_COMPLETE, w / (2 * MOTION_COMPLETE) % 0x10;
    assert r / BIT_15 == if bit15 then 1 else 0;
    assert r / MOTION_COMPLETE == (if bit15 then 0x20 else 0) + 2 * middle + (if bit10 then 1 else 0);
    assert r / (2 * MOTION_COMPLETE) == (if bit15 then 0x10 else 0) + middle;
  }

  /** SRL and SRH follow the drive's state; APOS and TPOS its position. */
  function UpdateStatus(s: Sim): Sim {
    var a := Put16(s, DM_SRL, StatusBits(Get16(s, DM_SRL), !s.moving, s.powered));
    var b := Put16(a, DM_SRH, StatusBits(Get16(s, DM_SRH), Bit(Get16(s, DM_SRH), MOTION_COMPLETE), s.powered));
    Put32(Put32(b, DM_APOS, s.actual), DM_TPOS, s.actual)
  }

  /** A step of the given size in the direction of diff. */
  function Toward(diff: int, size: nat): int { if diff > 0 then size else -(size as int) }

  function MotionStep(s: Sim): Sim {
    if !s.moving then s
    else UpdateStatus(
           if s.mode == Position then
             var diff := s.target - s.actual;
             if Abs(diff) <= s.speed then s.(actual := s.target, moving := false, mode := Idle)
             else s.(actual := s.actual + Toward(diff, s.speed))
           else if s.mode == Velocity then s.(actual := s.actual + s.speed * s.direction)
           else s)
  }

  function McrConfig(s: Sim, mask: word, val: word): Sim {
    if mask == 0xFFFF && val == 0x2000 then s.(target := Signed32(Get32(s, DM_CPOS)))
    else if mask == 0xDFFF && val == 0 then s.(target := s.actual + Signed32(Get32(s, DM_CPOS)))
    else if val == 0x8701 then s.(mode := Position)
    else if val == 0x8301 then s.(mode := Velocity, direction := if Signed32(Get32(s, DM_CSPD)) >= 0 then 1 else -1)
    else s
  }

  function WriteLong(s: Sim, a: word, lo: word, hi: word): Sim {
    var v := Join(lo, hi);
    var s' := Put32(s, a, v);
    if a != DM_CSPD then s'
    else var step := Abs(Signed32(v)) / 0x4000; s'.(speed := if step < 1 then 1 else step)
  }

  function StartMotion(s: Sim): Sim {
    UpdateStatus(
      if s.mode != Idle && s.powered then s.(moving := true, speed := if s.speed < 1 then 1 else s.speed) else s)
  }

  /** One command. RESET shares its code with the fault reset, which comes first. */
  function Process(s: Sim, m: TmlMsg): Sim {
    var n, op := |m.data|, m.opCode;
    if op == WRITE_DATA_16 then (if n >= 2 then Put16(s, m.data[0], m.data[1]) else s)
    else if op == WRITE_DATA_32 then (if n >= 3 then WriteLong(s, m.data[0], m.data[1], m.data[2]) else s)
    else if op == MCR_CONFIG then (if n >= 2 then McrConfig(s, m.data[0], m.data[1]) else s)
    else if op == SAP then (if n >= 2 then SetPosition(s, m.data[0], m.data[1]) else s)
    else if op == STA then Put32(s.(target := s.actual), DM_TPOS, Get32(s, DM_APOS))
    else if op == AXISON then UpdateStatus(s.(powered := true))
    else if op == AXISOFF then UpdateStatus(s.(powered := false, moving := false, mode := Idle))
    else if op == STOP || op == STOP_IMM then UpdateStatus(s.(moving := false, mode := Idle))
    else if op == FAULTR then Put16(s, DM_MER, 0)
    else if op == UPD_IMM then StartMotion(s)
    else s
  }

  function SetPosition(s: Sim, lo: word, hi: word): Sim {
    var v := Join(lo, hi);
    Put32(s.(actual := Signed32(v)), DM_APOS, v)
  }

  const REGISTERS: map<nat, word> := map[
    DM_MCR := 0, DM_MSR := 0, DM_ISR := 0, DM_SRL := MOTION_COMPLETE, DM_SRH := 0, DM_MER := 0,
    DM_SRL_MASK := 0, DM_SRH_MASK := 0, DM_MER_MASK := 0, DM_MASTERID := 0x00FF,
    DM_APOS := 0, DM_APOS + 1 := 0, DM_TPOS := 0, DM_TPOS + 1 := 0, DM_CPOS := 0, DM_CPOS + 1 := 0,
    DM_CSPD := 0, DM_CSPD + 1 := 0, DM_CACC := 0, DM_CACC + 1 := 0]

  const INITIAL: Sim := Sim(REGISTERS, false, false, 0, 0, 0, 1, Idle)

  // ----- Main result: what the simulated drive keeps -----

  /** Moving means powered, in a mode, and getting somewhere; the status word tells. */
  ghost predicate Consistent(s: Sim) {
    && (s.moving ==> s.powered && s.mode != Idle && s.speed >= 1)
    && Bit(Get16(s, DM_SRL), MOTION_COMPLETE) == !s.moving
    && Bit(Get16(s, DM_SRL), BIT_15) == s.powered
    && Bit(Get16(s, DM_SRH), BIT_15) == s.powered
  }

  /** The command does not store into SRL or SRH. */
  predicate LeavesStatusAlone(m: TmlMsg) {
    var status := {DM_SRL, DM_SRH};
    && (m.opCode == WRITE_DATA_16 && |m.data| >= 2 ==> m.data[0] !in status)
    && (m.opCode == WRITE_DATA_32 && |m.data| >= 3 ==> m.data[0] !in status && m.data[0] != DM_SRL - 1)
  }

  lemma UpdateStatusRestores(s: Sim)
    requires s.moving ==> s.powered && s.mode != Idle && s.speed >= 1
    ensures Consistent(UpdateStatus(s))
  {
    hide StatusBits, Bit;
    StatusBitsAreSet(Get16(s, DM_SRL), !s.moving, s.powered);
    StatusBitsAreSet(Get16(s, DM_SRH), Bit(Get16(s, DM_SRH), MOTION_COMPLETE), s.powered);
  }

  predicate Stores(op: word) { op in {WRITE_DATA_16, WRITE_DATA_32, MCR_CONFIG, SAP, STA, FAULTR} }

  lemma StoreKeepsConsistency(s: Sim, m: TmlMsg)
    requires Consistent(s) && LeavesStatusAlone(m) && Stores(m.opCode)
    ensures Consistent(Process(s, m))
  {
    hide UpdateStatus, Bit, Signed32, StartMotion;
  }

  lemma CommandKeepsConsistency(s: Sim, m: TmlMsg)
    requires Consistent(s) && LeavesStatusAlone(m)
    ensures Consistent(Process(s, m))
  {
    hide UpdateStatus, Bit, WriteLong, McrConfig, SetPosition, Consistent, Put16, Put32;
    if Stores(m.opCode) {
      StoreKeepsConsistency(s, m);
    } else {
      MovingIsFounded(s);
      UpdateStatusRestores(s.(powered := true));
      UpdateStatusRestores(s.(powered := false, moving := false, mode := Idle));
      UpdateStatusRestores(s.(moving := false, mode := Idle));
      UpdateStatusRestores(s);
      UpdateStatusRestores(
        if s.mode != Idle && s.powered then s.(moving := true, speed := if s.speed < 1 then 1 else s.speed) else s);
    }
  }

  lemma MovingIsFounded(s: Sim)
    requires Consistent(s)
    ensures s.moving ==> s.powered && s.mode != Idle && s.speed >= 1
  {
  }

  lemma TickKeepsConsistency(s: Sim)
    requires Consistent(s)
    ensures Consistent(MotionStep(s))
  {
    hide UpdateStatus, Bit;
    if s.moving {
      UpdateStatusRestores(s.(actual := s.target, moving := false, mode := Idle));
      UpdateStatusRestores(s.(actual := s.actual + s.speed));
      UpdateStatusRestores(s.(actual := s.actual - s.speed));
      UpdateStatusRestores(s.(actual := s.actual + s.speed * s.direction));
    }
  }

  lemma InitialIsConsistent()
    ensures Consistent(INITIAL)
  {
  }

  /** The exception matters: one store into SRL and the status word no longer tells. */
  lemma StoringStatusBreaksConsistency()
    ensures !Consistent(Process(INITIAL, TmlMsg(0, WRITE_DATA_16, [DM_SRL, 0])))
  {
  }

  // ----- Main result: an undisturbed position move -----

  function Ticks(s: Sim, n: nat): Sim { if n == 0 then s else MotionStep(Ticks(s, n - 1)) }

  predicate Heading(s: Sim) { s.moving && s.mode == Position && s.speed >= 1 }

  /** While it still has farther to go than it has gone, the drive is exactly n steps on its
      way, on the near side of the target. */
  lemma {:induction false} InFlight(s: Sim, n: nat)
    requires Heading(s) && n * s.speed < Abs(s.target - s.actual)
    ensures var t := Ticks(s, n);
            && Heading(t) && t.target == s.target && t.speed == s.speed
            && t.target - t.actual == s.target - s.actual - n * Toward(s.target - s.actual, s.speed)
            && Abs(t.target - t.actual) == Abs(s.target - s.actual) - n * s.speed
  {
    hide UpdateStatus;
    if n > 0 {
      assert n * s.speed == (n - 1) * s.speed + s.speed;
      InFlight(s, n - 1);
      var t := Ticks(s, n - 1);
      assert Toward(t.target - t.actual, t.speed) == Toward(s.target - s.actual, s.speed);
      UpdateStatusKeeps(t.(actual := t.actual + Toward(t.target - t.actual, t.speed)));
    }
  }

  lemma UpdateStatusKeeps(s: Sim)
    ensures UpdateStatus(s) == s.(dm := UpdateStatus(s).dm)
  {
    hide StatusBits;
  }

  function Ceil(d: nat, s: nat): nat
    requires s >= 1
  {
    (d + s - 1) / s
  }

  lemma CeilBounds(d: nat, s: nat)
    requires s >= 1 && d >= 1
    ensures Ceil(d, s) >= 1 && (Ceil(d, s) - 1) * s < d <= Ceil(d, s) * s
  {
    var n, r := (d + s - 1) / s, (d + s - 1) % s;
    assert d + s - 1 == n * s + r;
    assert (n - 1) * s == n * s - s;
  }

  lemma StillOnItsWay(s: Sim, k: nat, n: nat)
    requires Heading(s) && k < n && (n - 1) * s.speed < Abs(s.target - s.actual)
    ensures Ticks(s, k).moving && Between(s.actual, Ticks(s, k).actual, s.target)
  {
    hide UpdateStatus, Ticks;
    Below(k, n - 1, s.speed);
    Below(0, k, s.speed);
    InFlight(s, k);
  }

  /** A move over a distance other than 0 stops on its target after exactly the number of
      ticks its speed needs; before that it is moving and has not reached it. */
  lemma PositionMoveArrives(s: Sim)
    requires Heading(s) && s.target != s.actual
    ensures var n := Ceil(Abs(s.target - s.actual), s.speed);
            && Ticks(s, n).actual == s.target && !Ticks(s, n).moving && Ticks(s, n).mode == Idle
            && forall k :: 0 <= k < n ==> Ticks(s, k).moving && Between(s.actual, Ticks(s, k).actual, s.target)
  {
    hide UpdateStatus, Ceil, Between, Ticks, MotionStep;
    var n := Ceil(Abs(s.target - s.actual), s.speed);
    CeilBounds(Abs(s.target - s.actual), s.speed);
    forall k | 0 <= k < n ensures Ticks(s, k).moving && Between(s.actual, Ticks(s, k).actual, s.target) {
      StillOnItsWay(s, k, n);
    }
    LastTick(s, n);
  }

  lemma LastTick(s: Sim, n: nat)
    requires Heading(s) && n >= 1 && (n - 1) * s.speed < Abs(s.target - s.actual) <= n * s.speed
    ensures Ticks(s, n).actual == s.target && !Ticks(s, n).moving && Ticks(s, n).mode == Idle
  {
    hide UpdateStatus;
    InFlight(s, n - 1);
    assert n * s.speed == (n - 1) * s.speed + s.speed;
    var t := Ticks(s, n - 1);
    UpdateStatusKeeps(t.(actual := t.target, moving := false, mode := Idle));
  }

  /** b lies on the way from a to c, and is not c. */
  predicate Between(a: int, b: int, c: int) { a <= b < c || c < b <= a }

  lemma Below(a: nat, b: nat, s: nat)
    requires a <= b
    ensures a * s <= b * s
  {
  }

  /** A move over no distance takes one tick to notice. */
  lemma EmptyMoveStops(s: Sim)
    requires Heading(s) && s.target == s.actual
    ensures Ticks(s, 1).actual == s.target && !Ticks(s, 1).moving
  {
    hide UpdateStatus;
    assert Ticks(s, 0) == s;
    UpdateStatusKeeps(s.(actual := s.target, moving := false, mode := Idle));
  }

  // ----- Main result: from commands to arrival -----

  function Lo(v: nat): word { v % 0x1_0000 }
  function Hi(v: nat): word { v / 0x1_0000 % 0x1_0000 }

  lemma WrittenIsRead(s: Sim, a: word, v: nat)
    requires v < 0x1_0000_0000
    ensures Join(Lo(v), Hi(v)) == v && Get32(Put32(s, a, v), a) == v
  {
  }

  /** The five frames of an absolute move, in the simulator's own command codes. */
  function Commanded(s: Sim, addr: word, pos: nat, spd: nat): Sim
    requires pos < 0x1_0000_0000 && spd < 0x1_0000_0000
  {
    Process(Prepared(s, addr, pos, spd), TmlMsg(addr, UPD_IMM, []))
  }

  function Prepared(s: Sim, addr: word, pos: nat, spd: nat): Sim
    requires pos < 0x1_0000_0000 && spd < 0x1_0000_0000
  {
    var a := Process(s, TmlMsg(addr, WRITE_DATA_32, [DM_CSPD, Lo(spd), Hi(spd)]));
    var b := Process(a, TmlMsg(addr, WRITE_DATA_32, [DM_CPOS, Lo(pos), Hi(pos)]));
    var c := Process(b, TmlMsg(addr, MCR_CONFIG, [0xFFFF, 0x2000]));
    Process(c, TmlMsg(addr, MCR_CONFIG, [0xBFC1, 0x8701]))
  }

  function StepSize(spd: nat): nat {
    var step := Abs(Signed32(spd)) / 0x4000;
    if step < 1 then 1 else step
  }

  lemma PreparedIs(s: Sim, addr: word, pos: nat, spd: nat)
    requires pos < 0x1_0000_0000 && spd < 0x1_0000_0000
    ensures var t := Prepared(s, addr, pos, spd);
            && t.mode == Position && t.target == Signed32(pos) && t.actual == s.actual && t.speed == StepSize(spd)
            && t.powered == s.powered && t.moving == s.moving
  {
    hide Signed32, Put32, Get32, Join, Lo, Hi;
    WrittenIsRead(s, DM_CSPD, spd);
    var a := Process(s, TmlMsg(addr, WRITE_DATA_32, [DM_CSPD, Lo(spd), Hi(spd)]));
    PutKeepsRest(s, DM_CSPD, spd);
    WrittenIsRead(a, DM_CPOS, pos);
    PutKeepsRest(a, DM_CPOS, pos);
  }

  lemma PutKeepsRest(s: Sim, a: nat, v: int)
    ensures Put32(s, a, v) == s.(dm := Put32(s, a, v).dm)
  {
  }

  /** A powered drive told to go to `pos` gets there, however fast, in exactly the ticks the
      distance takes; and it is the simulator's UPD! that starts it - the code the driver
      sends for UPD! (0x0108) leaves the drive as it was. */
  lemma CommandedMoveArrives(s: Sim, addr: word, pos: nat, spd: nat)
    requires pos < 0x1_0000_0000 && spd < 0x1_0000_0000 && s.powered && Signed32(pos) != s.actual
    ensures var n := Ceil(Abs(Signed32(pos) - s.actual), StepSize(spd));
            && Ticks(Commanded(s, addr, pos, spd), n).actual == Signed32(pos)
            && !Ticks(Commanded(s, addr, pos, spd), n).moving
            && forall k :: 0 <= k < n ==> Between(s.actual, Ticks(Commanded(s, addr, pos, spd), k).actual,
               Signed32(pos))
    ensures Process(Prepared(s, addr, pos, spd), TmlMsg(addr, 0x0108, [])) == Prepared(s, addr, pos, spd)
  {
    hide Prepared, UpdateStatus, Signed32, Ceil, Ticks;
    PreparedIs(s, addr, pos, spd);
    var t := Prepared(s, addr, pos, spd);
    UpdateStatusKeeps(t.(moving := true));
    PositionMoveArrives(Commanded(s, addr, pos, spd));
  }
}
