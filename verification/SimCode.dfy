/** The simulator's own code: a drive whose methods update its memory and motion in place,
    and the loop over a growing and shrinking buffer. */
module SimCode {
  import opened Codec
  import opened Simulator
  import opened SimStream

  class DriveSim {
    var dm: map<nat, word>
    var powered: bool
    var moving: bool
    var targetPos: int
    var actualPos: int
    var speed: nat
    var direction: int
    var mode: Mode

    ghost function View(): Sim
      reads this
    {
      Sim(dm, powered, moving, targetPos, actualPos, speed, direction, mode)
    }

    constructor ()
      ensures View() == INITIAL
    {
      dm := REGISTERS;
      powered, moving := false, false;
      targetPos, actualPos, speed := 0, 0, 0;
      direction, mode := 1, Idle;
    }

    method Set16(a: nat, v: int)
      modifies this
      ensures View() == Put16(old(View()), a, v)
    {
      dm := dm[a := v % 0x1_0000];
    }

    method Set32(a: nat, v: int)
      modifies this
      ensures View() == Put32(old(View()), a, v)
    {
      Set16(a, v);
      Set16(a + 1, v / 0x1_0000);
    }

    method Read16(a: nat) returns (v: word)
      ensures v == Get16(View(), a)
    {
      v := if a in dm then dm[a] else 0;
    }

    method Read32(a: nat) returns (v: nat)
      ensures v == Get32(View(), a)
    {
      var lo := Read16(a);
      var hi := Read16(a + 1);
      v := Join(lo, hi);
    }

    method UpdateStatus()
      modifies this
      ensures View() == Simulator.UpdateStatus(old(View()))
    {
      hide StatusBits;
      var srl := Read16(DM_SRL);
      var srh := Read16(DM_SRH);
      Set16(DM_SRL, StatusBits(srl, !moving, powered));
      Set16(DM_SRH, StatusBits(srh, Bit(srh, MOTION_COMPLETE), powered));
      Set32(DM_APOS, actualPos);
      Set32(DM_TPOS, actualPos);
    }

    method SimulateMotionStep()
      modifies this
      ensures View() == MotionStep(old(View()))
    {
      hide Simulator.UpdateStatus;
      if !moving { return; }
      if mode == Position {
        var diff := targetPos - actualPos;
        if Abs(diff) <= speed {
          actualPos, moving, mode := targetPos, false, Idle;
        } else {
          var step := Toward(diff, speed);
          actualPos := actualPos + step;
        }
      } else if mode == Velocity {
        actualPos := actualPos + speed * direction;
      }
      UpdateStatus();
    }

    method WriteLong(a: word, lo: word, hi: word)
      modifies this
      ensures View() == Simulator.WriteLong(old(View()), a, lo, hi)
    {
      hide Put32;
      var v := Join(lo, hi);
      Set32(a, v);
      if a == DM_CSPD {
        speed := Abs(Signed32(v)) / 0x4000;
        if speed < 1 { speed := 1; }
      }
    }

    method McrConfig(mask: word, val: word)
      modifies this
      ensures View() == Simulator.McrConfig(old(View()), mask, val)
    {
      hide Join, Signed32;
      if mask == 0xFFFF && val == 0x2000 {
        var pos := Read32(DM_CPOS);
        targetPos := Signed32(pos);
      } else if mask == 0xDFFF && val == 0 {
        var rel := Read32(DM_CPOS);
        targetPos := actualPos + Signed32(rel);
      } else if val == 0x8701 {
        mode := Position;
      } else if val == 0x8301 {
        mode := Velocity;
        var cspd := Read32(DM_CSPD);
        direction := if Signed32(cspd) >= 0 then 1 else -1;
      }
    }

    method ProcessCommand(m: TmlMsg)
      modifies this
      ensures View() == Process(old(View()), m)
    {
      hide Simulator.UpdateStatus, Simulator.McrConfig, Simulator.WriteLong, Signed32, Join, Put32, Put16;
      var op, n := m.opCode, |m.data|;
      if op == WRITE_DATA_16 {
        if n >= 2 { Set16(m.data[0], m.data[1]); }
      } else if op == WRITE_DATA_32 {
        if n >= 3 { WriteLong(m.data[0], m.data[1], m.data[2]); }
      } else if op == MCR_CONFIG {
        if n >= 2 { McrConfig(m.data[0], m.data[1]); }
      } else if op == SAP {
        if n >= 2 {
          var v := Join(m.data[0], m.data[1]);
          actualPos := Signed32(v);
          Set32(DM_APOS, v);
        }
      } else if op == STA {
        targetPos := actualPos;
        var apos := Read32(DM_APOS);
        Set32(DM_TPOS, apos);
      } else if op == AXISON {
        powered := true;
        UpdateStatus();
      } else if op == AXISOFF {
        powered, moving, mode := false, false, Idle;
        UpdateStatus();
      } else if op == STOP || op == STOP_IMM {
        moving, mode := false, Idle;
        UpdateStatus();
      } else if op == FAULTR {
        Set16(DM_MER, 0);
      } else if op == UPD_IMM {
        if mode != Idle && powered {
          moving := true;
          if speed < 1 { speed := 1; }
        }
        UpdateStatus();
      }
    }
  }

  /** The answer to a frame, after its ACK. */
  method Respond(drive: DriveSim, axis: byte, m: TmlMsg) returns (out: seq<Write>)
    modifies drive
    ensures out == Answer(old(drive.View()), axis, m)
    ensures drive.View() == if IsRead(m) then old(drive.View()) else Process(old(drive.View()), m)
  {
    hide Encode, Process;
    out := [];
    if m.opCode == GIVE_ME_DATA_16 {
      if |m.data| >= 2 {
        var v := drive.Read16(m.data[1]);
        var frame := BuildResponseFrame(m.data[0], TAKE_DATA_16, [0x10 * axis, m.data[1], v]);
        out := [Response(frame)];
      }
    } else if m.opCode == GIVE_ME_DATA_32 {
      if |m.data| >= 2 {
        var lo := drive.Read16(m.data[1]);
        var hi := drive.Read16(High(m.data[1]));
        var frame := BuildResponseFrame(m.data[0], TAKE_DATA_32, [0x10 * axis, m.data[1], lo, hi]);
        out := [Response(frame)];
      }
    } else {
      drive.ProcessCommand(m);
    }
  }

  /** The main loop, over the events the port and the clock bring. */
  method RunSimulator(axis: byte, events: seq<Event>)
    returns (drive: DriveSim, buf: seq<byte>, done: seq<TmlMsg>, out: seq<Write>)
    ensures fresh(drive)
    ensures Loop(drive.View(), buf, done, out) == Turns(Loop(INITIAL, [], [], []), axis, events)
  {
    hide Turn;
    drive := new DriveSim();
    buf, done, out := [], [], [];
    ghost var start := Loop(INITIAL, [], [], []);
    for i := 0 to |events|
      invariant fresh(drive)
      invariant Loop(drive.View(), buf, done, out) == Turns(start, axis, events[..i])
    {
      assert events[..i + 1][..i] == events[..i];
      buf, done, out := OneTurn(drive, axis, events[i], buf, done, out);
    }
    assert events[..|events|] == events;
  }

  method OneTurn(drive: DriveSim, axis: byte, e: Event, buf0: seq<byte>, done0: seq<TmlMsg>, out0: seq<Write>)
    returns (buf: seq<byte>, done: seq<TmlMsg>, out: seq<Write>)
    modifies drive
    ensures Loop(drive.View(), buf, done, out) == Turn(old(Loop(drive.View(), buf0, done0, out0)), axis, e)
  {
    hide MotionStep, Carry, Parse;
    buf, done, out := buf0, done0, out0;
    match e {
      case Tick => drive.SimulateMotionStep();
      case Chunk(bytes) => buf := buf + bytes;
    }
    ghost var st := Loop(drive.View(), buf, done, out);
    while |buf| > 0 && buf[0] == SYNC
      invariant Strip(st) == Strip(Loop(drive.View(), buf, done, out))
    {
      buf, out := buf[1..], out + [SyncReply];
    }
    buf, done, out := TakeFrames(drive, axis, buf, done, out);
  }

  method TakeFrames(drive: DriveSim, axis: byte, buf0: seq<byte>, done0: seq<TmlMsg>, out0: seq<Write>)
    returns (buf: seq<byte>, done: seq<TmlMsg>, out: seq<Write>)
    modifies drive
    ensures Loop(drive.View(), buf, done, out) == Drain(old(Loop(drive.View(), buf0, done0, out0)), axis)
  {
    hide Parse, Process, Answer;
    buf, done, out := buf0, done0, out0;
    ShortIsNotParsed(buf);
    while |buf| >= 6
      invariant Drain(old(Loop(drive.View(), buf0, done0, out0)), axis)
        == Drain(Loop(drive.View(), buf, done, out), axis)
      invariant |buf| < 6 ==> Parse(buf) == None
      decreases |buf|
    {
      var result := ParseFrame(buf);
      if result == None { return; }
      ParseTakes(buf);
      var (m, consumed) := result.value;
      buf := buf[consumed..];
      var answer := Respond(drive, axis, m);
      out := out + [Ack] + answer;
      done := done + [m];
      ShortIsNotParsed(buf);
    }
  }

  lemma ShortIsNotParsed(b: seq<byte>)
    ensures |b| < 6 ==> Parse(b) == None
  {
  }
}
