/** Register programs: what a drive is after the driver's motion commands, when the link
    may run a frame twice or lose it.

    The drive is a 16-bit data memory, the Motion Control Register, a target position and
    the profile it last started. The MCR instruction sets MCR := (MCR & mask) | value; UPD!
    starts the profile MCR describes, with the parameters found in the memory. */
module Motion {
  import opened Codec

  const WRITE_DATA_16: word := 0x9004
  const WRITE_DATA_32: word := 0x9005
  const MCR_CONFIG: word := 0x5909
  const GIVE_ME_DATA_16: word := 0xB004
  const UPD: word := 0x0008
  const UPD_IMM: word := 0x0108

  const CPA_MASK: bv16 := 0xFFFF
  const CPA_VAL: bv16 := 0x2000
  const CPR_MASK: bv16 := 0xDFFF
  const CPR_VAL: bv16 := 0x0000
  const PP3_MASK: bv16 := 0xBFC1
  const PP3_VAL: bv16 := 0x8701
  const SP1_MASK: bv16 := 0xBBC1
  const SP1_VAL: bv16 := 0x8301
  const TUM1_MASK: bv16 := 0xFFFF
  const TUM1_VAL: bv16 := 0x4000

  const ABSOLUTE: bv16 := 0x2000  // MCR bit 13
  const POSITION: bv16 := 0x0400  // MCR bit 10: set by MODE PP3, cleared by MODE SP1

  // ----- The drive -----

  /** Where the drive keeps its motion parameters, two words each, and its error words. */
  datatype Vars = Vars(cpos: word, cspd: word, cacc: word, srl: word, mer: word, merMask: word)

  function Next(a: word): word { (a + 1) % 0x1_0000 }

  predicate Apart(a: word, b: word) { a != b && Next(a) != b && a != Next(b) }

  function MotionWords(v: Vars): set<word> {
    {v.cpos, Next(v.cpos), v.cspd, Next(v.cspd), v.cacc, Next(v.cacc)}
  }

  /** No variable overlaps another. */
  predicate Disjoint(v: Vars) {
    && Apart(v.cpos, v.cspd) && Apart(v.cpos, v.cacc) && Apart(v.cspd, v.cacc)
    && v.srl !in MotionWords(v) && v.mer !in MotionWords(v) && v.merMask !in MotionWords(v)
    && v.srl != v.mer && v.srl != v.merMask && v.mer != v.merMask
  }

  /** A 32-bit value as its low and high word. */
  datatype Long = Long(lo: word, hi: word)

  /** A C long cast to 32 bits: its value modulo 2^32. */
  function U32(x: int): (l: Long)
    ensures Value(l) == x % 0x1_0000_0000
  {
    Long(x % 0x1_0000, x / 0x1_0000 % 0x1_0000)
  }

  function Value(l: Long): nat { l.lo + 0x1_0000 * l.hi }

  /** A started profile: the MCR it was started under, where it heads, how fast. */
  datatype Profile = Profile(mcr: bv16, goal: nat, speed: Long, accel: Long)

  datatype Drive = Drive(dm: map<word, word>, mcr: bv16, goal: nat, profile: Option<Profile>)

  function Get(d: Drive, a: word): word { if a in d.dm then d.dm[a] else 0 }

  function Get32(d: Drive, a: word): Long { Long(Get(d, a), Get(d, Next(a))) }

  function Put(d: Drive, a: word, v: word): Drive { d.(dm := d.dm[a := v]) }

  function Put32(d: Drive, a: word, v: Long): Drive { Put(Put(d, a, v.lo), Next(a), v.hi) }

  /** Where UPD! sends the reference generator: nowhere new in a speed profile, to CPOS in
      an absolute position profile, by CPOS further in a relative one. */
  function NewGoal(mcr: bv16, goal: nat, cpos: Long): nat {
    if mcr & POSITION == 0 then goal
    else if mcr & ABSOLUTE != 0 then Value(cpos)
    else Wrap(goal + Value(cpos))
  }

  function Wrap(x: nat): nat { x % 0x1_0000_0000 }

  function Update(d: Drive, v: Vars): Drive {
    var goal := NewGoal(d.mcr, d.goal, Get32(d, v.cpos));
    d.(goal := goal, profile := Some(Profile(d.mcr, goal, Get32(d, v.cspd), Get32(d, v.cacc))))
  }

  // ----- Instructions, as the drive takes them and as frames -----

  datatype Cmd =
    | Write16(a: word, v: word)
    | Write32(a: word, l: Long)
    | Chmod(mask: bv16, val: bv16)
    | Read16(a: word)
    | Simple(op: word)

  function Exec(d: Drive, v: Vars, c: Cmd): Drive {
    match c
    case Write16(a, x) => Put(d, a, x)
    case Write32(a, l) => Put32(d, a, l)
    case Chmod(mask, val) => d.(mcr := (d.mcr & mask) | val)
    case Read16(_) => d
    case Simple(op) => if op == UPD_IMM then Update(d, v) else d
  }

  function Frame(axis: byte, host: byte, c: Cmd): TmlMsg {
    var addr: word := 0x10 * axis;
    match c
    case Write16(a, x) => TmlMsg(addr, WRITE_DATA_16, [a, x])
    case Write32(a, l) => TmlMsg(addr, WRITE_DATA_32, [a, l.lo, l.hi])
    case Chmod(mask, val) => TmlMsg(addr, MCR_CONFIG, [mask as word, val as word])
    case Read16(a) => TmlMsg(addr, GIVE_ME_DATA_16, [0x10 * host + 1, a])
    case Simple(op) => TmlMsg(addr, op, [])
  }

  /** The drive's reading of a frame. */
  function Understand(m: TmlMsg): Cmd {
    if m.opCode == WRITE_DATA_16 && |m.data| >= 2 then Write16(m.data[0], m.data[1])
    else if m.opCode == WRITE_DATA_32 && |m.data| >= 3 then Write32(m.data[0], Long(m.data[1], m.data[2]))
    else if m.opCode == MCR_CONFIG && |m.data| >= 2 then Chmod(m.data[0] as bv16, m.data[1] as bv16)
    else if m.opCode == GIVE_ME_DATA_16 && |m.data| >= 2 then Read16(m.data[1])
    else Simple(m.opCode)
  }

  /** An instruction reaches the drive it is addressed to as it was meant: through frame,
      wire bytes and the drive's decoder. */
  lemma Understood(axis: byte, host: byte, c: Cmd, tail: seq<byte>)
    ensures |Frame(axis, host, c).data| <= MAX_WORDS
    ensures var m := Decode(Encode(Frame(axis, host, c)) + tail);
            m.Some? && Understand(m.value) == c && m.value.addr == 0x10 * axis
  {
    hide Encode, Decode;
    DecodeEncode(Frame(axis, host, c), tail);
  }

  // ----- Programs over a link that repeats -----

  /** What became of one send: how often the drive ran the frame, whether an ACK came back,
      and whether a read request was answered as well. */
  datatype Outcome = Outcome(runs: nat, acked: bool, answered: bool)

  /** A frame is written at most twice, each copy is run at most once, and the drive sends
      an ACK only for a frame it ran. */
  predicate Honest(o: Outcome) { o.runs <= 2 && (o.acked ==> o.runs >= 1) }

  ghost predicate HonestLink(link: nat -> Outcome) { forall k: nat :: Honest(link(k)) }

  function Runs(d: Drive, v: Vars, c: Cmd, n: nat): Drive {
    if n == 0 then d else Exec(Runs(d, v, c, n - 1), v, c)
  }

  /** A step that must be acknowledged, or one whose failure is ignored. */
  datatype Step = Must(c: Cmd) | Try(c: Cmd)

  datatype State = State(d: Drive, k: nat, sent: seq<Cmd>, ok: bool)

  function Take1(s: State, v: Vars, link: nat -> Outcome, st: Step): State {
    if !s.ok then s
    else State(Runs(s.d, v, st.c, link(s.k).runs), s.k + 1, s.sent + [st.c], st.Try? || link(s.k).acked)
  }

  function Play(s: State, v: Vars, link: nat -> Outcome, p: seq<Step>): State {
    if p == [] then s else Take1(Play(s, v, link, p[..|p| - 1]), v, link, p[|p| - 1])
  }

  /** Every instruction run exactly once. */
  function Clean(d: Drive, v: Vars, p: seq<Step>): Drive {
    if p == [] then d else Exec(Clean(d, v, p[..|p| - 1]), v, p[|p| - 1].c)
  }

  /** Running c a second time would change something: UPD! whose goal moves again. */
  predicate Harmful(d: Drive, v: Vars, c: Cmd) {
    c == Simple(UPD_IMM) && NewGoal(d.mcr, NewGoal(d.mcr, d.goal, Get32(d, v.cpos)), Get32(d, v.cpos))
                            != NewGoal(d.mcr, d.goal, Get32(d, v.cpos))
  }

  /** That is the relative position profile with a non-zero increment, and nothing else. */
  lemma HarmfulIsRelative(d: Drive, v: Vars, c: Cmd)
    ensures Harmful(d, v, c) <==>
              c == Simple(UPD_IMM) && d.mcr & POSITION != 0 && d.mcr & ABSOLUTE == 0 && Value(Get32(d, v.cpos)) != 0
  {
    hide Wrap, Value;
    WrapMoves(d.goal, Get32(d, v.cpos));
  }

  lemma WrapMoves(g: nat, x: Long)
    ensures Wrap(Wrap(g + Value(x)) + Value(x)) == Wrap(g + Value(x)) <==> Value(x) == 0
  {
  }

  lemma TwiceIsOnce(d: Drive, v: Vars, c: Cmd)
    ensures Exec(Exec(d, v, c), v, c) == Exec(d, v, c) <==> !Harmful(d, v, c)
  {
    match c
    case Chmod(mask, val) => ChmodTwice(d.mcr, mask, val);
    case Write16(a, x) =>
      assert d.dm[a := x][a := x] == d.dm[a := x];
    case Write32(a, l) =>
      var m := d.dm[a := l.lo][Next(a) := l.hi];
      assert m[a := l.lo][Next(a) := l.hi] == m;
    case Read16(_) =>
    case Simple(_) => UpdateTwice(d, v);
  }

  lemma ChmodTwice(m: bv16, mask: bv16, val: bv16)
    ensures (((m & mask) | val) & mask) | val == (m & mask) | val
  {
  }

  lemma UpdateTwice(d: Drive, v: Vars)
    ensures Update(Update(d, v), v) == Update(d, v) <==> !Harmful(d, v, Simple(UPD_IMM))
  {
    hide NewGoal;
  }

  /** No step of p does harm when repeated, and only reads may go unacknowledged. */
  ghost predicate Steady(d: Drive, v: Vars, p: seq<Step>) {
    forall i :: 0 <= i < |p| ==> !Harmful(Clean(d, v, p[..i]), v, p[i].c) && (p[i].Try? ==> p[i].c.Read16?)
  }

  lemma PlayAppend(s: State, v: Vars, link: nat -> Outcome, p: seq<Step>, st: Step)
    ensures Play(s, v, link, p + [st]) == Take1(Play(s, v, link, p), v, link, st)
  {
    assert (p + [st])[..|p|] == p;
  }

  lemma CleanAppend(d: Drive, v: Vars, p: seq<Step>, st: Step)
    ensures Clean(d, v, p + [st]) == Exec(Clean(d, v, p), v, st.c)
  {
    assert (p + [st])[..|p|] == p;
  }

  /** Nothing is sent any more once a step has failed. */
  lemma {:induction false} PlayStuck(s: State, v: Vars, link: nat -> Outcome, p: seq<Step>, q: seq<Step>)
    requires !Play(s, v, link, p).ok
    ensures Play(s, v, link, p + q) == Play(s, v, link, p)
    decreases |q|
  {
    if q == [] {
      assert p + q == p;
    } else {
      PlayStuck(s, v, link, p, q[..|q| - 1]);
      PlayAppend(s, v, link, p + q[..|q| - 1], q[|q| - 1]);
      assert p + q == p + q[..|q| - 1] + [q[|q| - 1]];
    }
  }

  lemma {:induction false} RunsIsExec(d: Drive, v: Vars, c: Cmd, n: nat)
    requires !Harmful(d, v, c) && n >= 1
    ensures Runs(d, v, c, n) == Exec(d, v, c)
  {
    hide Exec, Harmful;
    if n > 1 {
      RunsIsExec(d, v, c, n - 1);
      TwiceIsOnce(d, v, c);
    } else {
      assert Runs(d, v, c, 0) == d;
    }
  }

  lemma {:induction false} RunsRead(d: Drive, v: Vars, c: Cmd, n: nat)
    requires c.Read16?
    ensures Runs(d, v, c, n) == d
  {
    if n > 0 { RunsRead(d, v, c, n - 1); }
  }

  lemma SteadyPrefix(d: Drive, v: Vars, p: seq<Step>, n: nat)
    requires Steady(d, v, p) && n <= |p|
    ensures Steady(d, v, p[..n])
  {
    hide Harmful, Clean;
    forall i | 0 <= i < n
      ensures p[..n][..i] == p[..i] && p[..n][i] == p[i]
    {
    }
  }

  /** Retransmission is invisible: a program that succeeds over an honest link, and has no
      step that does harm when repeated, leaves the drive as one clean run would. */
  lemma {:induction false} Refines(s: State, v: Vars, link: nat -> Outcome, p: seq<Step>)
    requires HonestLink(link) && s.ok && Play(s, v, link, p).ok && Steady(s.d, v, p)
    ensures Play(s, v, link, p).d == Clean(s.d, v, p)
    decreases |p|
  {
    hide Harmful, Exec, Runs;
    if p != [] {
      var q, st := p[..|p| - 1], p[|p| - 1];
      SteadyPrefix(s.d, v, p, |p| - 1);
      Refines(s, v, link, q);
      var t := Play(s, v, link, q);
      assert Honest(link(t.k));
      if st.Try? {
        RunsRead(t.d, v, st.c, link(t.k).runs);
        assert Exec(t.d, v, st.c) == t.d by { ReadChangesNothing(t.d, v, st.c); }
      } else {
        RunsIsExec(t.d, v, st.c, link(t.k).runs);
      }
    }
  }

  lemma ReadChangesNothing(d: Drive, v: Vars, c: Cmd)
    requires c.Read16?
    ensures Exec(d, v, c) == d
  {
  }
}
