/** The TS_* interface to the drives: channel and setup tables, and the calls on the active
    channel and axis.

    The world outside answers through an Env: interaction number t happens at clock(t)
    seconds and is answered by reply(t). With `native` set, channel, setup and axis
    selection are the table lookups of this repository; otherwise they may also fail for
    reasons of their own, as the TML_lib functions they stand in for do.

    Behind every axis id stands a drive with registers of its own, which hold what was written
    to them last - but for the `live` ones, which the drive itself changes as it runs. A call
    that names a variable reaches the register the channel's map has for that name. */
module TmlLib {
  import opened Codec
  import opened Masks

  const MAX_CHANNELS := 8
  const MAX_SETUPS := 16
  const ENDINIT_TRIES := 3
  const NO_FD: int := -1
  const NO_SETUP: int := -1

  type VarMap = map<string, word>

  /** Registers of one drive, by address; 0 where nothing is noted. */
  type Mem = map<word, word>

  function Cell(m: Mem, at: word): word { if at in m then m[at] else 0 }

  /** Registers every variable map starts from. */
  const DEFAULTS: VarMap := map[
    "APOS" := 0x0228, "TPOS" := 0x022A, "CPOS" := 0x022E, "CSPD" := 0x0230, "CACC" := 0x0232,
    "MCR" := 0x0908, "MSR" := 0x0909, "ISR" := 0x090A, "SRL" := 0x090E, "SRH" := 0x090F,
    "MER" := 0x0910, "SCR" := 0x0300, "SRL_MASK" := 0x0912, "SRH_MASK" := 0x0913,
    "MER_MASK" := 0x0914, "MASTERID" := 0x0916, "POTM" := 0x0240]

  /** The address a name stands for; a name the map lacks falls back to its default. */
  function Resolve(vars: VarMap, name: string): word {
    if name in vars then vars[name] else if name in DEFAULTS then DEFAULTS[name] else 0
  }

  /** One answer from outside: whether the call went through; if not, how many of its stores the
      drive carried out all the same; what a live register held; and the descriptor that
      opening a channel brought, negative if it failed. */
  datatype Reply = Reply(ok: bool, ran: nat, val: word, fd: int)

  /** `live` tells the registers the drive changes itself, `start` what it holds after a reset at
      interaction t, and `maskAt` where it keeps the mask of its motion error events. */
  datatype Env = Env(
    native: bool, host: byte, clock: nat -> real, reply: nat -> Reply, file: string -> VarMap,
    live: (byte, word) -> bool, start: nat -> Mem, maskAt: byte -> word)

  datatype Chan = Chan(fd: nat, axis: byte, vars: VarMap)

  /** g_channels, g_activeCh and g_setups. */
  datatype Tables = Tables(chans: seq<Option<Chan>>, active: Option<nat>, setups: seq<Option<VarMap>>)

  /** How many channels were opened so far, and how many of the openings made the axes start
      over; since when, in calls, the channel opened last has been open; and which setup was
      given to which axis id on it, in order. */
  datatype Marks = Marks(epoch: nat, resets: nat, since: nat, setupDone: seq<(byte, int)>)

  datatype Op =
    | EndInit | AxisOn | AxisOff | Abort | Reset
    | Read(name: string) | Write(name: string, val: word) | WriteLong(name: string, n: int)
    | Sap(pos: int)
    | MoveAbs(pos: int, speed: real, acc: real) | MoveRel(pos: int, speed: real, acc: real)
    | MoveVel(speed: real, acc: real)

  /** One call that put frames on the wire: to which axis id, with what outcome. */
  datatype Call = Call(dest: byte, op: Op, ok: bool, val: word)

  /** `mem` is what the drives hold, by axis id. */
  datatype Lib = Lib(tab: Tables, t: nat, sent: seq<Call>, opens: seq<real>, marks: Marks, mem: map<byte, Mem>)

  /** Nothing open, nothing loaded, nothing said. */
  function EmptyLib(mem: map<byte, Mem>): Lib {
    Lib(Tables(seq(MAX_CHANNELS, _ => None), None, seq(MAX_SETUPS, _ => None)), 0, [], [], Marks(0, 0, 0, []), mem)
  }

  // ----- Channels -----

  function FreeSlot<T>(s: seq<Option<T>>, i: nat): (r: Option<nat>)
    requires i <= |s|
    ensures r.Some? ==> i <= r.value < |s| && s[r.value] == None && forall k :: i <= k < r.value ==> s[k].Some?
    ensures r == None ==> forall k :: i <= k < |s| ==> s[k].Some?
    decreases |s| - i
  {
    if i == |s| then None else if s[i] == None then Some(i) else FreeSlot(s, i + 1)
  }

  function SlotOf(chans: seq<Option<Chan>>, fd: int, i: nat): (r: Option<nat>)
    requires i <= |chans|
    ensures r.Some? ==> i <= r.value < |chans| && chans[r.value].Some? && (fd < 0 || chans[r.value].value.fd == fd)
    ensures r == None ==> forall k :: i <= k < |chans| && chans[k].Some? ==> fd >= 0 && chans[k].value.fd != fd
    decreases |chans| - i
  {
    if i == |chans| then None
    else if chans[i].Some? && (fd < 0 || chans[i].value.fd == fd) then Some(i)
    else SlotOf(chans, fd, i + 1)
  }

  function AboveAll(chans: seq<Option<Chan>>): (fd: nat)
    ensures forall k :: 0 <= k < |chans| && chans[k].Some? ==> chans[k].value.fd < fd
  {
    if chans == [] then 0
    else
      var n, c := AboveAll(chans[..|chans| - 1]), chans[|chans| - 1];
      if c.Some? && c.value.fd >= n then c.value.fd + 1 else n
  }

  /** The operating system never hands out a descriptor that is in use. */
  function FreshFd(chans: seq<Option<Chan>>, wanted: nat): (fd: nat)
    ensures forall k :: 0 <= k < |chans| && chans[k].Some? ==> chans[k].value.fd != fd
  {
    if SlotOf(chans, wanted, 0) == None then wanted else AboveAll(chans)
  }

  function Tick(l: Lib): Lib { l.(t := l.t + 1) }

  /** `stamp` is the clock reading that let this attempt happen. */
  function OpenChannel(e: Env, l: Lib, stamp: real): (r: (Lib, int))
    ensures r.0.opens == l.opens + [stamp] && r.0.t == l.t + 1 && r.0.sent == l.sent && r.0.mem == l.mem
    ensures r.0.tab.setups == l.tab.setups && r.1 >= -1
    ensures r.1 < 0 ==> r.0.tab == l.tab && r.0.marks == l.marks
    ensures r.1 >= 0 ==> r.0.marks == Marks(l.marks.epoch + 1, l.marks.resets, |l.sent|, [])
  {
    var l' := Tick(l).(opens := l.opens + [stamp]);
    var slot := FreeSlot(l.tab.chans, 0);
    if slot == None || e.reply(l.t).fd < 0 then (l', NO_FD)
    else
      var fd := FreshFd(l.tab.chans, e.reply(l.t).fd);
      var chan := Chan(fd, e.host, DEFAULTS);
      (l'.(tab := Tables(l.tab.chans[slot.value := Some(chan)], slot, l.tab.setups),
           marks := Marks(l.marks.epoch + 1, l.marks.resets, |l.sent|, [])),
       fd as int)
  }

  /** The axes were made to start over on the channel just opened. */
  function StartedOver(l: Lib): Lib { l.(marks := l.marks.(resets := l.marks.resets + 1)) }

  function SelectChannel(e: Env, l: Lib, fd: int): (r: (Lib, bool))
    ensures r.0 == l.(t := r.0.t, tab := l.tab.(active := r.0.tab.active)) && r.0.t >= l.t
    ensures !r.1 ==> r.0.tab == l.tab
  {
    if fd < 0 then (l, l.tab.active.Some?)
    else
      var slot := SlotOf(l.tab.chans, fd, 0);
      if slot == None || !(e.native || e.reply(l.t).ok) then (Tick(l), false)
      else (Tick(l).(tab := l.tab.(active := slot)), true)
  }

  function CloseChannel(l: Lib, fd: int): (r: Lib)
    ensures r == l.(tab := Tables(r.tab.chans, r.tab.active, l.tab.setups)) && |r.tab.chans| == |l.tab.chans|
  {
    var slot := SlotOf(l.tab.chans, fd, 0);
    if slot == None then l
    else
      l.(tab := Tables(l.tab.chans[slot.value := None],
                       if l.tab.active == slot then None else l.tab.active,
                       l.tab.setups))
  }

  // ----- Setups and axes -----

  function LoadSetup(e: Env, l: Lib, path: string): (r: (Lib, int))
    ensures r.0 == l.(tab := l.tab.(setups := r.0.tab.setups))
    ensures r.1 < 0 ==> r.0 == l && r.1 == -1
    ensures r.1 >= 0 ==> r.1 < |l.tab.setups| && l.tab.setups[r.1] == None
                         && r.0.tab.setups == l.tab.setups[r.1 := Some(DEFAULTS + e.file(path))]
  {
    var slot := FreeSlot(l.tab.setups, 0);
    if slot == None then (l, NO_SETUP)
    else (l.(tab := l.tab.(setups := l.tab.setups[slot.value := Some(DEFAULTS + e.file(path))])), slot.value as int)
  }

  /** The active channel, where there is one. */
  function ActiveChan(l: Lib): Option<Chan> {
    if l.tab.active.Some? && l.tab.active.value < |l.tab.chans| then l.tab.chans[l.tab.active.value] else None
  }

  function PutChan(l: Lib, c: Chan): Lib
    requires ActiveChan(l).Some?
  {
    l.(tab := l.tab.(chans := l.tab.chans[l.tab.active.value := Some(c)]))
  }

  predicate SetupLoaded(l: Lib, idx: int) {
    0 <= idx < |l.tab.setups| && l.tab.setups[idx].Some?
  }

  function SetupAxis(e: Env, l: Lib, id: byte, idx: int): (r: (Lib, bool))
    ensures !r.1 ==> r.0.tab == l.tab && r.0.marks == l.marks
    ensures r.1 ==> ActiveChan(l).Some? && SetupLoaded(l, idx)
                    && r.0.marks == l.marks.(setupDone := l.marks.setupDone + [(id, idx)])
                    && var c := ActiveChan(l).value;
                       r.0.tab == PutChan(l, c.(vars := c.vars + l.tab.setups[idx].value)).tab
    ensures r.0 == l.(t := r.0.t, tab := r.0.tab, marks := r.0.marks) && r.0.t >= l.t
  {
    if ActiveChan(l) == None || !SetupLoaded(l, idx) then (l, false)
    else if !(e.native || e.reply(l.t).ok) then (Tick(l), false)
    else
      var c := ActiveChan(l).value;
      (PutChan(Tick(l), c.(vars := c.vars + l.tab.setups[idx].value))
         .(marks := l.marks.(setupDone := l.marks.setupDone + [(id, idx)])), true)
  }

  function SelectAxis(e: Env, l: Lib, id: byte): (r: (Lib, bool))
    ensures !r.1 ==> r.0.tab == l.tab
    ensures r.1 ==> ActiveChan(l).Some? && r.0.tab == PutChan(l, ActiveChan(l).value.(axis := id)).tab
    ensures r.0 == l.(t := r.0.t, tab := r.0.tab) && r.0.t >= l.t
  {
    if ActiveChan(l) == None then (l, false)
    else if !(e.native || e.reply(l.t).ok) then (Tick(l), false)
    else (PutChan(Tick(l), ActiveChan(l).value.(axis := id)), true)
  }

  // ----- Calls to the active axis -----

  predicate Addressed(l: Lib, id: byte) {
    ActiveChan(l).Some? && ActiveChan(l).value.axis == id
  }

  /** The registers of the drive with this id. */
  function Drive(l: Lib, id: byte): Mem { if id in l.mem then l.mem[id] else map[] }

  /** From l to r there were only calls to the active axis: they went to no one else and left
      every other drive's registers alone. */
  ghost predicate Talks(l: Lib, r: Lib) {
    && r == l.(t := r.t, sent := r.sent, mem := r.mem)
    && l.t <= r.t
    && l.sent <= r.sent
    && (forall j :: |l.sent| <= j < |r.sent| ==> Addressed(l, r.sent[j].dest))
    && (forall id :: !Addressed(l, id) ==> Drive(r, id) == Drive(l, id))
  }

  lemma TalksOn(a: Lib, b: Lib, c: Lib)
    requires Talks(a, b) && Talks(b, c)
    ensures Talks(a, c)
  {
    forall j | |a.sent| <= j < |c.sent| ensures Addressed(a, c.sent[j].dest) {
      if j < |b.sent| { assert c.sent[j] == b.sent[j]; }
    }
  }

  /** A 16-bit or a 32-bit register written; the low word goes to the lower address. */
  datatype Store = Short(at: word, val: word) | Long(at: word, low: word, high: word)

  function Succ(at: word): word { (at + 1) % 0x1_0000 }

  function Put(m: Mem, s: Store): Mem {
    match s
    case Short(at, val) => m[at := val]
    case Long(at, low, high) => m[at := low][Succ(at) := high]
  }

  function PutAll(m: Mem, stores: seq<Store>): Mem
    decreases |stores|
  {
    if stores == [] then m else PutAll(Put(m, stores[0]), stores[1..])
  }

  /** A 32-bit number in two's complement. */
  function LongStore(vars: VarMap, name: string, n: int): Store {
    var u := n % 0x1_0000_0000;
    Long(Resolve(vars, name), u % 0x1_0000, u / 0x1_0000)
  }

  function Magnitude(x: real): real { if x < 0.0 then -x else x }

  /** 16.16 fixed point, truncated toward zero. */
  function Fixed(x: real): int {
    if x < 0.0 then -((-x * 65536.0).Floor) else (x * 65536.0).Floor
  }

  /** An acceleration or speed of 0 is not written. */
  function Limit(vars: VarMap, name: string, x: real): seq<Store> {
    if x == 0.0 then [] else [LongStore(vars, name, Fixed(Magnitude(x)))]
  }

  function Profile(vars: VarMap, pos: int, speed: real, acc: real): seq<Store> {
    Limit(vars, "CACC", acc) + Limit(vars, "CSPD", speed) + [LongStore(vars, "CPOS", pos)]
  }

  /** The registers a call writes, in order. */
  function Stores(vars: VarMap, op: Op): seq<Store> {
    match op
    case Write(name, val) => [Short(Resolve(vars, name), val)]
    case WriteLong(name, n) => [LongStore(vars, name, n)]
    case MoveAbs(pos, speed, acc) => Profile(vars, pos, speed, acc)
    case MoveRel(pos, speed, acc) => Profile(vars, pos, speed, acc)
    case MoveVel(speed, acc) => Limit(vars, "CACC", acc) + [LongStore(vars, "CSPD", Fixed(speed))]
    case _ => []
  }

  /** What reading the register at an address brings. */
  function Sensed(e: Env, l: Lib, id: byte, at: word, val: word): word {
    if e.live(id, at) then val else Cell(Drive(l, id), at)
  }

  /** The value a call brings: for a read that of the register, the low word of a long one. */
  function Brought(e: Env, l: Lib, c: Chan, op: Op): word {
    if op.Read? then Sensed(e, l, c.axis, Resolve(c.vars, op.name), e.reply(l.t).val) else e.reply(l.t).val
  }

  /** The drives after a call: everything it writes is written if it went through, and if not,
      as much of it as the drive carried out. A reset brings back what the drive starts with. */
  function MemAfter(e: Env, l: Lib, c: Chan, op: Op): map<byte, Mem> {
    var a, stores := e.reply(l.t), Stores(c.vars, op);
    var n := if a.ok || a.ran > |stores| then |stores| else a.ran;
    if op.Reset? && (a.ok || a.ran > 0) then l.mem[c.axis := e.start(l.t)]
    else if n == 0 then l.mem
    else l.mem[c.axis := PutAll(Drive(l, c.axis), stores[..n])]
  }

  const NO_REPLY := Reply(false, 0, 0, 0)

  /** Without an active channel nothing is sent. */
  function Send(e: Env, l: Lib, op: Op): (r: (Lib, Reply))
    ensures Talks(l, r.0)
    ensures ActiveChan(l) == None ==> r == (l, NO_REPLY)
    ensures ActiveChan(l).Some? ==>
              var c := ActiveChan(l).value;
              && r.1 == e.reply(l.t).(val := Brought(e, l, c, op)) && r.0.t == l.t + 1
              && r.0.sent == l.sent + [Call(c.axis, op, r.1.ok, r.1.val)]
              && r.0.mem == MemAfter(e, l, c, op)
  {
    var c := ActiveChan(l);
    if c == None then (l, NO_REPLY)
    else
      var a := e.reply(l.t).(val := Brought(e, l, c.value, op));
      (Tick(l).(sent := l.sent + [Call(c.value.axis, op, a.ok, a.val)], mem := MemAfter(e, l, c.value, op)), a)
  }

  lemma NothingStored(e: Env, l: Lib, op: Op)
    requires !op.Write? && !op.WriteLong? && !op.MoveAbs? && !op.MoveRel? && !op.MoveVel? && !op.Reset?
    ensures Send(e, l, op).0.mem == l.mem
  {
  }

  /** A variable read by name, if the channel's map knows the name; 0 if it fails. */
  function GetVar(e: Env, l: Lib, name: string): (r: (Lib, bool, word))
    ensures Talks(l, r.0) && r.0.mem == l.mem
    ensures r.1 ==> ActiveChan(l).Some? && r.0.sent == l.sent + [Call(ActiveChan(l).value.axis, Read(name), true, r.2)]
    ensures !r.1 ==> r.2 == 0
  {
    if ActiveChan(l) == None || name !in ActiveChan(l).value.vars then (l, false, 0)
    else var (l', a) := Send(e, l, Read(name)); (l', a.ok, if a.ok then a.val else 0)
  }

  /** A 16-bit variable written by name. */
  function SetVar(e: Env, l: Lib, name: string, val: word): (r: (Lib, bool))
    ensures Talks(l, r.0)
  {
    if ActiveChan(l) == None || name !in ActiveChan(l).value.vars then (l, false)
    else var (l', a) := Send(e, l, Write(name, val)); (l', a.ok)
  }

  /** A 32-bit variable written by name. */
  function SetLong(e: Env, l: Lib, name: string, n: int): (r: (Lib, bool))
    ensures Talks(l, r.0)
  {
    if ActiveChan(l) == None || name !in ActiveChan(l).value.vars then (l, false)
    else var (l', a) := Send(e, l, WriteLong(name, n)); (l', a.ok)
  }

  /** ENDINIT, tried up to `tries` times. */
  function DriveInitialisation(e: Env, l: Lib, tries: nat): (r: (Lib, bool))
    ensures Talks(l, r.0) && r.0.mem == l.mem
    decreases tries
  {
    if tries == 0 || ActiveChan(l) == None then (l, false)
    else
      var (l', a) := Send(e, l, EndInit);
      if a.ok then (l', true)
      else
        var r := DriveInitialisation(e, l', tries - 1);
        assert Talks(l, r.0) by { TalksOn(l, l', r.0); }
        r
  }

  // ----- Registers read, changed and written back -----

  /** A register read, 0 if that fails. */
  function Fetch(e: Env, l: Lib, name: string): (r: (Lib, word))
    ensures Talks(l, r.0) && r.0.mem == l.mem
  {
    var (l', a) := Send(e, l, Read(name));
    (l', if a.ok then a.val else 0)
  }

  function SetEventOnLimitSwitch(e: Env, l: Lib, positive: bool): (r: (Lib, bool))
    ensures Talks(l, r.0)
  {
    var (l', m) := Fetch(e, l, "MER_MASK");
    var (r, a) := Send(e, l', Write("MER_MASK", Armed(m, positive)));
    assert Talks(l, r) by { TalksOn(l, l', r); }
    (r, a.ok)
  }

  /** The chosen limit bits cleared in a register, which is written only if that changes it. */
  function ClearBits(e: Env, l: Lib, name: string, lsp: bool, lsn: bool): (r: Lib)
    ensures Talks(l, r)
  {
    var (l', m) := Fetch(e, l, name);
    if Cleared(m, lsp, lsn) != m then
      var r := Send(e, l', Write(name, Cleared(m, lsp, lsn))).0;
      assert Talks(l, r) by { TalksOn(l, l', r); }
      r
    else l'
  }

  function ClearLimitSwitchEvent(e: Env, l: Lib): (r: Lib)
    ensures Talks(l, r)
  {
    var l' := ClearBits(e, l, "MER_MASK", true, true);
    var r := ClearBits(e, l', "MER", true, true);
    assert Talks(l, r) by { TalksOn(l, l', r); }
    r
  }

  function DisableLimitProtection(e: Env, l: Lib, lsp: bool, lsn: bool): (r: Lib)
    ensures Talks(l, r)
  {
    var (l1, m) := Fetch(e, l, "MER_MASK");
    var (l2, a) := Send(e, l1, Write("MER_MASK", Cleared(m, lsp, lsn)));
    var r := if a.ok then ClearBits(e, l2, "MER", lsp, lsn) else l2;
    assert Talks(l, r) by { TalksOn(l, l1, l2); if a.ok { TalksOn(l, l2, r); } }
    r
  }

  /** Bit 10 set. */
  function WithComplete(m: word): word { if m / 0x400 % 2 == 1 then m else m + 0x400 }

  function SetEventOnMotionComplete(e: Env, l: Lib): (r: Lib)
    ensures Talks(l, r)
  {
    var (l', m) := Fetch(e, l, "SRL_MASK");
    var r := Send(e, l', Write("SRL_MASK", WithComplete(m))).0;
    assert Talks(l, r) by { TalksOn(l, l', r); }
    r
  }

  function ResetFault(e: Env, l: Lib): (r: Lib)
    ensures Talks(l, r)
  {
    var l' := Fetch(e, l, "MER").0;
    var r := Send(e, l', Write("MER", 0)).0;
    assert Talks(l, r) by { TalksOn(l, l', r); }
    r
  }

  function ResetDrive(e: Env, l: Lib): (r: Lib)
    ensures Talks(l, r)
  {
    Send(e, l, Reset).0
  }
}
