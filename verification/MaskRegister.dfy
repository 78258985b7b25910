/** The register in which a drive keeps the mask of its motion error events, and the calls that
    reach it, where nothing goes unanswered. */
module MaskRegister {
  import opened Codec
  import opened Masks
  import opened TmlLib
  import opened Supervisor
  import opened Initialising

  /** What the drive holds in that register. */
  function Mask(e: Env, l: Lib, id: byte): word { Cell(Drive(l, id), e.maskAt(id)) }

  /** The names, apart from MER_MASK, under which the driver writes 16 and 32 bits. */
  const SHORTS := {"MER", "SRL_MASK", "SCR"}
  const LONGS := {"CPOS", "CSPD", "CACC", "APOS", "TPOS"}

  predicate Elsewhere(vars: VarMap, at: word, name: string) {
    && (name in SHORTS ==> Resolve(vars, name) != at)
    && (name in LONGS ==> Resolve(vars, name) != at && Succ(Resolve(vars, name)) != at)
  }

  /** Under these addresses nothing else the driver writes lies on the drive's mask register,
      which the drive does not change by itself either. */
  ghost predicate Apart(e: Env, id: byte, vars: VarMap) {
    !e.live(id, e.maskAt(id)) && forall name :: Elsewhere(vars, e.maskAt(id), name)
  }

  /** And MER_MASK is that register. */
  ghost predicate Fits(e: Env, id: byte, vars: VarMap) {
    Resolve(vars, "MER_MASK") == e.maskAt(id) && Apart(e, id, vars)
  }

  /** The active channel is aimed at the axis, with a map that fits its drive. */
  ghost predicate Fitted(e: Env, l: Lib, id: byte) {
    Addressed(l, id) && Fits(e, id, ActiveChan(l).value.vars)
  }

  /** The active channel is aimed at the axis, with a map that has MER_MASK elsewhere. */
  ghost predicate Astray(e: Env, l: Lib, id: byte) {
    Addressed(l, id) && Apart(e, id, ActiveChan(l).value.vars)
      && Resolve(ActiveChan(l).value.vars, "MER_MASK") != e.maskAt(id)
  }

  lemma TalkStaysFitted(e: Env, l: Lib, r: Lib, id: byte)
    requires Talks(l, r)
    ensures Fitted(e, l, id) ==> Fitted(e, r, id)
    ensures Astray(e, l, id) ==> Astray(e, r, id)
  {
    hide Fits, Apart;
  }

  lemma SameMem(e: Env, l: Lib, r: Lib, id: byte)
    requires r.mem == l.mem
    ensures Mask(e, r, id) == Mask(e, l, id)
  {
  }

  // ----- One call -----

  predicate Misses(at: word, s: Store) {
    match s
    case Short(a, _) => a != at
    case Long(a, _, _) => a != at && Succ(a) != at
  }

  lemma {:induction false} PutAllMisses(m: Mem, stores: seq<Store>, at: word)
    requires forall k :: 0 <= k < |stores| ==> Misses(at, stores[k])
    ensures Cell(PutAll(m, stores), at) == Cell(m, at)
    decreases |stores|
  {
    if stores != [] { PutAllMisses(Put(m, stores[0]), stores[1..], at); }
  }

  /** Calls that write under none but those names. */
  predicate Harmless(op: Op) {
    !op.Reset? && (op.Write? ==> op.name in SHORTS) && (op.WriteLong? ==> op.name in LONGS)
  }

  lemma LongMisses(e: Env, id: byte, vars: VarMap, name: string, n: int)
    requires Apart(e, id, vars) && name in LONGS
    ensures Misses(e.maskAt(id), LongStore(vars, name, n))
  {
    hide Resolve;
    assert Elsewhere(vars, e.maskAt(id), name);
  }

  lemma ShortMisses(e: Env, id: byte, vars: VarMap, name: string, v: word)
    requires Apart(e, id, vars) && name in SHORTS
    ensures Misses(e.maskAt(id), Short(Resolve(vars, name), v))
  {
    hide Resolve;
    assert Elsewhere(vars, e.maskAt(id), name);
  }

  lemma HarmlessMisses(e: Env, id: byte, vars: VarMap, op: Op)
    requires Apart(e, id, vars) && Harmless(op)
    ensures forall k :: 0 <= k < |Stores(vars, op)| ==> Misses(e.maskAt(id), Stores(vars, op)[k])
  {
    hide Apart, LongStore, Misses, Resolve;
    match op
    case Write(name, v) => ShortMisses(e, id, vars, name, v);
    case WriteLong(name, n) => LongMisses(e, id, vars, name, n);
    case MoveAbs(pos, speed, acc) => ProfileMisses(e, id, vars, pos, speed, acc);
    case MoveRel(pos, speed, acc) => ProfileMisses(e, id, vars, pos, speed, acc);
    case MoveVel(speed, acc) =>
      LongMisses(e, id, vars, "CACC", Fixed(Magnitude(acc)));
      LongMisses(e, id, vars, "CSPD", Fixed(speed));
    case _ =>
  }

  lemma ProfileMisses(e: Env, id: byte, vars: VarMap, pos: int, speed: real, acc: real)
    requires Apart(e, id, vars)
    ensures forall k :: 0 <= k < |Profile(vars, pos, speed, acc)| ==>
      Misses(e.maskAt(id), Profile(vars, pos, speed, acc)[k])
  {
    hide Apart, LongStore, Misses, Resolve;
    LongMisses(e, id, vars, "CACC", Fixed(Magnitude(acc)));
    LongMisses(e, id, vars, "CSPD", Fixed(Magnitude(speed)));
    LongMisses(e, id, vars, "CPOS", pos);
  }

  /** Whether it goes through, is lost or is carried out in part: it does not touch the mask. */
  lemma HarmlessSend(e: Env, l: Lib, op: Op, id: byte)
    requires (Fitted(e, l, id) || Astray(e, l, id)) && Harmless(op)
    ensures Mask(e, Send(e, l, op).0, id) == Mask(e, l, id)
    ensures Fitted(e, l, id) ==> Fitted(e, Send(e, l, op).0, id)
    ensures Astray(e, l, id) ==> Astray(e, Send(e, l, op).0, id)
  {
    hide Apart, Stores, Talks, Put, PutAll, Brought, Resolve;
    var c := ActiveChan(l).value;
    HarmlessMisses(e, id, c.vars, op);
    TalkStaysFitted(e, l, Send(e, l, op).0, id);
    var a, all := e.reply(l.t), |Stores(c.vars, op)|;
    var n: nat := if a.ok || a.ran > all then all else a.ran;
    PutAllMisses(Drive(l, id), Stores(c.vars, op)[..n], e.maskAt(id));
  }

  lemma WriteMask(e: Env, l: Lib, v: word, id: byte)
    requires Acked(e) && Fitted(e, l, id)
    ensures
      var (r, a) := Send(e, l, Write("MER_MASK", v));
      a.ok && Mask(e, r, id) == v && Fitted(e, r, id)
  {
    hide Resolve, Talks, Elsewhere;
    TalkStaysFitted(e, l, Send(e, l, Write("MER_MASK", v)).0, id);
    OneStore(Drive(l, id), e.maskAt(id), v);
    assert Stores(ActiveChan(l).value.vars, Write("MER_MASK", v))[..1] == [Short(e.maskAt(id), v)];
  }

  lemma OneStore(m: Mem, at: word, v: word)
    ensures PutAll(m, [Short(at, v)]) == m[at := v]
  {
    assert [Short(at, v)][1..] == [];
    assert PutAll(m[at := v], []) == m[at := v];
  }

  lemma FetchMask(e: Env, l: Lib, id: byte)
    requires Acked(e) && Fitted(e, l, id)
    ensures
      var (r, m) := Fetch(e, l, "MER_MASK");
      m == Mask(e, l, id) && Mask(e, r, id) == Mask(e, l, id) && Fitted(e, r, id)
  {
    hide Resolve, Talks, Elsewhere;
    TalkStaysFitted(e, l, Fetch(e, l, "MER_MASK").0, id);
  }

  lemma FetchLeaves(e: Env, l: Lib, name: string, id: byte)
    ensures Mask(e, Fetch(e, l, name).0, id) == Mask(e, l, id)
    ensures Fitted(e, l, id) ==> Fitted(e, Fetch(e, l, name).0, id)
    ensures Astray(e, l, id) ==> Astray(e, Fetch(e, l, name).0, id)
  {
    hide Talks, Fitted, Astray, Mask;
    TalkStaysFitted(e, l, Fetch(e, l, name).0, id);
    SameMem(e, l, Fetch(e, l, name).0, id);
  }

  // ----- Several calls -----

  lemma ClearMask(e: Env, l: Lib, lsp: bool, lsn: bool, id: byte)
    requires Acked(e) && Fitted(e, l, id)
    ensures
      var r := ClearBits(e, l, "MER_MASK", lsp, lsn);
      Mask(e, r, id) == Cleared(Mask(e, l, id), lsp, lsn) && Fitted(e, r, id)
  {
    hide Fetch, Send, Talks, Cleared, Fitted, Mask;
    FetchMask(e, l, id);
    var (l', m) := Fetch(e, l, "MER_MASK");
    WriteMask(e, l', Cleared(m, lsp, lsn), id);
  }

  lemma ClearLeaves(e: Env, l: Lib, lsp: bool, lsn: bool, id: byte)
    requires Fitted(e, l, id) || Astray(e, l, id)
    ensures
      var r := ClearBits(e, l, "MER", lsp, lsn);
      Mask(e, r, id) == Mask(e, l, id) && (Fitted(e, l, id) ==> Fitted(e, r, id))
        && (Astray(e, l, id) ==> Astray(e, r, id))
  {
    hide Fetch, Send, Talks, Cleared, Fitted, Astray, Mask;
    FetchLeaves(e, l, "MER", id);
    var (l', m) := Fetch(e, l, "MER");
    HarmlessSend(e, l', Write("MER", Cleared(m, lsp, lsn)), id);
  }

  lemma AckedClear(e: Env, l: Lib, id: byte)
    requires Acked(e) && Fitted(e, l, id)
    ensures
      var r := ClearLimitSwitchEvent(e, l);
      Mask(e, r, id) == Cleared(Mask(e, l, id), true, true) && Fitted(e, r, id)
  {
    hide ClearBits, Talks, Cleared, Fitted, Mask;
    ClearMask(e, l, true, true, id);
    ClearLeaves(e, ClearBits(e, l, "MER_MASK", true, true), true, true, id);
  }

  lemma AckedLaunch(e: Env, l: Lib, op: Op, id: byte)
    requires Acked(e) && Fitted(e, l, id) && Harmless(op)
    ensures
      var (r, ok) := Launch(e, l, op);
      ok && Mask(e, r, id) == Cleared(Mask(e, l, id), true, true) && Fitted(e, r, id)
  {
    hide ClearLimitSwitchEvent, Send, Talks, Cleared, Fitted, Mask, Harmless;
    AckedClear(e, l, id);
    HarmlessSend(e, ClearLimitSwitchEvent(e, l), op, id);
    FittedActive(e, ClearLimitSwitchEvent(e, l), id);
  }

  lemma FittedActive(e: Env, l: Lib, id: byte)
    requires Fitted(e, l, id)
    ensures Addressed(l, id) && ActiveChan(l).Some?
  {
  }

  lemma AckedLaunchMove(e: Env, l: Lib, op: Op, id: byte)
    requires Acked(e) && Fitted(e, l, id) && Harmless(op)
    ensures LaunchMove(e, l, op).1 && Mask(e, LaunchMove(e, l, op).0, id) == Cleared(Mask(e, l, id), true, true)
  {
    hide Launch, Fetch, Send, Talks, Cleared, Fitted, Mask;
    AckedLaunch(e, l, op, id);
    var l1 := Launch(e, l, op).0;
    FetchLeaves(e, l1, "SRL_MASK", id);
    var (l2, m) := Fetch(e, l1, "SRL_MASK");
    HarmlessSend(e, l2, Write("SRL_MASK", WithComplete(m)), id);
  }

  lemma AckedArm(e: Env, l: Lib, forwards: bool, id: byte)
    requires Acked(e) && Fitted(e, l, id)
    ensures
      var (r, ok) := SetEventOnLimitSwitch(e, l, forwards);
      ok && Mask(e, r, id) == Armed(Mask(e, l, id), forwards)
  {
    hide Fetch, Send, Talks, Armed, Fitted, Mask;
    FetchMask(e, l, id);
    var (l1, m) := Fetch(e, l, "MER_MASK");
    WriteMask(e, l1, Armed(m, forwards), id);
  }

  lemma AckedLaunchHome(e: Env, l: Lib, op: Op, forwards: bool, id: byte)
    requires Acked(e) && Fitted(e, l, id) && Harmless(op)
    ensures
      var (r, ok) := LaunchHome(e, l, op, forwards);
      ok && Mask(e, r, id) == Armed(Cleared(Mask(e, l, id), true, true), forwards)
  {
    hide Launch, SetEventOnLimitSwitch, Talks, Cleared, Armed, Fitted, Mask;
    AckedLaunch(e, l, op, id);
    AckedArm(e, Launch(e, l, op).0, forwards, id);
  }

  lemma AckedZero(e: Env, l: Lib, id: byte)
    requires Acked(e) && Fitted(e, l, id)
    ensures Mask(e, ZeroPosition(e, l), id) == Cleared(Mask(e, l, id), true, true)
  {
    hide ClearLimitSwitchEvent, Send, Talks, Cleared, Fitted, Mask;
    HarmlessSend(e, l, Sap(0), id);
    AckedClear(e, Send(e, l, Sap(0)).0, id);
  }

  lemma AckedHalt(e: Env, l: Lib, homing: bool, id: byte)
    requires Acked(e) && Fitted(e, l, id)
    ensures Mask(e, Halt(e, l, homing), id) == if homing then Cleared(Mask(e, l, id), true, true) else Mask(e, l, id)
  {
    hide ClearLimitSwitchEvent, Send, Talks, Cleared, Fitted, Mask;
    HarmlessSend(e, l, Abort, id);
    AckedClear(e, Send(e, l, Abort).0, id);
  }

  lemma AckedDisable(e: Env, l: Lib, lsp: bool, lsn: bool, id: byte)
    requires Acked(e) && Fitted(e, l, id)
    ensures Mask(e, DisableLimitProtection(e, l, lsp, lsn), id) == Cleared(Mask(e, l, id), lsp, lsn)
  {
    hide Fetch, Send, ClearBits, Talks, Cleared, Fitted, Mask;
    FetchMask(e, l, id);
    var (l1, m) := Fetch(e, l, "MER_MASK");
    WriteMask(e, l1, Cleared(m, lsp, lsn), id);
    ClearLeaves(e, Send(e, l1, Write("MER_MASK", Cleared(m, lsp, lsn))).0, lsp, lsn, id);
  }

  /** The command parameters, a reset of the drive aside, leave the mask alone. */
  lemma CarryLeaves(e: Env, l: Lib, p: Param, id: byte)
    requires Fitted(e, l, id) && !p.ResetDriveParam?
    ensures Mask(e, Carry(e, l, p).0, id) == Mask(e, l, id)
  {
    hide Fetch, Send, Talks, Fitted, Mask;
    match p
    case ResetFaultParam =>
      FetchLeaves(e, l, "MER", id);
      HarmlessSend(e, Fetch(e, l, "MER").0, Write("MER", 0), id);
    case ClearEncoderParam => HarmlessSend(e, l, WriteLong("APOS", 0), id);
    case ClearStepsParam => HarmlessSend(e, l, WriteLong("TPOS", 0), id);
    case _ =>
  }

  // ----- Initialising -----

  /** After ENDINIT the ignored limits are switched off, and nothing else in the mask changes. */
  lemma AckedSettle(e: Env, l: Lib, a: Axis)
    requires Acked(e) && Fitted(e, l, a.cfg.id)
    ensures Mask(e, AfterEndInit(e, l, a), a.cfg.id) == Cleared(Mask(e, l, a.cfg.id), a.cfg.ignoreLsp, a.cfg.ignoreLsn)
  {
    hide ReadAll, GetVar, SetVar, DisableLimitProtection, Talks, Cleared, Fitted, Mask;
    var id := a.cfg.id;
    var l1 := ReadAll(e, l, ["MER", "MER_MASK"]);
    var l' := SetVar(e, l1, "SCR", a.cfg.scr).0;
    var l2 := if a.cfg.scr != 0 then GetVar(e, l', "APOS").0 else l1;
    TalkStaysFitted(e, l, l1, id);
    SameMem(e, l, l1, id);
    SetVarLeaves(e, l1, a.cfg.scr, id);
    TalkStaysFitted(e, l', GetVar(e, l', "APOS").0, id);
    SameMem(e, l', GetVar(e, l', "APOS").0, id);
    AckedDisable(e, l2, a.cfg.ignoreLsp, a.cfg.ignoreLsn, id);
    NothingCleared(Mask(e, l2, id));
  }

  lemma SetVarLeaves(e: Env, l: Lib, v: word, id: byte)
    requires Fitted(e, l, id)
    ensures Mask(e, SetVar(e, l, "SCR", v).0, id) == Mask(e, l, id) && Fitted(e, SetVar(e, l, "SCR", v).0, id)
  {
    hide Send, Talks, Fitted, Mask;
    HarmlessSend(e, l, Write("SCR", v), id);
  }

  lemma NothingCleared(m: word)
    ensures Cleared(m, false, false) == m
  {
    hide HasLsp, HasLsn, LimitsSet;
    Split(m);
  }

  /** Every name the driver writes under has an address in the setup itself. */
  predicate Complete(vars: VarMap) { forall name :: name in DEFAULTS ==> name in vars }

  lemma DefaultsComplete(f: VarMap)
    ensures Complete(DEFAULTS + f)
  {
  }

  /** A complete setup that fits makes the map fit, whatever was in it before. */
  lemma SetupMakesFit(e: Env, id: byte, vars: VarMap, setup: VarMap)
    requires Complete(setup) && Fits(e, id, setup)
    ensures Fits(e, id, vars + setup)
  {
    assert "MER_MASK" in DEFAULTS;
    forall name ensures Elsewhere(vars + setup, e.maskAt(id), name) {
      assert Elsewhere(setup, e.maskAt(id), name);
      assert name in SHORTS || name in LONGS ==> name in DEFAULTS;
    }
  }

  /** Initialising with such a setup clears the limits to be ignored from the mask. */
  lemma AckedSetUp(e: Env, l: Lib, a: Axis, idx: int)
    requires Acked(e) && ActiveChan(l).Some? && SetupLoaded(l, idx)
    requires Complete(l.tab.setups[idx].value) && Fits(e, a.cfg.id, l.tab.setups[idx].value)
    ensures
      var (r, ok) := SetUp(e, l, a, idx);
      && ok && Fitted(e, r, a.cfg.id)
      && Mask(e, r, a.cfg.id) == Cleared(Mask(e, l, a.cfg.id), a.cfg.ignoreLsp, a.cfg.ignoreLsn)
  {
    hide AfterEndInit, Fits, Talks, Cleared, Mask, Complete, BringUp;
    AckedBringUp(e, l, a.cfg.id, idx);
    var l' := BringUp(e, l, a.cfg.id, idx).0;
    SameMem(e, l, l', a.cfg.id);
    AckedSettle(e, l', a);
    TalkStaysFitted(e, l', AfterEndInit(e, l', a), a.cfg.id);
  }

  lemma AckedBringUp(e: Env, l: Lib, id: byte, idx: int)
    requires Acked(e) && ActiveChan(l).Some? && SetupLoaded(l, idx)
    requires Complete(l.tab.setups[idx].value) && Fits(e, id, l.tab.setups[idx].value)
    ensures
      var (r, ok) := BringUp(e, l, id, idx);
      ok && Fitted(e, r, id) && r.mem == l.mem
  {
    hide Fits, Talks, Complete, DriveInitialisation;
    AckedBringUpSucceeds(e, l, id, idx);
    var l1 := SetupAxis(e, l, id, idx).0;
    var l2 := SelectAxis(e, l1, id).0;
    SetupMakesFit(e, id, ActiveChan(l).value.vars, l.tab.setups[idx].value);
    assert Fitted(e, l2, id);
    var l3 := DriveInitialisation(e, l2, ENDINIT_TRIES).0;
    TalkStaysFitted(e, l2, l3, id);
  }

  // ----- When the map does not fit -----

  /** With MER_MASK elsewhere, what is written to it does not reach the drive's mask. */
  lemma StrayWrite(e: Env, l: Lib, v: word, id: byte)
    requires Astray(e, l, id)
    ensures
      var r := Send(e, l, Write("MER_MASK", v)).0;
      Mask(e, r, id) == Mask(e, l, id) && Astray(e, r, id)
  {
    hide Apart, Resolve, Talks, Brought, PutAll;
    var vars := ActiveChan(l).value.vars;
    var r := Send(e, l, Write("MER_MASK", v)).0;
    TalkStaysFitted(e, l, r, id);
    OneStore(Drive(l, id), Resolve(vars, "MER_MASK"), v);
    assert Stores(vars, Write("MER_MASK", v))[..1] == [Short(Resolve(vars, "MER_MASK"), v)];
  }

  lemma StrayClear(e: Env, l: Lib, id: byte)
    requires Astray(e, l, id)
    ensures
      var r := ClearLimitSwitchEvent(e, l);
      Mask(e, r, id) == Mask(e, l, id) && Astray(e, r, id)
  {
    hide Fetch, Send, Talks, Cleared, Fitted, Astray, Mask;
    FetchLeaves(e, l, "MER_MASK", id);
    var (l1, m) := Fetch(e, l, "MER_MASK");
    StrayWrite(e, l1, Cleared(m, true, true), id);
    ClearLeaves(e, ClearBits(e, l, "MER_MASK", true, true), true, true, id);
  }

  /** A home started over such a map is acknowledged like any other, and arms nothing. */
  lemma StrayLaunchHome(e: Env, l: Lib, op: Op, forwards: bool, id: byte)
    requires Acked(e) && Astray(e, l, id) && Harmless(op)
    ensures
      var (r, ok) := LaunchHome(e, l, op, forwards);
      ok && Mask(e, r, id) == Mask(e, l, id)
  {
    hide ClearLimitSwitchEvent, Fetch, Send, Talks, Armed, Fitted, Astray, Mask, Harmless;
    StrayClear(e, l, id);
    var l1 := ClearLimitSwitchEvent(e, l);
    StrayActive(e, l1, id);
    HarmlessSend(e, l1, op, id);
    var l2 := Send(e, l1, op).0;
    FetchLeaves(e, l2, "MER_MASK", id);
    var (l3, m) := Fetch(e, l2, "MER_MASK");
    StrayActive(e, l3, id);
    StrayWrite(e, l3, Armed(m, forwards), id);
  }

  lemma StrayActive(e: Env, l: Lib, id: byte)
    requires Astray(e, l, id)
    ensures ActiveChan(l).Some?
  {
  }

  /** An acknowledged arming arms the drive's event exactly if the map has MER_MASK at the
      drive's own register; otherwise the register is left as it was. */
  lemma ArmedIffResolved(e: Env, l: Lib, forwards: bool, id: byte)
    requires Acked(e) && Addressed(l, id) && !e.live(id, e.maskAt(id))
    ensures
      var (r, ok) := SetEventOnLimitSwitch(e, l, forwards);
      var here := Resolve(ActiveChan(l).value.vars, "MER_MASK") == e.maskAt(id);
      ok && Mask(e, r, id) == if here then Armed(Mask(e, l, id), forwards) else Mask(e, l, id)
  {
    hide Resolve, Talks, Armed;
    var vars := ActiveChan(l).value.vars;
    var (l1, m) := Fetch(e, l, "MER_MASK");
    AddressedStill(l, l1, id);
    assert l1.tab == l.tab;
    OneStore(Drive(l1, id), Resolve(vars, "MER_MASK"), Armed(m, forwards));
    assert Stores(vars, Write("MER_MASK", Armed(m, forwards)))[..1]
      == [Short(Resolve(vars, "MER_MASK"), Armed(m, forwards))];
  }

  lemma AddressedStill(l: Lib, r: Lib, id: byte)
    requires Talks(l, r) && Addressed(l, id)
    ensures Addressed(r, id)
  {
  }

  /** That calls are acknowledged is needed as well: an arming whose answer is lost is reported
      as failed, and the event is armed all the same exactly if the drive had acted on it. */
  lemma LostAnswerDecouples(e: Env, l: Lib, forwards: bool, id: byte)
    requires Fitted(e, l, id) && e.reply(l.t).ok && !e.reply(l.t + 1).ok
    ensures
      var (r, ok) := SetEventOnLimitSwitch(e, l, forwards);
      && !ok
      && Mask(e, r, id) == if e.reply(l.t + 1).ran > 0 then Armed(Mask(e, l, id), forwards) else Mask(e, l, id)
  {
    hide Resolve, Talks, Armed, Elsewhere;
    var vars := ActiveChan(l).value.vars;
    var (l1, m) := Fetch(e, l, "MER_MASK");
    AddressedStill(l, l1, id);
    assert l1.tab == l.tab;
    OneStore(Drive(l1, id), e.maskAt(id), Armed(m, forwards));
    assert Stores(vars, Write("MER_MASK", Armed(m, forwards)))[..1] == [Short(e.maskAt(id), Armed(m, forwards))];
  }
}
