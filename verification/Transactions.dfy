/** One call of the library against the frames it is made of: whatever a link does to the
    frames, the drive's registers end up as the call's stores say, all of them or some first
    part. */
module Transactions {
  import opened Codec
  import opened TmlLib
  import M = Motion
  import P = Programs

  // ----- A program's writes -----

  function StoresOf(c: M.Cmd): seq<Store> {
    match c
    case Write16(a, x) => [Short(a, x)]
    case Write32(a, x) => [Long(a, x.lo, x.hi)]
    case _ => []
  }

  function AllStores(p: seq<M.Step>): seq<Store> {
    if p == [] then [] else AllStores(p[..|p| - 1]) + StoresOf(p[|p| - 1].c)
  }

  lemma {:induction false} PutAllOn(m: Mem, a: seq<Store>, b: seq<Store>)
    ensures PutAll(m, a + b) == PutAll(PutAll(m, a), b)
    decreases |a|
  {
    hide Put;
    if a == [] { assert a + b == b; }
    else {
      assert (a + b)[1..] == a[1..] + b;
      PutAllOn(Put(m, a[0]), a[1..], b);
    }
  }

  lemma PutTwice(m: Mem, s: Store)
    ensures Put(Put(m, s), s) == Put(m, s)
  {
  }

  lemma PutAllOne(m: Mem, s: Store)
    ensures PutAll(m, [s]) == Put(m, s) && PutAll(m, []) == m
  {
    hide Put;
    assert [s][1..] == [];
  }

  lemma ExecStores(d: M.Drive, v: M.Vars, c: M.Cmd)
    ensures M.Exec(d, v, c).dm == PutAll(d.dm, StoresOf(c))
    ensures PutAll(PutAll(d.dm, StoresOf(c)), StoresOf(c)) == PutAll(d.dm, StoresOf(c))
  {
    hide Put;
    PutAllNone(d.dm);
    if StoresOf(c) != [] {
      var s := StoresOf(c)[0];
      assert StoresOf(c) == [s];
      PutAllOne(d.dm, s);
      PutAllOne(Put(d.dm, s), s);
      PutTwice(d.dm, s);
      ExecPuts(d, v, c);
    }
  }

  lemma PutAllNone(m: Mem)
    ensures PutAll(m, []) == m
  {
  }

  lemma ExecPuts(d: M.Drive, v: M.Vars, c: M.Cmd)
    requires StoresOf(c) != []
    ensures M.Exec(d, v, c).dm == Put(d.dm, StoresOf(c)[0])
  {
  }

  /** However often it runs: not at all, or as if once. */
  lemma {:induction false} RunsStores(d: M.Drive, v: M.Vars, c: M.Cmd, n: nat)
    ensures M.Runs(d, v, c, n).dm == if n == 0 then d.dm else PutAll(d.dm, StoresOf(c))
    decreases n
  {
    hide PutAll, StoresOf;
    if n > 0 {
      RunsStores(d, v, c, n - 1);
      ExecStores(M.Runs(d, v, c, n - 1), v, c);
      ExecStores(d, v, c);
    }
  }

  /** Only reads may fail without ending the program. */
  predicate TriesReads(p: seq<M.Step>) { forall k :: 0 <= k < |p| && p[k].Try? ==> p[k].c.Read16? }

  /** A program over an honest link, however frames are repeated or lost, has carried out some
      first part of its writes, and all of them if it succeeded. */
  lemma {:induction false} PlayStores(s: M.State, v: M.Vars, link: nat -> M.Outcome, p: seq<M.Step>) returns (n: nat)
    requires M.HonestLink(link) && s.ok && TriesReads(p)
    ensures n <= |AllStores(p)| && (M.Play(s, v, link, p).ok ==> n == |AllStores(p)|)
    ensures M.Play(s, v, link, p).d.dm == PutAll(s.d.dm, AllStores(p)[..n])
    decreases |p|
  {
    hide M.Runs, M.HonestLink, PutAll;
    if p == [] {
      n := 0;
      PutAllNone(s.d.dm);
    } else {
      var q, st := p[..|p| - 1], p[|p| - 1];
      n := PlayStores(s, v, link, q);
      var t := M.Play(s, v, link, q);
      if t.ok {
        var runs := link(t.k).runs;
        OneOutcome(link, t.k);
        RunsStores(t.d, v, st.c, runs);
        PutAllOn(s.d.dm, AllStores(q), StoresOf(st.c));
        assert AllStores(q)[..n] == AllStores(q);
        assert AllStores(p)[..|AllStores(p)|] == AllStores(p);
        if runs == 0 && StoresOf(st.c) != [] {
          assert AllStores(p)[..n] == AllStores(q);
        } else {
          n := |AllStores(p)|;
          if runs == 0 { assert AllStores(q) + [] == AllStores(q); }
        }
      } else { assert AllStores(p)[..n] == AllStores(q)[..n]; }
    }
  }

  lemma OneOutcome(link: nat -> M.Outcome, k: nat)
    requires M.HonestLink(link)
    ensures link(k).acked ==> link(k).runs >= 1
  {
    assert M.Honest(link(k));
  }

  // ----- The programs of the library's calls -----

  /** Calls that write registers. */
  predicate WritesRegisters(op: Op) { op.Write? || op.WriteLong? || op.MoveAbs? || op.MoveRel? || op.MoveVel? }

  function Addresses(vars: VarMap): M.Vars {
    M.Vars(Resolve(vars, "CPOS"), Resolve(vars, "CSPD"), Resolve(vars, "CACC"),
           Resolve(vars, "SRL"), Resolve(vars, "MER"), Resolve(vars, "MER_MASK"))
  }

  function Parameter(x: real): Option<M.Long> { if x == 0.0 then None else Some(M.U32(Fixed(Magnitude(x)))) }

  function ProgramOf(vars: VarMap, op: Op): seq<M.Step>
    requires WritesRegisters(op)
  {
    var v := Addresses(vars);
    match op
    case Write(name, val) => [M.Must(M.Write16(Resolve(vars, name), val))]
    case WriteLong(name, n) => [M.Must(M.Write32(Resolve(vars, name), M.U32(n)))]
    case MoveAbs(pos, speed, acc) => P.MoveAbsolute(v, pos, Parameter(speed), Parameter(acc), P.Immediate,
      P.FromReference)
    case MoveRel(pos, speed, acc) => P.MoveRelative(v, pos, Parameter(speed), Parameter(acc), P.Immediate,
      P.FromReference)
    case MoveVel(speed, acc) => P.MoveVelocity(v, M.U32(Fixed(speed)), Parameter(acc), P.Immediate)
  }

  lemma {:induction false} AllStoresOn(p: seq<M.Step>, q: seq<M.Step>)
    ensures AllStores(p + q) == AllStores(p) + AllStores(q)
    decreases |q|
  {
    if q == [] { assert p + q == p; }
    else {
      assert (p + q)[..|p + q| - 1] == p + q[..|q| - 1];
      AllStoresOn(p, q[..|q| - 1]);
    }
  }

  lemma OneStep(st: M.Step)
    ensures AllStores([st]) == StoresOf(st.c) && AllStores([]) == []
  {
    assert [st][..0] == [];
  }

  /** Instructions other than writes. */
  lemma {:induction false} NoStores(p: seq<M.Step>)
    requires forall k :: 0 <= k < |p| ==> StoresOf(p[k].c) == []
    ensures AllStores(p) == []
    decreases |p|
  {
    if p != [] { NoStores(p[..|p| - 1]); }
  }

  lemma LongStoreIs(vars: VarMap, name: string, n: int)
    ensures StoresOf(M.Write32(Resolve(vars, name), M.U32(n))) == [LongStore(vars, name, n)]
  {
    hide Resolve;
    var u := n % 0x1_0000_0000;
    assert n % 0x1_0000 == u % 0x1_0000 && n / 0x1_0000 % 0x1_0000 == u / 0x1_0000;
  }

  lemma ParamStores(vars: VarMap, name: string, x: real)
    ensures AllStores(P.Param(Resolve(vars, name), Parameter(x))) == Limit(vars, name, x)
  {
    hide Resolve, Fixed, M.U32, LongStore, AllStores, StoresOf;
    if x != 0.0 {
      LongStoreIs(vars, name, Fixed(Magnitude(x)));
      OneStep(M.Must(M.Write32(Resolve(vars, name), M.U32(Fixed(Magnitude(x))))));
    } else { NoStores([]); }
  }

  lemma LoadStores(vars: VarMap, pos: int, speed: real, acc: real)
    ensures AllStores(P.Load(Addresses(vars), pos, Parameter(speed), Parameter(acc))) == Profile(vars, pos, speed, acc)
  {
    hide Resolve, Parameter, M.U32, LongStore, AllStores, StoresOf, Limit, P.Param;
    var v := Addresses(vars);
    var a, b, c := P.Param(v.cacc, Parameter(acc)), P.Param(v.cspd, Parameter(speed)),
      [M.Must(M.Write32(v.cpos, M.U32(pos)))];
    ParamStores(vars, "CACC", acc);
    ParamStores(vars, "CSPD", speed);
    LongStoreIs(vars, "CPOS", pos);
    OneStep(c[0]);
    AllStoresOn(a, b);
    AllStoresOn(a + b, c);
  }

  /** The registers a program writes are the stores of the call. */
  lemma ProgramStores(vars: VarMap, op: Op)
    requires WritesRegisters(op)
    ensures AllStores(ProgramOf(vars, op)) == Stores(vars, op) && TriesReads(ProgramOf(vars, op))
  {
    hide Resolve, Parameter, Fixed, M.U32, LongStore, AllStores, Profile, P.Load, Limit, P.Param;
    var v := Addresses(vars);
    match op
    case Write(name, val) => OneStep(ProgramOf(vars, op)[0]);
    case WriteLong(name, n) =>
      OneStep(ProgramOf(vars, op)[0]);
      LongStoreIs(vars, name, n);
    case MoveAbs(pos, speed, acc) => AbsoluteStores(vars, pos, speed, acc);
    case MoveRel(pos, speed, acc) => RelativeStores(vars, pos, speed, acc);
    case MoveVel(speed, acc) => VelocityStores(vars, speed, acc);
  }

  lemma LoadTries(v: M.Vars, pos: int, spd: Option<M.Long>, acc: Option<M.Long>)
    ensures TriesReads(P.Load(v, pos, spd, acc)) && TriesReads(P.Param(v.cacc, acc))
  {
    hide M.U32;
  }

  lemma TriesOn(p: seq<M.Step>, q: seq<M.Step>)
    requires TriesReads(p) && TriesReads(q)
    ensures TriesReads(p + q)
  {
  }

  lemma AbsoluteStores(vars: VarMap, pos: int, speed: real, acc: real)
    ensures
      var p := P.MoveAbsolute(Addresses(vars), pos, Parameter(speed), Parameter(acc), P.Immediate, P.FromReference);
      AllStores(p) == Profile(vars, pos, speed, acc) && TriesReads(p)
  {
    hide Resolve, Parameter, AllStores, Profile, P.Load, TriesReads, Addresses;
    var v := Addresses(vars);
    var p, rest := P.Load(v, pos, Parameter(speed), Parameter(acc)),
                   P.AbsoluteMode(P.FromReference) + P.Before(v) + P.Fire(P.Immediate) + P.After(v);
    LoadStores(vars, pos, speed, acc);
    LoadTries(v, pos, Parameter(speed), Parameter(acc));
    NoStores(rest);
    RestTries(v);
    AllStoresOn(p, rest);
    TriesOn(p, rest);
    assert P.MoveAbsolute(v, pos, Parameter(speed), Parameter(acc), P.Immediate, P.FromReference) == p + rest;
  }

  lemma RestTries(v: M.Vars)
    ensures TriesReads(P.AbsoluteMode(P.FromReference) + P.Before(v) + P.Fire(P.Immediate) + P.After(v))
    ensures TriesReads(P.RelativeMode(P.FromReference) + P.Fire(P.Immediate))
  {
  }

  lemma RelativeStores(vars: VarMap, pos: int, speed: real, acc: real)
    ensures
      var p := P.MoveRelative(Addresses(vars), pos, Parameter(speed), Parameter(acc), P.Immediate, P.FromReference);
      AllStores(p) == Profile(vars, pos, speed, acc) && TriesReads(p)
  {
    hide Resolve, Parameter, AllStores, Profile, P.Load, TriesReads, Addresses;
    var v := Addresses(vars);
    var p, rest := P.Load(v, pos, Parameter(speed), Parameter(acc)),
      P.RelativeMode(P.FromReference) + P.Fire(P.Immediate);
    LoadStores(vars, pos, speed, acc);
    LoadTries(v, pos, Parameter(speed), Parameter(acc));
    NoStores(rest);
    RestTries(v);
    AllStoresOn(p, rest);
    TriesOn(p, rest);
    assert P.MoveRelative(v, pos, Parameter(speed), Parameter(acc), P.Immediate, P.FromReference) == p + rest;
  }

  lemma VelocityStores(vars: VarMap, speed: real, acc: real)
    ensures
      var p := P.MoveVelocity(Addresses(vars), M.U32(Fixed(speed)), Parameter(acc), P.Immediate);
      AllStores(p) == Limit(vars, "CACC", acc) + [LongStore(vars, "CSPD", Fixed(speed))] && TriesReads(p)
  {
    hide Resolve, Parameter, AllStores, Limit, P.Param, M.U32, LongStore, Fixed, StoresOf;
    var v := Addresses(vars);
    var a, b := P.Param(v.cacc, Parameter(acc)), [M.Must(M.Write32(v.cspd, M.U32(Fixed(speed))))];
    var rest := [M.Must(M.Chmod(M.SP1_MASK, M.SP1_VAL)), M.Must(M.Simple(M.UPD_IMM))];
    ParamStores(vars, "CACC", acc);
    LongStoreIs(vars, "CSPD", Fixed(speed));
    OneStep(b[0]);
    OthersStoreNothing(M.Chmod(M.SP1_MASK, M.SP1_VAL));
    OthersStoreNothing(M.Simple(M.UPD_IMM));
    NoStores(rest);
    AllStoresOn(a, b);
    AllStoresOn(a + b, rest);
    LoadTries(v, 0, None, Parameter(acc));
    assert P.MoveVelocity(v, M.U32(Fixed(speed)), Parameter(acc), P.Immediate) == a + b + rest;
  }

  lemma OthersStoreNothing(c: M.Cmd)
    requires !c.Write16? && !c.Write32?
    ensures StoresOf(c) == []
  {
  }

  // ----- Main result -----

  /** What a call does to a drive's registers is what its frames do, whatever an honest link
      makes of them: with the same success, and the number of stores carried out that came of
      it, the registers are the same. */
  lemma SendCoversItsFrames(e: Env, l: Lib, op: Op, d: M.Drive, k: nat, link: nat -> M.Outcome) returns (ran: nat)
    requires WritesRegisters(op) && ActiveChan(l).Some? && M.HonestLink(link)
    requires d.dm == Drive(l, ActiveChan(l).value.axis)
    ensures
      var c := ActiveChan(l).value;
      var s := M.Play(M.State(d, k, [], true), Addresses(c.vars), link, ProgramOf(c.vars, op));
      e.reply(l.t).ok == s.ok && e.reply(l.t).ran == ran ==> Drive(Send(e, l, op).0, c.axis) == s.d.dm
  {
    hide Stores, ProgramOf, PutAll, M.Play, Brought, Talks, M.HonestLink;
    var c := ActiveChan(l).value;
    ProgramStores(c.vars, op);
    ran := PlayStores(M.State(d, k, [], true), Addresses(c.vars), link, ProgramOf(c.vars, op));
    PutAllNone(d.dm);
    assert Stores(c.vars, op)[..0] == [];
  }
}
