/** Scripts: what a call puts on the wire, piece by piece. */
module Scripts {
  import opened Codec
  import opened Masks
  import opened TmlLib
  import opened Supervisor
  import opened Initialising

  // ----- Scripts -----

  /** A call that has to be acknowledged, or one whose outcome is ignored; AXISON, and SRL read
      until it has bit 15; bits 6 and 7 of a register cleared, if they are set; some other bit of
      a register set; ENDINIT up to three times; and nothing, where the map lacks a name. */
  datatype Piece =
    | Must(op: Op)
    | Ask(op: Op)
    | PowerUp
    | Unset(name: string, lsp: bool, lsn: bool)
    | Raise(name: string, bit: nat)
    | MayRaise(name: string, bit: nat)
    | EndInits
    | See(name: string, bit: nat, set_: bool)
    | Ignore(lsp: bool, lsn: bool)
    | Peeks
    | Refused

  /** What a read brought, 0 if it failed. */
  function Got(c: Call): word { if c.ok then c.val else 0 }

  predicate HasBit(m: word, bit: nat) { bit > 0 && m / bit % 2 == 1 }

  /** m without bit 6 and without bit 7, as told. */
  function Less(m: word, lsp: bool, lsn: bool): int {
    m - (if lsp && HasBit(m, 0x40) then 0x40 else 0) - (if lsn && HasBit(m, 0x80) then 0x80 else 0)
  }

  function More(m: word, bit: nat): int { if HasBit(m, bit) then m else m + bit }

  predicate IsWrite(c: Call, name: string, val: int) { c.op.Write? && c.op.name == name && c.op.val as int == val }

  predicate UnsetDone(cs: seq<Call>, name: string, lsp: bool, lsn: bool) {
    && 1 <= |cs| <= 2 && cs[0].op == Read(name)
    && (if Less(Got(cs[0]), lsp, lsn) == Got(cs[0]) then |cs| == 1
        else |cs| == 2 && IsWrite(cs[1], name, Less(Got(cs[0]), lsp, lsn)))
  }

  /** These calls are the piece, gone through. */
  predicate Done(cs: seq<Call>, p: Piece) {
    match p
    case Must(op) => |cs| == 1 && cs[0].op == op && cs[0].ok
    case Ask(op) => |cs| == 1 && cs[0].op == op
    case PowerUp =>
      && 2 <= |cs| <= 51 && cs[0].op == AxisOn && cs[0].ok
      && (forall k :: 1 <= k < |cs| ==> cs[k].op == Read("SRL") && (HasBit(Got(cs[k]), 0x8000) <==> k == |cs| - 1))
    case Unset(name, lsp, lsn) => UnsetDone(cs, name, lsp, lsn)
    case See(name, bit, set_) => |cs| == 1 && cs[0].op == Read(name) && HasBit(Got(cs[0]), bit) == set_
    case Ignore(lsp, lsn) =>
      && |cs| >= 2 && cs[0].op == Read("MER_MASK") && IsWrite(cs[1], "MER_MASK", Less(Got(cs[0]), lsp, lsn))
      && if cs[1].ok then UnsetDone(cs[2..], "MER", lsp, lsn) else |cs| == 2
    case Peeks => forall k :: 0 <= k < |cs| ==> cs[k].op.Read?
    case Raise(name, bit) =>
      |cs| == 2 && cs[0].op == Read(name) && IsWrite(cs[1], name, More(Got(cs[0]), bit)) && cs[1].ok
    case MayRaise(name, bit) => |cs| == 2 && cs[0].op == Read(name) && IsWrite(cs[1], name, More(Got(cs[0]), bit))
    case EndInits =>
      1 <= |cs| <= 3 && forall k :: 0 <= k < |cs| ==> cs[k].op == EndInit && (cs[k].ok <==> k == |cs| - 1)
    case Refused => false
  }

  /** These calls are the piece, failed. */
  predicate Failed(cs: seq<Call>, p: Piece) {
    match p
    case Must(op) => |cs| == 1 && cs[0].op == op && !cs[0].ok
    case Ask(op) => false
    case PowerUp =>
      || (|cs| == 1 && cs[0].op == AxisOn && !cs[0].ok)
      || (&& |cs| == 51 && cs[0].op == AxisOn && cs[0].ok
          && forall k :: 1 <= k < |cs| ==> cs[k].op == Read("SRL") && !HasBit(Got(cs[k]), 0x8000))
    case Unset(_, _, _) => false
    case See(_, _, _) => false
    case Ignore(_, _) => false
    case Peeks => false
    case Raise(name, bit) =>
      |cs| == 2 && cs[0].op == Read(name) && IsWrite(cs[1], name, More(Got(cs[0]), bit)) && !cs[1].ok
    case MayRaise(_, _) => false
    case EndInits => |cs| == 3 && forall k :: 0 <= k < |cs| ==> cs[k].op == EndInit && !cs[k].ok
    case Refused => cs == []
  }

  /** The calls are the pieces one after the other: all of them, or up to one that failed. */
  ghost predicate Plays(cs: seq<Call>, ok: bool, script: seq<Piece>)
    decreases |script|
  {
    if script == [] then cs == [] && ok
    else
      || (!ok && Failed(cs, script[0]))
      || exists n :: 0 <= n <= |cs| && Done(cs[..n], script[0]) && Plays(cs[n..], ok, script[1..])
  }

  lemma {:induction false} PlaysOn(cs: seq<Call>, ds: seq<Call>, ok: bool, p: seq<Piece>, q: seq<Piece>)
    requires Plays(cs, true, p) && Plays(ds, ok, q)
    ensures Plays(cs + ds, ok, p + q)
    decreases |p|
  {
    hide Done, Failed;
    if p == [] { assert cs + ds == ds && p + q == q; }
    else {
      var n :| 0 <= n <= |cs| && Done(cs[..n], p[0]) && Plays(cs[n..], true, p[1..]);
      PlaysOn(cs[n..], ds, ok, p[1..], q);
      assert (cs + ds)[..n] == cs[..n] && (cs + ds)[n..] == cs[n..] + ds && (p + q)[1..] == p[1..] + q;
    }
  }

  lemma {:induction false} PlaysUpTo(cs: seq<Call>, p: seq<Piece>, q: seq<Piece>)
    requires Plays(cs, false, p)
    ensures Plays(cs, false, p + q)
    decreases |p|
  {
    hide Done, Failed;
    if p != [] && !Failed(cs, p[0]) {
      var n :| 0 <= n <= |cs| && Done(cs[..n], p[0]) && Plays(cs[n..], false, p[1..]);
      PlaysUpTo(cs[n..], p[1..], q);
      assert (p + q)[1..] == p[1..] + q;
    }
  }

  lemma PlaysOne(cs: seq<Call>, p: Piece)
    ensures Done(cs, p) ==> Plays(cs, true, [p])
    ensures Failed(cs, p) ==> Plays(cs, false, [p])
  {
    hide Done, Failed;
    assert cs[..|cs|] == cs && cs[|cs|..] == [] && [p][1..] == [];
    assert Plays([], true, []);
  }

  // ----- Of two library states -----

  ghost predicate Played(l: Lib, r: Lib, ok: bool, script: seq<Piece>) {
    l.sent <= r.sent && Plays(r.sent[|l.sent|..], ok, script)
  }

  lemma PlayedOn(l: Lib, m: Lib, r: Lib, ok: bool, p: seq<Piece>, q: seq<Piece>)
    requires Played(l, m, true, p) && Played(m, r, ok, q)
    ensures Played(l, r, ok, p + q)
  {
    PlaysOn(m.sent[|l.sent|..], r.sent[|m.sent|..], ok, p, q);
    assert r.sent[|l.sent|..] == m.sent[|l.sent|..] + r.sent[|m.sent|..];
  }

  lemma PlayedUpTo(l: Lib, r: Lib, p: seq<Piece>, q: seq<Piece>)
    requires Played(l, r, false, p)
    ensures Played(l, r, false, p + q)
  {
    PlaysUpTo(r.sent[|l.sent|..], p, q);
  }

  lemma PlayedOne(l: Lib, r: Lib, p: Piece)
    requires l.sent <= r.sent
    ensures Done(r.sent[|l.sent|..], p) ==> Played(l, r, true, [p])
    ensures Failed(r.sent[|l.sent|..], p) ==> Played(l, r, false, [p])
  {
    hide Done, Failed, Plays;
    PlaysOne(r.sent[|l.sent|..], p);
  }

  lemma PlayedNothing(l: Lib, r: Lib)
    requires r.sent == l.sent
    ensures Played(l, r, true, [])
  {
    assert r.sent[|l.sent|..] == [];
  }

  lemma SamePlayed(l: Lib, l': Lib, r: Lib, ok: bool, p: seq<Piece>)
    requires Played(l, r, ok, p) && l'.sent == l.sent
    ensures Played(l', r, ok, p)
  {
  }

  // ----- Single pieces -----

  lemma SendPlays(e: Env, l: Lib, op: Op)
    requires ActiveChan(l).Some?
    ensures
      var (r, a) := Send(e, l, op);
      && Played(l, r, true, [Ask(op)]) && Played(l, r, a.ok, [Must(op)]) && ActiveChan(r) == ActiveChan(l)
  {
    hide Brought, MemAfter, Plays;
    var r := Send(e, l, op).0;
    TalksKeeps(l, r);
    assert r.sent[|l.sent|..] == [r.sent[|l.sent|]];
    PlayedOne(l, r, Ask(op));
    PlayedOne(l, r, Must(op));
  }

  /** A register read, and what it brought. */
  lemma FetchIs(e: Env, l: Lib, name: string)
    requires ActiveChan(l).Some?
    ensures
      var (r, m) := Fetch(e, l, name);
      && |r.sent| == |l.sent| + 1 && l.sent <= r.sent && ActiveChan(r) == ActiveChan(l)
      && r.sent[|l.sent|].op == Read(name) && Got(r.sent[|l.sent|]) == m
  {
    hide Brought, MemAfter;
    TalksKeeps(l, Fetch(e, l, name).0);
  }

  lemma VarPlays(e: Env, l: Lib, name: string)
    requires ActiveChan(l).Some?
    ensures
      var r := GetVar(e, l, name).0;
      && Played(l, r, true, if name in ActiveChan(l).value.vars then [Ask(Read(name))] else [])
      && ActiveChan(r) == ActiveChan(l)
  {
    hide Send, Played;
    SendPlays(e, l, Read(name));
    PlayedNothing(l, l);
  }

  lemma SetPlays(e: Env, l: Lib, name: string, n: int)
    requires ActiveChan(l).Some?
    ensures
      var (r, ok) := SetLong(e, l, name, n);
      Played(l, r, ok, [if name in ActiveChan(l).value.vars then Must(WriteLong(name, n)) else Refused])
  {
    hide Send, Played;
    SendPlays(e, l, WriteLong(name, n));
    assert l.sent[|l.sent|..] == [];
    PlayedOne(l, l, Refused);
  }

  lemma LessIs(m: word, lsp: bool, lsn: bool)
    ensures Cleared(m, lsp, lsn) as int == Less(m, lsp, lsn)
  {
    Split(m);
  }

  lemma MoreIs(m: word)
    ensures Armed(m, true) as int == More(m, 0x40) && Armed(m, false) as int == More(m, 0x80)
    ensures WithComplete(m) as int == More(m, 0x400)
  {
    Split(m);
  }

  lemma UnsetIs(e: Env, l: Lib, name: string, lsp: bool, lsn: bool)
    requires ActiveChan(l).Some?
    ensures
      var r := ClearBits(e, l, name, lsp, lsn);
      l.sent <= r.sent && UnsetDone(r.sent[|l.sent|..], name, lsp, lsn) && ActiveChan(r) == ActiveChan(l)
  {
    hide Fetch, Cleared, Brought, MemAfter, Less, Talks;
    var (l', m) := Fetch(e, l, name);
    FetchIs(e, l, name);
    LessIs(m, lsp, lsn);
    var r := ClearBits(e, l, name, lsp, lsn);
    TalksKeeps(l', Send(e, l', Write(name, Cleared(m, lsp, lsn))).0);
    var cs := r.sent[|l.sent|..];
    assert cs[0] == l'.sent[|l.sent|];
  }

  lemma UnsetPlays(e: Env, l: Lib, name: string, lsp: bool, lsn: bool)
    requires ActiveChan(l).Some?
    ensures
      var r := ClearBits(e, l, name, lsp, lsn);
      Played(l, r, true, [Unset(name, lsp, lsn)]) && ActiveChan(r) == ActiveChan(l)
  {
    hide ClearBits, Plays, UnsetDone, Talks;
    UnsetIs(e, l, name, lsp, lsn);
    PlayedOne(l, ClearBits(e, l, name, lsp, lsn), Unset(name, lsp, lsn));
  }

  /** Read and written back with a change: gone through exactly if the write did. */
  lemma ChangePlays(e: Env, l: Lib, name: string, v: word, p: Piece)
    requires ActiveChan(l).Some?
    requires
      var m := Fetch(e, l, name).1;
      (p.Raise? || p.MayRaise?) && p.name == name && v as int == More(m, p.bit)
    ensures
      var (r, a) := Send(e, Fetch(e, l, name).0, Write(name, v));
      Played(l, r, a.ok || p.MayRaise?, [p]) && ActiveChan(r) == ActiveChan(l)
  {
    hide Fetch, Brought, MemAfter, Plays, More, Talks;
    var (l', m) := Fetch(e, l, name);
    FetchIs(e, l, name);
    var r := Send(e, l', Write(name, v)).0;
    TalksKeeps(l', r);
    var cs := r.sent[|l.sent|..];
    assert cs[0] == l'.sent[|l.sent|] && cs[1] == r.sent[|l'.sent|];
    PlayedOne(l, r, p);
  }

  const DISARM := [Unset("MER_MASK", true, true), Unset("MER", true, true)]

  lemma DisarmPlays(e: Env, l: Lib)
    requires ActiveChan(l).Some?
    ensures
      var r := ClearLimitSwitchEvent(e, l);
      Played(l, r, true, DISARM) && ActiveChan(r) == ActiveChan(l)
  {
    hide ClearBits, Played, Talks;
    assert DISARM == [Unset("MER_MASK", true, true)] + [Unset("MER", true, true)];
    UnsetPlays(e, l, "MER_MASK", true, true);
    var l' := ClearBits(e, l, "MER_MASK", true, true);
    UnsetPlays(e, l', "MER", true, true);
    PlayedOn(l, l', ClearBits(e, l', "MER", true, true), true,
      [Unset("MER_MASK", true, true)], [Unset("MER", true, true)]);
  }
}
