/** The driver's command functions, each a sequence of frames to the selected axis with an
    early way out, proved against the programs and against the drive's registers. */
module Commands {
  import opened Codec
  import opened Masks
  import opened Motion
  import opened Programs

  /** A register read that failed leaves the caller's default of 0 in place. */
  function ReadOr0(d: Drive, a: word, o: Outcome): word {
    if o.acked && o.answered then Get(d, a) else 0
  }

  /** A register write, run or lost. */
  function Written(d: Drive, a: word, x: word, o: Outcome): Drive {
    if o.runs == 0 then d else Put(d, a, x)
  }

  /** Both limit bits taken out of the register at `a`, written back only if that changed it. */
  function LimitBitsCleared(d: Drive, a: word, link: nat -> Outcome, k: nat): (Drive, nat) {
    var m := ReadOr0(d, a, link(k));
    var n := Cleared(m, true, true);
    if n == m then (d, k + 1) else (Written(d, a, n, link(k + 1)), k + 2)
  }

  /** Read and write gone through, the register has lost its two limit bits and no other;
      a failed read leaves the register alone. */
  lemma ClearingKeepsTheRest(d: Drive, a: word, link: nat -> Outcome, k: nat)
    requires HonestLink(link)
    ensures var e := LimitBitsCleared(d, a, link, k).0;
            && SameElsewhere(Get(e, a), Get(d, a))
            && (link(k).acked && link(k).answered && link(k + 1).acked ==> !HasLsp(Get(e, a)) && !HasLsn(Get(e, a)))
            && (!(link(k).acked && link(k).answered) ==> e == d)
            && forall b :: b != a ==> Get(e, b) == Get(d, b)
  {
    hide LimitsSet;
    var m := ReadOr0(d, a, link(k));
    WithBits(m, false, false);
    Split(m);
    assert Honest(link(k + 1));
    ClearedZero(true, true);
  }

  lemma ClearedZero(lsp: bool, lsn: bool)
    ensures Cleared(0, lsp, lsn) == 0
  {
  }

  /** What arming a limit switch writes into MER_MASK. After a good read it adds that one
      bit; after a failed one it starts from 0, and so keeps the other fourteen bits exactly
      when they were 0 before. */
  lemma ArmingKeepsTheRestIff(d: Drive, a: word, positive: bool, o: Outcome)
    ensures var m := Armed(ReadOr0(d, a, o), positive);
            && (positive ==> HasLsp(m)) && (!positive ==> HasLsn(m))
            && (o.acked && o.answered ==>
                  && HasLsp(m) == (HasLsp(Get(d, a)) || positive) && HasLsn(m) == (HasLsn(Get(d, a)) || !positive)
                  && SameElsewhere(m, Get(d, a)))
            && (!(o.acked && o.answered) ==> (SameElsewhere(m, Get(d, a)) <==> SameElsewhere(0, Get(d, a))))
  {
    hide LimitsSet;
    var m := ReadOr0(d, a, o);
    WithBits(m, HasLsp(m) || positive, HasLsn(m) || !positive);
  }

  /** The selected axis behind the link: the drive itself, and what has been sent to it. */
  class AxisLink {
    const link: nat -> Outcome
    const v: Vars
    var d: Drive
    var k: nat
    ghost var sent: seq<Cmd>

    constructor (link: nat -> Outcome, v: Vars, d: Drive)
      ensures this.link == link && this.v == v && this.d == d && k == 0 && sent == []
    {
      this.link, this.v, this.d, k, sent := link, v, d, 0, [];
    }

    ghost function Now(ok: bool): State
      reads this
    {
      State(d, k, sent, ok)
    }

    method Send(c: Cmd) returns (ok: bool)
      modifies this
      ensures Now(ok) == Take1(old(Now(true)), v, link, Must(c))
      ensures Now(true) == Take1(old(Now(true)), v, link, Try(c))
    {
      var n := link(k).runs;
      for i := 0 to n
        invariant d == Runs(old(d), v, c, i) && k == old(k) && sent == old(sent)
      {
        d := Exec(d, v, c);
      }
      ok := link(k).acked;
      k, sent := k + 1, sent + [c];
    }

    method ReadData16(a: word, value: word) returns (r: word, ok: bool)
      modifies this
      ensures Now(true) == Take1(old(Now(true)), v, link, Try(Read16(a)))
      ensures d == old(d) && k == old(k) + 1
      ensures ok == (link(old(k)).acked && link(old(k)).answered)
      ensures r == if ok then Get(d, a) else value
    {
      RunsRead(d, v, Read16(a), link(k).runs);
      var answered := link(k).answered;
      ok := Send(Read16(a));
      ok := ok && answered;
      r := if ok then Get(d, a) else value;
    }

    method WriteData16(a: word, x: word) returns (ok: bool)
      modifies this
      ensures d == Written(old(d), a, x, link(old(k))) && k == old(k) + 1 && ok == link(old(k)).acked
    {
      WriteRuns(d, v, a, x, link(k).runs);
      ok := Send(Write16(a, x));
    }

    // ----- Motion commands -----

    /** One required frame of a program, unless the program has failed already. `p` is the
        part of the program behind us. */
    method Require(before: bool, c: Cmd, ghost start: State, ghost p: seq<Step>) returns (ok: bool)
      requires Now(before) == Play(start, v, link, p)
      modifies this
      ensures Now(ok) == Play(start, v, link, p + [Must(c)])
    {
      PlayAppend(start, v, link, p, Must(c));
      if !before { return false; }
      ok := Send(c);
    }

    method RequireIf(before: bool, a: word, x: Option<Long>, ghost start: State, ghost p: seq<Step>) returns (ok: bool)
      requires Now(before) == Play(start, v, link, p)
      modifies this
      ensures Now(ok) == Play(start, v, link, p + Param(a, x))
    {
      ok := before;
      assert p + [] == p;
      if x.Some? {
        ok := Require(before, Write32(a, x.value), start, p);
      }
    }

    /** A diagnostic read, whose result no later step depends on. */
    method Peek(before: bool, a: word, ghost start: State, ghost p: seq<Step>)
      requires Now(before) == Play(start, v, link, p)
      modifies this
      ensures Now(before) == Play(start, v, link, p + [Try(Read16(a))])
    {
      PlayAppend(start, v, link, p, Try(Read16(a)));
      if before {
        var _, _ := ReadData16(a, 0);
      }
    }

    method Update(before: bool, moment: Moment, ghost start: State, ghost p: seq<Step>) returns (ok: bool)
      requires Now(before) == Play(start, v, link, p)
      modifies this
      ensures Now(ok) == Play(start, v, link, p + Fire(moment))
    {
      assert p + [] == p;
      match moment
      case NoUpdate => ok := before;
      case OnEvent => ok := Require(before, Simple(UPD), start, p);
      case Immediate => ok := Require(before, Simple(UPD_IMM), start, p);
    }

    /** Parameters and mode, up to where the absolute and the relative move differ. */
    method Prepare(pos: int, spd: Option<Long>, acc: Option<Long>, mask: bv16, val: bv16, base: Base,
                   ghost start: State)
      returns (ok: bool)
      requires start == Now(true)
      modifies this
      ensures Now(ok) == Play(start, v, link,
        Load(v, pos, spd, acc) + ([Must(Chmod(mask, val)), Must(Chmod(PP3_MASK, PP3_VAL))] + Tum(base)))
    {
      hide Play, Param, Tum;
      ghost var p := [];
      assert Now(true) == Play(start, v, link, p) by { PlayNothing(start, v, link); }
      ok := RequireIf(true, v.cacc, acc, start, p);
      assert p + Param(v.cacc, acc) == Param(v.cacc, acc);
      p := Param(v.cacc, acc);
      ok := RequireIf(ok, v.cspd, spd, start, p);
      p := p + Param(v.cspd, spd);
      ok := Require(ok, Write32(v.cpos, U32(pos)), start, p);
      p := Load(v, pos, spd, acc);
      ok := Require(ok, Chmod(mask, val), start, p);
      ok := Require(ok, Chmod(PP3_MASK, PP3_VAL), start, p + [Must(Chmod(mask, val))]);
      p := p + [Must(Chmod(mask, val))] + [Must(Chmod(PP3_MASK, PP3_VAL))];
      assert p == Load(v, pos, spd, acc) + [Must(Chmod(mask, val)), Must(Chmod(PP3_MASK, PP3_VAL))];
      ok := FromBase(ok, base, start, p);
      assert p + Tum(base) == Load(v, pos, spd, acc)
        + ([Must(Chmod(mask, val)), Must(Chmod(PP3_MASK, PP3_VAL))] + Tum(base));
    }

    method FromBase(before: bool, base: Base, ghost start: State, ghost p: seq<Step>) returns (ok: bool)
      requires Now(before) == Play(start, v, link, p)
      modifies this
      ensures Now(ok) == Play(start, v, link, p + Tum(base))
    {
      ok := before;
      assert p + [] == p;
      if base.FromReference? {
        ok := Require(before, Chmod(TUM1_MASK, TUM1_VAL), start, p);
      }
    }

    method MoveAbsolute(pos: int, spd: Option<Long>, acc: Option<Long>, moment: Moment, base: Base) returns (ok: bool)
      modifies this
      ensures Now(ok) == Play(old(Now(true)), v, link, Programs.MoveAbsolute(v, pos, spd, acc, moment, base))
    {
      hide Play, Load, Tum, Fire;
      ghost var s := Now(true);
      ok := Prepare(pos, spd, acc, CPA_MASK, CPA_VAL, base, s);
      ghost var p := Load(v, pos, spd, acc) + AbsoluteMode(base);
      Peek(ok, v.mer, s, p);
      Peek(ok, v.merMask, s, p + [Try(Read16(v.mer))]);
      assert p + [Try(Read16(v.mer))] + [Try(Read16(v.merMask))] == AbsPrefix(v, pos, spd, acc, base);
      ok := Update(ok, moment, s, AbsPrefix(v, pos, spd, acc, base));
      p := AbsPrefix(v, pos, spd, acc, base) + Fire(moment);
      Peek(ok, v.srl, s, p);
      Peek(ok, v.mer, s, p + [Try(Read16(v.srl))]);
      assert p + [Try(Read16(v.srl))] + [Try(Read16(v.mer))] == p + After(v);
    }

    method MoveRelative(pos: int, spd: Option<Long>, acc: Option<Long>, moment: Moment, base: Base) returns (ok: bool)
      modifies this
      ensures Now(ok) == Play(old(Now(true)), v, link, Programs.MoveRelative(v, pos, spd, acc, moment, base))
    {
      hide Play, Load, Tum, Fire;
      ghost var s := Now(true);
      ok := Prepare(pos, spd, acc, CPR_MASK, CPR_VAL, base, s);
      ok := Update(ok, moment, s, RelPrefix(v, pos, spd, acc, base));
    }

    method MoveVelocity(spd: Long, acc: Option<Long>, moment: Moment) returns (ok: bool)
      modifies this
      ensures Now(ok) == Play(old(Now(true)), v, link, Programs.MoveVelocity(v, spd, acc, moment))
    {
      hide Play, Param, Fire;
      ghost var s := Now(true);
      assert s == Play(s, v, link, []) by { PlayNothing(s, v, link); }
      ok := RequireIf(true, v.cacc, acc, s, []);
      ghost var p := Param(v.cacc, acc);
      assert [] + p == p;
      ok := Require(ok, Write32(v.cspd, spd), s, p);
      ok := Require(ok, Chmod(SP1_MASK, SP1_VAL), s, p + [Must(Write32(v.cspd, spd))]);
      assert p + [Must(Write32(v.cspd, spd))] + [Must(Chmod(SP1_MASK, SP1_VAL))] == VelPrefix(v, spd, acc);
      ok := Update(ok, moment, s, VelPrefix(v, spd, acc));
    }

    // ----- Event commands -----

    method SetEventOnLimitSwitch(positive: bool) returns (ok: bool)
      modifies this
      ensures k == old(k) + 2 && ok == link(old(k) + 1).acked
      ensures d == Written(old(d), v.merMask, Armed(ReadOr0(old(d), v.merMask, link(old(k))), positive),
        link(old(k) + 1))
    {
      hide Armed, Runs;
      var merMask, _ := ReadData16(v.merMask, 0);
      ok := WriteData16(v.merMask, Armed(merMask, positive));
    }

    method ClearLimitBits(a: word)
      modifies this
      ensures (d, k) == LimitBitsCleared(old(d), a, link, old(k))
    {
      hide Cleared, Runs;
      var m, _ := ReadData16(a, 0);
      var n := Cleared(m, true, true);
      if n != m {
        var _ := WriteData16(a, n);
      }
    }

    method ClearLimitSwitchEvent()
      modifies this
      ensures var (e, k') := LimitBitsCleared(old(d), v.merMask, link, old(k));
              (d, k) == LimitBitsCleared(e, v.mer, link, k')
    {
      ClearLimitBits(v.merMask);
      ClearLimitBits(v.mer);
    }

    /** MER_MASK is written back even unchanged; MER only if a chosen bit was latched. */
    method DisableLimitProtection(lsp: bool, lsn: bool) returns (ok: bool)
      modifies this
      ensures var mask := Cleared(ReadOr0(old(d), v.merMask, link(old(k))), lsp, lsn);
              var e := Written(old(d), v.merMask, mask, link(old(k) + 1));
              var mer := ReadOr0(e, v.mer, link(old(k) + 2));
              && ok == link(old(k) + 1).acked
              && if !ok then d == e
                 else d == if Cleared(mer, lsp, lsn) == mer then e
                   else Written(e, v.mer, Cleared(mer, lsp, lsn), link(old(k) + 3))
    {
      hide LimitsSet, Runs;
      var merMask, _ := ReadData16(v.merMask, 0);
      ok := WriteData16(v.merMask, Cleared(merMask, lsp, lsn));
      if !ok { return; }
      var mer, _ := ReadData16(v.mer, 0);
      if mer != 0 {
        var newMer := Cleared(mer, lsp, lsn);
        if newMer != mer {
          var _ := WriteData16(v.mer, newMer);
        }
      } else {
        ClearedZero(lsp, lsn);
      }
    }
  }

  lemma PlayNothing(s: State, v: Vars, link: nat -> Outcome)
    ensures Play(s, v, link, []) == s
  {
  }

  lemma {:induction false} WriteRuns(d: Drive, v: Vars, a: word, x: word, n: nat)
    ensures Runs(d, v, Write16(a, x), n) == if n == 0 then d else Put(d, a, x)
  {
    if n > 0 {
      WriteRuns(d, v, a, x, n - 1);
      assert d.dm[a := x][a := x] == d.dm[a := x];
    }
  }
}
