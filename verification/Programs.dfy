/** The motion commands as register programs, and what each leaves behind. */
module Programs {
  import opened Codec
  import opened Motion

  datatype Moment = NoUpdate | OnEvent | Immediate
  datatype Base = FromMeasure | FromReference

  // ----- The programs -----

  /** Speed and acceleration are written only when the caller gave a non-zero one. */
  function Param(a: word, x: Option<Long>): seq<Step> {
    if x.Some? then [Must(Write32(a, x.value))] else []
  }

  function Tum(base: Base): seq<Step> {
    if base.FromReference? then [Must(Chmod(TUM1_MASK, TUM1_VAL))] else []
  }

  function Fire(moment: Moment): seq<Step> {
    match moment
    case NoUpdate => []
    case OnEvent => [Must(Simple(UPD))]
    case Immediate => [Must(Simple(UPD_IMM))]
  }

  function Load(v: Vars, pos: int, spd: Option<Long>, acc: Option<Long>): seq<Step> {
    Param(v.cacc, acc) + Param(v.cspd, spd) + [Must(Write32(v.cpos, U32(pos)))]
  }

  function AbsoluteMode(base: Base): seq<Step> {
    [Must(Chmod(CPA_MASK, CPA_VAL)), Must(Chmod(PP3_MASK, PP3_VAL))] + Tum(base)
  }

  function RelativeMode(base: Base): seq<Step> {
    [Must(Chmod(CPR_MASK, CPR_VAL)), Must(Chmod(PP3_MASK, PP3_VAL))] + Tum(base)
  }

  /** Diagnostic reads around the update; their failure is ignored. */
  function Before(v: Vars): seq<Step> { [Try(Read16(v.mer)), Try(Read16(v.merMask))] }
  function After(v: Vars): seq<Step> { [Try(Read16(v.srl)), Try(Read16(v.mer))] }

  function AbsPrefix(v: Vars, pos: int, spd: Option<Long>, acc: Option<Long>, base: Base): seq<Step> {
    Load(v, pos, spd, acc) + AbsoluteMode(base) + Before(v)
  }

  function MoveAbsolute(v: Vars, pos: int, spd: Option<Long>, acc: Option<Long>, moment: Moment, base: Base)
    : seq<Step>
  {
    AbsPrefix(v, pos, spd, acc, base) + Fire(moment) + After(v)
  }

  function RelPrefix(v: Vars, pos: int, spd: Option<Long>, acc: Option<Long>, base: Base): seq<Step> {
    Load(v, pos, spd, acc) + RelativeMode(base)
  }

  function MoveRelative(v: Vars, pos: int, spd: Option<Long>, acc: Option<Long>, moment: Moment, base: Base)
    : seq<Step>
  {
    RelPrefix(v, pos, spd, acc, base) + Fire(moment)
  }

  function VelPrefix(v: Vars, spd: Long, acc: Option<Long>): seq<Step> {
    Param(v.cacc, acc) + [Must(Write32(v.cspd, spd)), Must(Chmod(SP1_MASK, SP1_VAL))]
  }

  function MoveVelocity(v: Vars, spd: Long, acc: Option<Long>, moment: Moment): seq<Step> {
    VelPrefix(v, spd, acc) + Fire(moment)
  }

  // ----- Clean runs, worked out -----

  lemma {:induction false} CleanConcat(d: Drive, v: Vars, p: seq<Step>, q: seq<Step>)
    ensures Clean(d, v, p + q) == Clean(Clean(d, v, p), v, q)
    decreases |q|
  {
    hide Exec;
    if q == [] {
      assert p + q == p;
    } else {
      CleanConcat(d, v, p, q[..|q| - 1]);
      CleanAppend(d, v, p + q[..|q| - 1], q[|q| - 1]);
      assert p + q == p + q[..|q| - 1] + [q[|q| - 1]];
    }
  }

  lemma Clean1(d: Drive, v: Vars, a: Step)
    ensures Clean(d, v, [a]) == Exec(d, v, a.c)
  {
    hide Exec;
    CleanAppend(d, v, [], a);
    assert [] + [a] == [a];
  }

  lemma Clean2(d: Drive, v: Vars, a: Step, b: Step)
    ensures Clean(d, v, [a, b]) == Exec(Exec(d, v, a.c), v, b.c)
  {
    hide Exec;
    Clean1(d, v, a);
    CleanAppend(d, v, [a], b);
    assert [a] + [b] == [a, b];
  }

  function PutIf(d: Drive, a: word, x: Option<Long>): Drive {
    if x.Some? then Put32(d, a, x.value) else d
  }

  lemma CleanParam(d: Drive, v: Vars, a: word, x: Option<Long>)
    ensures Clean(d, v, Param(a, x)) == PutIf(d, a, x)
  {
    if x.Some? { Clean1(d, v, Must(Write32(a, x.value))); }
  }

  function Loaded(d: Drive, v: Vars, pos: int, spd: Option<Long>, acc: Option<Long>): Drive {
    Put32(PutIf(PutIf(d, v.cacc, acc), v.cspd, spd), v.cpos, U32(pos))
  }

  lemma CleanLoad(d: Drive, v: Vars, pos: int, spd: Option<Long>, acc: Option<Long>)
    ensures Clean(d, v, Load(v, pos, spd, acc)) == Loaded(d, v, pos, spd, acc)
  {
    hide Clean, Param, PutIf, Put32, U32;
    CleanParam(d, v, v.cacc, acc);
    CleanConcat(d, v, Param(v.cacc, acc), Param(v.cspd, spd));
    CleanParam(PutIf(d, v.cacc, acc), v, v.cspd, spd);
    CleanAppend(d, v, Param(v.cacc, acc) + Param(v.cspd, spd), Must(Write32(v.cpos, U32(pos))));
  }

  /** MCR after CPA, MODE PP3 and perhaps TUM1. */
  function AbsMcr(m: bv16, base: Base): bv16 {
    var pp := (((m & CPA_MASK) | CPA_VAL) & PP3_MASK) | PP3_VAL;
    if base.FromReference? then (pp & TUM1_MASK) | TUM1_VAL else pp
  }

  function RelMcr(m: bv16, base: Base): bv16 {
    var pp := (((m & CPR_MASK) | CPR_VAL) & PP3_MASK) | PP3_VAL;
    if base.FromReference? then (pp & TUM1_MASK) | TUM1_VAL else pp
  }

  function VelMcr(m: bv16): bv16 { (m & SP1_MASK) | SP1_VAL }

  /** Bits 13, 15, 10, 9, 8 and 0 set, bits 1 to 5 clear, bits 6, 7, 11 and 12 as they were;
      bit 14 set for a move from the reference, clear for one from the measurement. */
  lemma AbsMcrBits(m: bv16, base: Base)
    ensures AbsMcr(m, base) == (m & 0x18C0) | (if base.FromReference? then 0xE701 else 0xA701)
    ensures AbsMcr(m, base) & POSITION != 0 && AbsMcr(m, base) & ABSOLUTE != 0
  {
  }

  lemma RelMcrBits(m: bv16, base: Base)
    ensures RelMcr(m, base) == (m & 0x18C0) | (if base.FromReference? then 0xC701 else 0x8701)
    ensures RelMcr(m, base) & POSITION != 0 && RelMcr(m, base) & ABSOLUTE == 0
  {
  }

  /** Bits 15, 9, 8 and 0 set, bits 14, 10 and 1 to 5 clear, the rest - bit 13 too - as they were. */
  lemma VelMcrBits(m: bv16)
    ensures VelMcr(m) == (m & 0x38C0) | 0x8301
    ensures VelMcr(m) & POSITION == 0
  {
  }

  lemma CleanMode(d: Drive, v: Vars, base: Base)
    ensures Clean(d, v, AbsoluteMode(base)) == d.(mcr := AbsMcr(d.mcr, base))
    ensures Clean(d, v, RelativeMode(base)) == d.(mcr := RelMcr(d.mcr, base))
  {
    hide Clean;
    var cpa, cpr, pp3 := Must(Chmod(CPA_MASK, CPA_VAL)), Must(Chmod(CPR_MASK, CPR_VAL)), Must(Chmod(PP3_MASK, PP3_VAL));
    Clean2(d, v, cpa, pp3);
    Clean2(d, v, cpr, pp3);
    if base.FromReference? {
      CleanAppend(d, v, [cpa, pp3], Must(Chmod(TUM1_MASK, TUM1_VAL)));
      CleanAppend(d, v, [cpr, pp3], Must(Chmod(TUM1_MASK, TUM1_VAL)));
    } else {
      assert [cpa, pp3] + [] == [cpa, pp3] && [cpr, pp3] + [] == [cpr, pp3];
    }
  }

  lemma CleanAbsPrefix(d: Drive, v: Vars, pos: int, spd: Option<Long>, acc: Option<Long>, base: Base)
    ensures Clean(d, v, AbsPrefix(v, pos, spd, acc, base))
         == Loaded(d, v, pos, spd, acc).(mcr := AbsMcr(d.mcr, base))
  {
    hide Clean, Load, AbsoluteMode, AbsMcr, U32;
    CleanLoad(d, v, pos, spd, acc);
    CleanConcat(d, v, Load(v, pos, spd, acc), AbsoluteMode(base));
    CleanMode(Loaded(d, v, pos, spd, acc), v, base);
    CleanConcat(d, v, Load(v, pos, spd, acc) + AbsoluteMode(base), Before(v));
    Clean2(Clean(d, v, Load(v, pos, spd, acc) + AbsoluteMode(base)), v, Try(Read16(v.mer)), Try(Read16(v.merMask)));
  }

  lemma CleanRelPrefix(d: Drive, v: Vars, pos: int, spd: Option<Long>, acc: Option<Long>, base: Base)
    ensures Clean(d, v, RelPrefix(v, pos, spd, acc, base))
         == Loaded(d, v, pos, spd, acc).(mcr := RelMcr(d.mcr, base))
  {
    hide Clean, Load, RelativeMode, RelMcr, U32;
    CleanLoad(d, v, pos, spd, acc);
    CleanConcat(d, v, Load(v, pos, spd, acc), RelativeMode(base));
    CleanMode(Loaded(d, v, pos, spd, acc), v, base);
  }

  lemma CleanVelPrefix(d: Drive, v: Vars, spd: Long, acc: Option<Long>)
    ensures Clean(d, v, VelPrefix(v, spd, acc)) == Put32(PutIf(d, v.cacc, acc), v.cspd, spd).(mcr := VelMcr(d.mcr))
  {
    hide Clean, Param;
    CleanParam(d, v, v.cacc, acc);
    CleanConcat(d, v, Param(v.cacc, acc), [Must(Write32(v.cspd, spd)), Must(Chmod(SP1_MASK, SP1_VAL))]);
    Clean2(PutIf(d, v.cacc, acc), v, Must(Write32(v.cspd, spd)), Must(Chmod(SP1_MASK, SP1_VAL)));
  }

  // ----- Which programs bear repetition -----

  /** Steps that never start a profile. */
  predicate Quiet(p: seq<Step>) {
    forall st :: st in p ==> st.c != Simple(UPD_IMM) && (st.Try? ==> st.c.Read16?)
  }

  lemma SteadyAround(d: Drive, v: Vars, pre: seq<Step>, moment: Moment, post: seq<Step>)
    requires Quiet(pre) && Quiet(post)
    requires moment.Immediate? ==> !Harmful(Clean(d, v, pre), v, Simple(UPD_IMM))
    ensures Steady(d, v, pre + Fire(moment) + post)
  {
    hide Clean, NewGoal;
    var p := pre + Fire(moment) + post;
    forall i | 0 <= i < |p|
      ensures !Harmful(Clean(d, v, p[..i]), v, p[i].c) && (p[i].Try? ==> p[i].c.Read16?)
    {
      if i < |pre| {
        assert p[i] in pre;
      } else if i < |pre| + |Fire(moment)| {
        assert p[..i] == pre && p[i] == Fire(moment)[0];
      } else {
        assert p[i] in post;
      }
    }
  }

  lemma ParamIsQuiet(a: word, x: Option<Long>)
    ensures Quiet(Param(a, x))
  {
  }

  lemma LoadIsQuiet(v: Vars, pos: int, spd: Option<Long>, acc: Option<Long>)
    ensures Quiet(Load(v, pos, spd, acc))
  {
    hide Param, U32;
    ParamIsQuiet(v.cacc, acc);
    ParamIsQuiet(v.cspd, spd);
  }

  lemma ModesAreQuiet(base: Base)
    ensures Quiet(AbsoluteMode(base)) && Quiet(RelativeMode(base))
  {
  }

  lemma PrefixesAreQuiet(v: Vars, pos: int, spd: Option<Long>, acc: Option<Long>, base: Base, vel: Long)
    ensures Quiet(AbsPrefix(v, pos, spd, acc, base)) && Quiet(After(v))
    ensures Quiet(RelPrefix(v, pos, spd, acc, base)) && Quiet(VelPrefix(v, vel, acc))
  {
    hide Load, AbsoluteMode, RelativeMode, Param;
    LoadIsQuiet(v, pos, spd, acc);
    ModesAreQuiet(base);
    ParamIsQuiet(v.cacc, acc);
  }

  // ----- Main results: moves over a link that repeats -----

  function Given(x: Option<Long>, otherwise: Long): Long { if x.Some? then x.value else otherwise }

  /** The registers of a drive after a move was started from d: parameters where they
      belong, nothing else touched, and a profile started under MCR value `mcr`. */
  ghost predicate Started(d: Drive, d': Drive, v: Vars, cpos: Long, spd: Long, acc: Long, mcr: bv16, goal: nat) {
    && Get32(d', v.cpos) == cpos && Get32(d', v.cspd) == spd && Get32(d', v.cacc) == acc
    && (forall a :: a !in MotionWords(v) ==> Get(d', a) == Get(d, a))
    && d'.mcr == mcr && d'.goal == goal && d'.profile == Some(Profile(mcr, goal, spd, acc))
  }

  lemma PutReads(d: Drive, a: word, x: Long, b: word)
    ensures Get32(Put32(d, a, x), a) == x && (Apart(a, b) ==> Get32(Put32(d, a, x), b) == Get32(d, b))
  {
  }

  lemma PutIfReads(d: Drive, a: word, x: Option<Long>, b: word)
    ensures Get32(PutIf(d, a, x), a) == Given(x, Get32(d, a))
    ensures Apart(a, b) ==> Get32(PutIf(d, a, x), b) == Get32(d, b)
  {
    hide Put32, Get32, Apart;
    if x.Some? { PutReads(d, a, x.value, b); }
  }

  lemma LoadedElsewhere(d: Drive, v: Vars, pos: int, spd: Option<Long>, acc: Option<Long>)
    ensures var e := Loaded(d, v, pos, spd, acc);
            && (forall a :: a !in MotionWords(v) ==> Get(e, a) == Get(d, a))
            && e.mcr == d.mcr && e.goal == d.goal
  {
    hide U32;
  }

  lemma LoadedWords(d: Drive, v: Vars, pos: int, spd: Option<Long>, acc: Option<Long>)
    requires Disjoint(v)
    ensures var e := Loaded(d, v, pos, spd, acc);
            && Get32(e, v.cpos) == U32(pos)
            && Get32(e, v.cspd) == Given(spd, Get32(d, v.cspd))
            && Get32(e, v.cacc) == Given(acc, Get32(d, v.cacc))
            && (forall a :: a !in MotionWords(v) ==> Get(e, a) == Get(d, a))
            && e.mcr == d.mcr && e.goal == d.goal
  {
    hide U32, MotionWords, Get, Get32, PutIf, Put32, Given, Apart;
    LoadedElsewhere(d, v, pos, spd, acc);
    var d1 := PutIf(d, v.cacc, acc);
    var d2 := PutIf(d1, v.cspd, spd);
    ApartBothWays(v.cacc, v.cspd);
    ApartBothWays(v.cacc, v.cpos);
    ApartBothWays(v.cspd, v.cpos);
    PutIfReads(d, v.cacc, acc, v.cspd);
    PutIfReads(d1, v.cspd, spd, v.cacc);
    PutReads(d2, v.cpos, U32(pos), v.cspd);
    PutReads(d2, v.cpos, U32(pos), v.cacc);
  }

  lemma ApartBothWays(a: word, b: word)
    ensures Apart(a, b) <==> Apart(b, a)
  {
  }

  lemma CleanMoveAbsolute(d: Drive, v: Vars, pos: int, spd: Option<Long>, acc: Option<Long>, base: Base)
    ensures Clean(d, v, MoveAbsolute(v, pos, spd, acc, Immediate, base))
         == Update(Loaded(d, v, pos, spd, acc).(mcr := AbsMcr(d.mcr, base)), v)
  {
    hide Clean, AbsPrefix, AbsMcr, Loaded, Update;
    var pre := AbsPrefix(v, pos, spd, acc, base);
    CleanAbsPrefix(d, v, pos, spd, acc, base);
    CleanAppend(d, v, pre, Must(Simple(UPD_IMM)));
    CleanConcat(d, v, pre + Fire(Immediate), After(v));
    Clean2(Clean(d, v, pre + Fire(Immediate)), v, Try(Read16(v.srl)), Try(Read16(v.mer)));
  }

  lemma AbsoluteIsSteady(d: Drive, v: Vars, pos: int, spd: Option<Long>, acc: Option<Long>, moment: Moment, base: Base)
    ensures Steady(d, v, MoveAbsolute(v, pos, spd, acc, moment, base))
  {
    hide Clean, Steady, AbsPrefix, After, AbsMcr, Loaded, NewGoal, Quiet;
    CleanAbsPrefix(d, v, pos, spd, acc, base);
    AbsMcrBits(d.mcr, base);
    HarmfulIsRelative(Clean(d, v, AbsPrefix(v, pos, spd, acc, base)), v, Simple(UPD_IMM));
    PrefixesAreQuiet(v, pos, spd, acc, base, Long(0, 0));
    SteadyAround(d, v, AbsPrefix(v, pos, spd, acc, base), moment, After(v));
  }

  /** An absolute move that reports success has done, for every initial state of the drive
      and every honest link, exactly what one clean run of its program does ... */
  lemma AbsoluteMoveIsClean(s: State, v: Vars, link: nat -> Outcome, pos: int, spd: Option<Long>, acc: Option<Long>,
    moment: Moment, base: Base)
    requires HonestLink(link) && s.ok
    requires Play(s, v, link, MoveAbsolute(v, pos, spd, acc, moment, base)).ok
    ensures Play(s, v, link, MoveAbsolute(v, pos, spd, acc, moment, base)).d
         == Clean(s.d, v, MoveAbsolute(v, pos, spd, acc, moment, base))
  {
    hide Play, Clean, MoveAbsolute, Steady;
    AbsoluteIsSteady(s.d, v, pos, spd, acc, moment, base);
    Refines(s, v, link, MoveAbsolute(v, pos, spd, acc, moment, base));
  }

  /** ... which, updating immediately from the reference, is this state. */
  lemma AbsoluteMoveState(s: State, v: Vars, link: nat -> Outcome, pos: int, spd: Option<Long>, acc: Option<Long>)
    requires HonestLink(link) && s.ok && Disjoint(v)
    requires Play(s, v, link, MoveAbsolute(v, pos, spd, acc, Immediate, FromReference)).ok
    ensures Started(s.d, Play(s, v, link, MoveAbsolute(v, pos, spd, acc, Immediate, FromReference)).d, v,
                    U32(pos), Given(spd, Get32(s.d, v.cspd)), Given(acc, Get32(s.d, v.cacc)),
                    (s.d.mcr & 0x18C0) | 0xE701, pos % 0x1_0000_0000)
  {
    hide Play, Clean, MoveAbsolute, AbsMcr, Loaded, U32, Given, Get, Get32, MotionWords, Update;
    AbsoluteMoveIsClean(s, v, link, pos, spd, acc, Immediate, FromReference);
    CleanMoveAbsolute(s.d, v, pos, spd, acc, FromReference);
    LoadedWords(s.d, v, pos, spd, acc);
    AbsMcrBits(s.d.mcr, FromReference);
    var l := Loaded(s.d, v, pos, spd, acc);
    var d := l.(mcr := AbsMcr(s.d.mcr, FromReference));
    SameMemory(l, d);
    UpdatedTo(d, v, pos);
  }

  lemma UpdatedTo(d: Drive, v: Vars, pos: int)
    requires Get32(d, v.cpos) == U32(pos) && d.mcr & POSITION != 0 && d.mcr & ABSOLUTE != 0
    ensures
      var d' := Update(d, v);
      && d' == d.(goal := d'.goal, profile := d'.profile) && d'.goal == pos % 0x1_0000_0000
      && d'.profile == Some(Profile(d.mcr, d'.goal, Get32(d, v.cspd), Get32(d, v.cacc)))
      && (forall a :: Get32(d', a) == Get32(d, a) && Get(d', a) == Get(d, a))
  {
    hide Get, Get32;
    SameMemory(d, Update(d, v));
  }

  lemma VelocityIsSteady(d: Drive, v: Vars, spd: Long, acc: Option<Long>, moment: Moment)
    ensures Steady(d, v, MoveVelocity(v, spd, acc, moment))
  {
    hide Clean, Steady, VelPrefix, VelMcr, NewGoal, Quiet, Wrap, Value, Harmful, Put32, PutIf;
    CleanVelPrefix(d, v, spd, acc);
    VelMcrBits(d.mcr);
    HarmfulIsRelative(Clean(d, v, VelPrefix(v, spd, acc)), v, Simple(UPD_IMM));
    PrefixesAreQuiet(v, 0, None, acc, FromReference, spd);
    assert Quiet([]) by { NothingIsQuiet(); }
    SteadyAround(d, v, VelPrefix(v, spd, acc), moment, []);
    assert VelPrefix(v, spd, acc) + Fire(moment) + [] == MoveVelocity(v, spd, acc, moment);
  }

  lemma NothingIsQuiet()
    ensures Quiet([])
  {
  }

  lemma VelWords(d: Drive, v: Vars, spd: Long, acc: Option<Long>)
    requires Disjoint(v)
    ensures var e := Put32(PutIf(d, v.cacc, acc), v.cspd, spd);
            && Get32(e, v.cpos) == Get32(d, v.cpos)
            && Get32(e, v.cspd) == spd
            && Get32(e, v.cacc) == Given(acc, Get32(d, v.cacc))
            && (forall a :: a !in MotionWords(v) ==> Get(e, a) == Get(d, a))
            && e.mcr == d.mcr && e.goal == d.goal
  {
    hide MotionWords, Get, Get32, PutIf, Put32, Given, Apart;
    VelElsewhere(d, v, spd, acc);
    var d1 := PutIf(d, v.cacc, acc);
    ApartBothWays(v.cacc, v.cspd);
    ApartBothWays(v.cacc, v.cpos);
    ApartBothWays(v.cspd, v.cpos);
    PutIfReads(d, v.cacc, acc, v.cpos);
    PutReads(d1, v.cspd, spd, v.cpos);
    PutReads(d1, v.cspd, spd, v.cacc);
  }

  lemma VelElsewhere(d: Drive, v: Vars, spd: Long, acc: Option<Long>)
    ensures var e := Put32(PutIf(d, v.cacc, acc), v.cspd, spd);
            && (forall a :: a !in MotionWords(v) ==> Get(e, a) == Get(d, a))
            && e.mcr == d.mcr && e.goal == d.goal
  {
  }

  /** A velocity move likewise; the goal of the position generator is left alone. */
  lemma VelocityMoveState(s: State, v: Vars, link: nat -> Outcome, spd: Long, acc: Option<Long>)
    requires HonestLink(link) && s.ok && Disjoint(v)
    requires Play(s, v, link, MoveVelocity(v, spd, acc, Immediate)).ok
    ensures Started(s.d, Play(s, v, link, MoveVelocity(v, spd, acc, Immediate)).d, v,
                    Get32(s.d, v.cpos), spd, Given(acc, Get32(s.d, v.cacc)),
                    (s.d.mcr & 0x38C0) | 0x8301, s.d.goal)
  {
    hide Play, Clean, VelPrefix, VelMcr, Steady, Wrap, Value, Put32, PutIf;
    VelWords(s.d, v, spd, acc);
    VelocityIsSteady(s.d, v, spd, acc, Immediate);
    Refines(s, v, link, MoveVelocity(v, spd, acc, Immediate));
    CleanVelPrefix(s.d, v, spd, acc);
    CleanAppend(s.d, v, VelPrefix(v, spd, acc), Must(Simple(UPD_IMM)));
    VelMcrBits(s.d.mcr);
  }

  /** A relative move is the exception: it is exact when the drive ran UPD! once, or when
      there was nothing to add, and in no other case. */
  lemma RelativeMoveIsExactIff(s: State, v: Vars, link: nat -> Outcome, pos: int, spd: Option<Long>, acc: Option<Long>,
    base: Base)
    requires HonestLink(link) && s.ok && Disjoint(v)
    requires Play(s, v, link, MoveRelative(v, pos, spd, acc, Immediate, base)).ok
    ensures var update := Play(s, v, link, RelPrefix(v, pos, spd, acc, base)).k;
            Play(s, v, link, MoveRelative(v, pos, spd, acc, Immediate, base)).d
              == Clean(s.d, v, MoveRelative(v, pos, spd, acc, Immediate, base))
            <==> link(update).runs == 1 || pos % 0x1_0000_0000 == 0
  {
    hide Play, Clean, RelPrefix, RelMcr, Steady, Loaded, U32, Value, Update;
    var pre := RelPrefix(v, pos, spd, acc, base);
    var upd := Simple(UPD_IMM);
    PlayAppend(s, v, link, pre, Must(upd));
    CleanAppend(s.d, v, pre, Must(upd));
    RelPrefixIsSteady(s.d, v, pos, spd, acc, base);
    Refines(s, v, link, pre);
    CleanRelPrefix(s.d, v, pos, spd, acc, base);
    LoadedWords(s.d, v, pos, spd, acc);
    RelMcrBits(s.d.mcr, base);
    var d, k := Clean(s.d, v, pre), Play(s, v, link, pre).k;
    assert Honest(link(k));
    HarmfulIsRelative(d, v, upd);
    TwiceIsOnce(d, v, upd);
    RunsOneOrTwo(d, v, upd);
  }

  /** Where it leaves the drive: as many increments further as UPD! was run. */
  lemma RelativeMoveState(s: State, v: Vars, link: nat -> Outcome, pos: int, spd: Option<Long>, acc: Option<Long>)
    requires HonestLink(link) && s.ok && Disjoint(v)
    requires Play(s, v, link, MoveRelative(v, pos, spd, acc, Immediate, FromReference)).ok
    ensures
      var p := MoveRelative(v, pos, spd, acc, Immediate, FromReference);
      var runs := link(s.k + |p| - 1).runs;
      && 1 <= runs <= 2
      && Started(s.d, Play(s, v, link, p).d, v,
                 U32(pos), Given(spd, Get32(s.d, v.cspd)), Given(acc, Get32(s.d, v.cacc)),
                 (s.d.mcr & 0x18C0) | 0xC701, (s.d.goal + runs * pos) % 0x1_0000_0000)
  {
    hide Play, Clean, RelPrefix, Update, Given, Get, Get32, U32, MotionWords, Runs;
    var d, k := Clean(s.d, v, RelPrefix(v, pos, spd, acc, FromReference)),
                s.k + |MoveRelative(v, pos, spd, acc, Immediate, FromReference)| - 1;
    RelativeIsRuns(s, v, link, pos, spd, acc);
    RelativeReady(s.d, v, pos, spd, acc);
    UpdatedOnceOrTwice(d, v, pos, link(k).runs);
  }

  /** Its last frame, run once or twice on what the others left. */
  lemma RelativeIsRuns(s: State, v: Vars, link: nat -> Outcome, pos: int, spd: Option<Long>, acc: Option<Long>)
    requires HonestLink(link) && s.ok
    requires Play(s, v, link, MoveRelative(v, pos, spd, acc, Immediate, FromReference)).ok
    ensures
      var p, pre := MoveRelative(v, pos, spd, acc, Immediate, FromReference),
                    RelPrefix(v, pos, spd, acc, FromReference);
      var runs := link(s.k + |p| - 1).runs;
      1 <= runs <= 2 && Play(s, v, link, p).d == Runs(Clean(s.d, v, pre), v, Simple(UPD_IMM), runs)
  {
    hide Play, Clean, RelPrefix, Steady, Runs;
    var pre, upd := RelPrefix(v, pos, spd, acc, FromReference), Must(Simple(UPD_IMM));
    PlayAppend(s, v, link, pre, upd);
    RelPrefixIsSteady(s.d, v, pos, spd, acc, FromReference);
    Refines(s, v, link, pre);
    var n := SentIsPrefix(s, v, link, pre);
    assert Honest(link(s.k + |pre|));
  }

  lemma RelativeReady(d: Drive, v: Vars, pos: int, spd: Option<Long>, acc: Option<Long>)
    requires Disjoint(v)
    ensures
      var e := Clean(d, v, RelPrefix(v, pos, spd, acc, FromReference));
      && Get32(e, v.cpos) == U32(pos) && Get32(e, v.cspd) == Given(spd, Get32(d, v.cspd))
      && Get32(e, v.cacc) == Given(acc, Get32(d, v.cacc))
      && (forall a :: a !in MotionWords(v) ==> Get(e, a) == Get(d, a))
      && e.mcr == (d.mcr & 0x18C0) | 0xC701 && e.goal == d.goal
      && e.mcr & POSITION != 0 && e.mcr & ABSOLUTE == 0
  {
    hide Clean, RelPrefix, RelMcr, Loaded, U32, Given, Get, Get32, MotionWords;
    CleanRelPrefix(d, v, pos, spd, acc, FromReference);
    LoadedWords(d, v, pos, spd, acc);
    RelMcrBits(d.mcr, FromReference);
    var l := Loaded(d, v, pos, spd, acc);
    SameMemory(l, l.(mcr := RelMcr(d.mcr, FromReference)));
  }

  lemma UpdatedOnceOrTwice(d: Drive, v: Vars, pos: int, runs: nat)
    requires Get32(d, v.cpos) == U32(pos) && d.mcr & POSITION != 0 && d.mcr & ABSOLUTE == 0 && 1 <= runs <= 2
    ensures
      var d' := Runs(d, v, Simple(UPD_IMM), runs);
      && d' == d.(goal := d'.goal, profile := d'.profile) && d'.goal == (d.goal + runs * pos) % 0x1_0000_0000
      && d'.profile == Some(Profile(d.mcr, d'.goal, Get32(d, v.cspd), Get32(d, v.cacc)))
      && (forall a :: Get32(d', a) == Get32(d, a) && Get(d', a) == Get(d, a))
  {
    hide Update, U32, Get, Get32, Runs;
    UpdatedOnce(d, v, pos);
    UpdatedOnce(Update(d, v), v, pos);
    TwoIncrements(d.goal, pos);
    RunsOneOrTwo(d, v, Simple(UPD_IMM));
    UpdateIs(d, v);
    UpdateIs(Update(d, v), v);
  }

  lemma UpdateIs(d: Drive, v: Vars)
    ensures Exec(d, v, Simple(UPD_IMM)) == Update(d, v)
  {
    hide Update;
  }

  lemma SameMemory(d: Drive, d': Drive)
    requires d'.dm == d.dm
    ensures forall a :: Get32(d', a) == Get32(d, a) && Get(d', a) == Get(d, a)
  {
  }

  lemma UpdatedOnce(d: Drive, v: Vars, pos: int)
    requires Get32(d, v.cpos) == U32(pos) && d.mcr & POSITION != 0 && d.mcr & ABSOLUTE == 0
    ensures
      var d' := Update(d, v);
      && d' == d.(goal := d'.goal, profile := d'.profile) && d'.goal == (d.goal + pos) % 0x1_0000_0000
      && d'.profile == Some(Profile(d.mcr, d'.goal, Get32(d, v.cspd), Get32(d, v.cacc)))
      && (forall a :: Get32(d', a) == Get32(d, a) && Get(d', a) == Get(d, a))
  {
    hide U32, Get, Get32, Value;
    SameMemory(d, Update(d, v));
    OneIncrement(d.goal, Value(U32(pos)), pos);
  }

  lemma OneIncrement(g: nat, u: nat, pos: int)
    requires u == pos % 0x1_0000_0000
    ensures Wrap(g + u) == (g + pos) % 0x1_0000_0000
  {
  }

  lemma TwoIncrements(g: nat, pos: int)
    ensures ((g + pos) % 0x1_0000_0000 + pos) % 0x1_0000_0000 == (g + 2 * pos) % 0x1_0000_0000
  {
  }

  lemma RunsOneOrTwo(d: Drive, v: Vars, c: Cmd)
    ensures Runs(d, v, c, 1) == Exec(d, v, c) && Runs(d, v, c, 2) == Exec(Exec(d, v, c), v, c)
  {
    hide Exec;
    assert Runs(d, v, c, 0) == d;
  }

  lemma RelPrefixIsSteady(d: Drive, v: Vars, pos: int, spd: Option<Long>, acc: Option<Long>, base: Base)
    ensures Steady(d, v, RelPrefix(v, pos, spd, acc, base))
  {
    hide Clean, Steady, RelPrefix, Quiet, Harmful, Wrap, Value;
    PrefixesAreQuiet(v, pos, spd, acc, base, Long(0, 0));
    NothingIsQuiet();
    SteadyAround(d, v, RelPrefix(v, pos, spd, acc, base), NoUpdate, []);
    assert RelPrefix(v, pos, spd, acc, base) + [] + [] == RelPrefix(v, pos, spd, acc, base);
  }

  // ----- Main result: a failed step ends the program -----

  function Cmds(p: seq<Step>): seq<Cmd> { seq(|p|, i requires 0 <= i < |p| => p[i].c) }

  lemma {:induction false} SentIsPrefix(s: State, v: Vars, link: nat -> Outcome, p: seq<Step>) returns (n: nat)
    requires s.ok
    ensures n <= |p| && Play(s, v, link, p).sent == s.sent + Cmds(p[..n]) && Play(s, v, link, p).k == s.k + n
    ensures Play(s, v, link, p).ok ==> n == |p|
    ensures forall i :: 0 <= i < n && p[i].Must? && (i < n - 1 || Play(s, v, link, p).ok) ==> link(s.k + i).acked
    decreases |p|
  {
    hide Runs;
    if p == [] {
      n := 0;
    } else {
      var q := p[..|p| - 1];
      n := SentIsPrefix(s, v, link, q);
      if Play(s, v, link, q).ok {
        n := |p|;
        assert Cmds(p) == Cmds(q) + [p[|p| - 1].c];
        assert p[..n] == p && q[..|q|] == q;
        assert s.sent + Cmds(q) + [p[|p| - 1].c] == s.sent + Cmds(p);
      } else {
        assert q[..n] == p[..n];
      }
    }
  }

  /** If a required frame goes unacknowledged, the program reports failure and sends none of
      the frames after it - no UPD! in particular. */
  lemma NothingAfterFailure(s: State, v: Vars, link: nat -> Outcome, p: seq<Step>, i: nat)
    requires s.ok && i < |p| && p[i].Must? && !link(s.k + i).acked
    ensures !Play(s, v, link, p).ok
    ensures Play(s, v, link, p).sent <= s.sent + Cmds(p[..i + 1])
  {
    hide Play;
    var n := SentIsPrefix(s, v, link, p);
    assert n <= i + 1;
    assert Cmds(p[..n]) <= Cmds(p[..i + 1]);
  }
}
