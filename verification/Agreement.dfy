/** Setup files and lists of calls for which every run is a proper one: what can be checked
    before anything is run. */
module Agreement {
  import opened Codec
  import opened TmlLib
  import opened Supervisor
  import opened Channels
  import opened Initialising
  import opened AxisEffects
  import opened Lifting
  import opened Connection
  import opened AxisMotion
  import opened MaskRegister
  import opened Coupling
  import opened CoupledRuns
  import opened Maps

  // ----- Setups that agree -----

  ghost predicate FitsAll(e: Env, vars: VarMap) { forall id: byte :: Fits(e, id, vars) }

  /** The defaults and every setup file have MER_MASK at the drives' own mask register, and
      nothing else that is written on it. */
  ghost predicate Agreeing(e: Env) {
    FitsAll(e, DEFAULTS) && forall path :: FitsAll(e, DEFAULTS + e.file(path))
  }

  ghost function FitsOf(e: Env): VarMap -> bool { (vars: VarMap) => FitsAll(e, vars) }

  lemma FitsHandedOn(e: Env)
    requires Agreeing(e)
    ensures HandedOn(e, FitsOf(e))
  {
    hide FitsAll, Complete;
    forall vars, setup | FitsOf(e)(setup) && Complete(setup) ensures FitsOf(e)(vars + setup) {
      MergedFitsAll(e, vars, setup);
    }
  }

  lemma MergedFitsAll(e: Env, vars: VarMap, setup: VarMap)
    requires Complete(setup) && FitsAll(e, setup)
    ensures FitsAll(e, vars + setup)
  {
    hide Fits, Complete;
    forall id: byte ensures Fits(e, id, vars + setup) { SetupMakesFit(e, id, vars, setup); }
  }

  /** Any map that comes up in a run fits every drive. */
  lemma AlwaysFits(e: Env, n: nat, mem: map<byte, Mem>, cs: seq<Cmd>, i: nat)
    requires Agreeing(e) && i < n
    ensures MapFits(e, Later(Run(e, Boot(e, n, mem), cs)), i)
  {
    hide HandedOn, Boot, Run, Fits, Agreeing;
    FitsHandedOn(e);
    MapsInRuns(e, FitsOf(e), n, mem, cs);
  }

  // ----- Ids in a list of calls -----

  predicate Configures(c: Cmd, i: nat, id: byte) { c.DoConfigure? && c.i == i && c.c.id == id }

  /** Whenever an axis is configured it gets the same id, and no other axis ever gets that id; no
      call resets a drive. */
  ghost predicate IdsKept(cs: seq<Cmd>) {
    && (forall k :: 0 <= k < |cs| ==> !(cs[k].DoParam? && cs[k].p == ResetDriveParam))
    && forall k, m :: 0 <= k < |cs| && 0 <= m < |cs| && cs[k].DoConfigure? && cs[m].DoConfigure? ==>
                        (cs[k].i == cs[m].i <==> cs[k].c.id == cs[m].c.id)
  }

  ghost predicate SameIdentityAll(w: World, x: World) {
    |x.axes| == |w.axes| && forall j :: 0 <= j < |w.axes| ==> SameIdentity(w.axes[j], x.axes[j])
  }

  ghost function IdentityOf(w: World): World -> bool { (x: World) => SameIdentityAll(w, x) }

  lemma IdentityInside(e: Env, w: World, i: nat)
    ensures KeptInside(e, IdentityOf(w), i)
  {
    hide Select, M;
    forall a, b | IdentityOf(w)(a) && Calm(a, b, i) ensures IdentityOf(w)(b) {}
    forall a: World | IdentityOf(w)(a) && i < |a.axes| ensures IdentityOf(w)(Select(e, a, i).0) {
      forall j | 0 <= j < |w.axes| ensures SameIdentity(w.axes[j], Select(e, a, i).0.axes[j]) {
        SelectDrifts(e, a, i, j);
      }
    }
  }

  /** Only configuring changes what an axis is. */
  lemma IdentityKept(e: Env, w: World, c: Cmd)
    requires !c.DoConfigure?
    ensures SameIdentityAll(w, Step(e, w, c).0)
  {
    hide EnsureChannel, PollReinit, Observe, Configure, Move, MoveVelocity, Home, ForceHome, Stop, SetPosition,
      SetClosedLoop, WriteParam, KeptInside, SameIdentityAll, Alike;
    Itself(w);
    if c.CtrlPoll? {
      OpeningAlongside(e, w);
      AlongsideIdentity(w, EnsureChannel(e, w).0);
    } else if c.i < |w.axes| {
      IdentityInside(e, w, c.i);
      assert IdentityOf(w)(w);
      if c.DoPoll? {
        PollReinitEffect(e, w, c.i);
        PolledIdentity(w, PollReinit(e, w, c.i).0, c.i);
        assert IdentityOf(w)(PollReinit(e, w, c.i).0);
        ObserveAfter(e, IdentityOf(w), PollReinit(e, w, c.i).0, c.i);
      } else { CommandKeeps(e, IdentityOf(w), w, c); }
    }
  }

  lemma Itself(w: World)
    ensures SameIdentityAll(w, w)
  {
  }

  lemma AlongsideIdentity(w: World, x: World)
    requires Alongside(w, x)
    ensures SameIdentityAll(w, x)
  {
    forall j | 0 <= j < |w.axes| ensures SameIdentity(w.axes[j], x.axes[j]) {
      assert AxisAlongside(w.axes[j], x.axes[j]);
    }
  }

  lemma PolledIdentity(w: World, x: World, i: nat)
    requires |x.axes| == |w.axes| && i < |w.axes| && Alike(w.axes[i], x.axes[i])
    requires forall j :: 0 <= j < |w.axes| && j != i ==> x.axes[j] == w.axes[j]
    ensures SameIdentityAll(w, x)
  {
  }

  /** A configured axis has the id that some call has given it. */
  ghost predicate IdsGiven(w: World, cs: seq<Cmd>) {
    forall j :: 0 <= j < |w.axes| && w.axes[j].configured ==>
      exists m :: 0 <= m < |cs| && Configures(cs[m], j, w.axes[j].cfg.id)
  }

  lemma MoreGiven(w: World, x: World, cs: seq<Cmd>, c: Cmd)
    requires IdsGiven(w, cs) && |x.axes| == |w.axes|
    requires forall j :: 0 <= j < |w.axes| ==>
      SameIdentity(w.axes[j], x.axes[j]) || (x.axes[j].configured && Configures(c, j, x.axes[j].cfg.id))
    ensures IdsGiven(x, cs + [c])
  {
    forall j | 0 <= j < |x.axes| && x.axes[j].configured
      ensures exists m :: 0 <= m < |cs + [c]| && Configures((cs + [c])[m], j, x.axes[j].cfg.id) {
      if SameIdentity(w.axes[j], x.axes[j]) {
        var m :| 0 <= m < |cs| && Configures(cs[m], j, w.axes[j].cfg.id);
        assert Configures((cs + [c])[m], j, x.axes[j].cfg.id);
      } else { assert Configures((cs + [c])[|cs|], j, x.axes[j].cfg.id); }
    }
  }

  lemma ConfiguredIdentity(e: Env, w: World, i: nat, c: Config)
    requires i < |w.axes|
    ensures
      var x := Configure(e, w, i, c);
      && x.axes[i].cfg == c && x.axes[i].configured
         && (forall j :: 0 <= j < |w.axes| && j != i ==> x.axes[j] == w.axes[j])
  {
    hide Reinit, SelectChannel, Configured, AwaitingChannel, FirstTried;
    var a' := Reinit(e, SelectChannel(e, w.lib, w.fd).0, Configured(w.axes[i], c)).1;
    ConfiguredAxis(w.axes[i], c, a'.setupIdx, true);
    ConfiguredAxis(w.axes[i], c, a'.setupIdx, false);
  }

  lemma NextGives(e: Env, w: World, cs: seq<Cmd>, c: Cmd)
    requires IdsGiven(w, cs)
    ensures IdsGiven(Next(e, w, c), cs + [c])
  {
    hide Step, Configure, SameIdentity, IdsGiven;
    var x := Next(e, w, c);
    if c.DoConfigure? {
      if c.i < |w.axes| {
        ConfiguredIdentity(e, Later(w), c.i, c.c);
        ConfigureIsStep(e, Later(w), c.i, c.c);
      } else { NoAxis(e, Later(w), c); }
      forall j | 0 <= j < |w.axes|
        ensures SameIdentity(w.axes[j], x.axes[j]) || (x.axes[j].configured && Configures(c, j, x.axes[j].cfg.id)) {
        SameIdentityItself(w.axes[j]);
      }
    } else { IdentityKept(e, Later(w), c); }
    MoreGiven(w, x, cs, c);
  }

  lemma NoAxis(e: Env, w: World, c: Cmd)
    requires !c.CtrlPoll? && c.i >= |w.axes|
    ensures Step(e, w, c).0 == w
  {
  }

  lemma {:induction false} RunGives(e: Env, w: World, cs: seq<Cmd>)
    requires forall j :: 0 <= j < |w.axes| ==> !w.axes[j].configured
    ensures IdsGiven(Run(e, w, cs), cs)
    decreases |cs|
  {
    hide Next;
    if cs != [] {
      var rest := cs[..|cs| - 1];
      RunGives(e, w, rest);
      NextGives(e, Run(e, w, rest), rest, cs[|cs| - 1]);
      assert rest + [cs[|cs| - 1]] == cs;
    }
  }

  lemma CallIsProper(e: Env, w: World, cs: seq<Cmd>, k: nat)
    requires Agreeing(e) && IdsKept(cs) && k < |cs| && IdsGiven(w, cs[..k])
    requires !cs[k].CtrlPoll? && cs[k].i < |w.axes| ==> MapFits(e, w, cs[k].i)
    ensures Proper(e, w, cs[k])
  {
    hide Fits, MapFits;
    var c := cs[k];
    if c.DoConfigure? && c.i < |w.axes| {
      forall j | 0 <= j < |w.axes| && w.axes[j].configured ensures w.axes[j].cfg.id == c.c.id <==> j == c.i {
        var m :| 0 <= m < k && Configures(cs[..k][m], j, w.axes[j].cfg.id);
        assert cs[m].c.id == w.axes[j].cfg.id && cs[m].i == j;
      }
    }
  }

  /** With such setup files and such a list of calls the run is a proper one, whatever the link
      and the clock do. */
  lemma AgreeingSetupsSuffice(e: Env, n: nat, mem: map<byte, Mem>, cs: seq<Cmd>)
    requires Agreeing(e) && IdsKept(cs)
    ensures ProperRun(e, Boot(e, n, mem), cs)
  {
    hide Run, Proper, Agreeing, IdsKept, MapFits, IdsGiven;
    BootUnconfigured(e, n, mem);
    forall k | 0 <= k < |cs| ensures Proper(e, Later(Run(e, Boot(e, n, mem), cs[..k])), cs[k]) {
      var w := Run(e, Boot(e, n, mem), cs[..k]);
      RunGives(e, Boot(e, n, mem), cs[..k]);
      LaterGiven(w, cs[..k]);
      if !cs[k].CtrlPoll? && cs[k].i < n { AlwaysFits(e, n, mem, cs[..k], cs[k].i); }
      CallIsProper(e, Later(w), cs, k);
    }
  }

  lemma LaterGiven(w: World, cs: seq<Cmd>)
    requires IdsGiven(w, cs)
    ensures IdsGiven(Later(w), cs)
  {
  }

  lemma BootUnconfigured(e: Env, n: nat, mem: map<byte, Mem>)
    ensures forall j :: 0 <= j < n ==> !Boot(e, n, mem).axes[j].configured
  {
    hide OpenChannel, EmptyLib;
  }

  /** There are such drives and files. */
  lemma AnAgreeingEnvironment() returns (e: Env)
    ensures Acked(e) && Agreeing(e)
  {
    e := Env(true, 0, (t: nat) => 1.0 + t as real, (t: nat) => Reply(true, 0, 0, 0), (path: string) => map[],
             (id: byte, at: word) => false, (t: nat) => map[], (id: byte) => DEFAULTS["MER_MASK"]);
    DefaultsFit(e);
    forall path: string ensures FitsAll(e, DEFAULTS + e.file(path)) { assert DEFAULTS + e.file(path) == DEFAULTS; }
  }

  lemma DefaultsFit(e: Env)
    requires forall id: byte :: e.maskAt(id) == DEFAULTS["MER_MASK"] && !e.live(id, e.maskAt(id))
    ensures FitsAll(e, DEFAULTS)
  {
  }
}
