/** The library's global state - channel slots, setup slots, the active channel - updated in
    place, against the functions on values in TmlLib. */
module LibraryCode {
  import opened Codec
  import opened Masks
  import opened TmlLib

  /** The first free slot, as the slot loops find it. */
  method FindFree<T(==)>(slots: array<Option<T>>) returns (r: Option<nat>)
    ensures r == FreeSlot(slots[..], 0)
  {
    var i := 0;
    while i < slots.Length && slots[i] != None
      invariant i <= slots.Length
      invariant FreeSlot(slots[..], 0) == FreeSlot(slots[..], i)
    {
      i := i + 1;
    }
    r := if i < slots.Length then Some(i) else None;
  }

  /** g_channels, g_setups and g_activeCh. `sent`, `opens` and `marks` only record what has
      happened; `mem` is what the drives hold. */
  class Library {
    const env: Env
    const channels: array<Option<Chan>>
    const setups: array<Option<VarMap>>
    var active: Option<nat>
    var t: nat
    var mem: map<byte, Mem>
    ghost var sent: seq<Call>
    ghost var opens: seq<real>
    ghost var marks: Marks

    ghost function View(): Lib
      reads this, channels, setups
    {
      Lib(Tables(channels[..], active, setups[..]), t, sent, opens, marks, mem)
    }

    constructor (env: Env, mem: map<byte, Mem>)
      ensures fresh(channels) && fresh(setups) && this.env == env
      ensures View() == EmptyLib(mem)
    {
      this.env := env;
      channels := new Option<Chan>[MAX_CHANNELS](_ => None);
      setups := new Option<VarMap>[MAX_SETUPS](_ => None);
      active, t, this.mem := None, 0, mem;
      sent, opens, marks := [], [], Marks(0, 0, 0, []);
    }

    method FindFd(fd: int) returns (r: Option<nat>)
      ensures r == SlotOf(channels[..], fd, 0)
    {
      var i := 0;
      while i < channels.Length && !(channels[i].Some? && (fd < 0 || channels[i].value.fd == fd))
        invariant i <= channels.Length
        invariant SlotOf(channels[..], fd, 0) == SlotOf(channels[..], fd, i)
      {
        i := i + 1;
      }
      r := if i < channels.Length then Some(i) else None;
    }

    predicate HasActive()
      reads this, channels
    {
      active.Some? && active.value < channels.Length && channels[active.value].Some?
    }

    method ReadClock() returns (now: real)
      modifies this`t
      ensures now == env.clock(old(t)) && View() == Tick(old(View()))
    {
      now := env.clock(t);
      t := t + 1;
    }

    // ----- Channels -----

    method OpenChannel(ghost stamp: real) returns (fd: int)
      modifies this, channels
      ensures (View(), fd) == TmlLib.OpenChannel(env, old(View()), stamp)
    {
      var slot := FindFree(channels);
      var a := env.reply(t);
      t, opens := t + 1, opens + [stamp];
      if slot == None || a.fd < 0 { return NO_FD; }
      fd := FreshFd(channels[..], a.fd);
      channels[slot.value] := Some(Chan(fd, env.host, DEFAULTS));
      active := slot;
      marks := Marks(marks.epoch + 1, marks.resets, |sent|, []);
    }

    /** Noted when the axes are made to start over on the channel just opened. */
    ghost method StartOver()
      modifies this`marks
      ensures View() == StartedOver(old(View()))
    {
      marks := marks.(resets := marks.resets + 1);
    }

    method SelectChannel(fd: int) returns (ok: bool)
      modifies this
      ensures (View(), ok) == TmlLib.SelectChannel(env, old(View()), fd)
    {
      if fd < 0 { return active.Some?; }
      var slot := FindFd(fd);
      ok := slot.Some? && (env.native || env.reply(t).ok);
      t := t + 1;
      if ok { active := slot; }
    }

    method CloseChannel(fd: int)
      modifies this, channels
      ensures View() == TmlLib.CloseChannel(old(View()), fd)
    {
      var slot := FindFd(fd);
      if slot.Some? {
        if active == slot { active := None; }
        channels[slot.value] := None;
      }
    }

    // ----- Setups and axes -----

    method LoadSetup(path: string) returns (idx: int)
      modifies setups
      ensures (View(), idx) == TmlLib.LoadSetup(env, old(View()), path)
    {
      var slot := FindFree(setups);
      if slot == None { return NO_SETUP; }
      setups[slot.value] := Some(DEFAULTS + env.file(path));
      idx := slot.value;
    }

    method SetupAxis(id: byte, idx: int) returns (ok: bool)
      modifies this, channels
      ensures (View(), ok) == TmlLib.SetupAxis(env, old(View()), id, idx)
    {
      if !HasActive() || idx < 0 || idx >= setups.Length || setups[idx] == None { return false; }
      ok := env.native || env.reply(t).ok;
      t := t + 1;
      if ok {
        var c := channels[active.value].value;
        channels[active.value] := Some(c.(vars := c.vars + setups[idx].value));
        marks := marks.(setupDone := marks.setupDone + [(id, idx)]);
      }
    }

    method SelectAxis(id: byte) returns (ok: bool)
      modifies this, channels
      ensures (View(), ok) == TmlLib.SelectAxis(env, old(View()), id)
    {
      if !HasActive() { return false; }
      ok := env.native || env.reply(t).ok;
      t := t + 1;
      if ok { channels[active.value] := Some(channels[active.value].value.(axis := id)); }
    }

    // ----- Calls to the active axis -----

    method Send(op: Op) returns (a: Reply)
      modifies this
      ensures (View(), a) == TmlLib.Send(env, old(View()), op)
    {
      hide MemAfter, Brought, Talks;
      if !HasActive() { return NO_REPLY; }
      var c := channels[active.value].value;
      var val := Sense(c, op);
      mem := Carry(c, op);
      a := env.reply(t).(val := val);
      sent := sent + [Call(c.axis, op, a.ok, val)];
      t := t + 1;
    }

    /** What a read finds in the register its name stands for. */
    method Sense(c: Chan, op: Op) returns (val: word)
      requires HasActive()
      ensures val == Brought(env, View(), c, op)
    {
      val := env.reply(t).val;
      if op.Read? {
        var at := Resolve(c.vars, op.name);
        if !env.live(c.axis, at) { val := if c.axis in mem then Cell(mem[c.axis], at) else 0; }
      }
    }

    /** The drives' registers once the call has been made. */
    method Carry(c: Chan, op: Op) returns (after: map<byte, Mem>)
      requires HasActive()
      ensures after == MemAfter(env, View(), c, op)
    {
      hide Stores, PutAll;
      var a, stores := env.reply(t), Stores(c.vars, op);
      if op.Reset? {
        after := if a.ok || a.ran > 0 then mem[c.axis := env.start(t)] else mem;
        return;
      }
      var n := if a.ok || a.ran > |stores| then |stores| else a.ran;
      if n == 0 { return mem; }
      var drive := StoreAll(if c.axis in mem then mem[c.axis] else map[], stores[..n]);
      after := mem[c.axis := drive];
    }

    static method StoreAll(start: Mem, stores: seq<Store>) returns (drive: Mem)
      ensures drive == PutAll(start, stores)
    {
      hide Put;
      drive := start;
      for k := 0 to |stores|
        invariant PutAll(start, stores) == PutAll(drive, stores[k..])
      {
        assert stores[k..][0] == stores[k] && stores[k..][1..] == stores[k + 1..];
        drive := Put(drive, stores[k]);
      }
      assert stores[|stores|..] == [];
    }

    method GetVar(name: string) returns (ok: bool, val: word)
      modifies this
      ensures (View(), ok, val) == TmlLib.GetVar(env, old(View()), name)
    {
      if !HasActive() || name !in channels[active.value].value.vars { return false, 0; }
      var a := Send(Read(name));
      ok, val := a.ok, if a.ok then a.val else 0;
    }

    method SetVar(name: string, val: word) returns (ok: bool)
      modifies this
      ensures (View(), ok) == TmlLib.SetVar(env, old(View()), name, val)
    {
      if !HasActive() || name !in channels[active.value].value.vars { return false; }
      var a := Send(Write(name, val));
      ok := a.ok;
    }

    method SetLong(name: string, n: int) returns (ok: bool)
      modifies this
      ensures (View(), ok) == TmlLib.SetLong(env, old(View()), name, n)
    {
      if !HasActive() || name !in channels[active.value].value.vars { return false; }
      var a := Send(WriteLong(name, n));
      ok := a.ok;
    }

    /** ENDINIT until it is acknowledged, three times at most. */
    method DriveInitialisation() returns (ok: bool)
      modifies this
      ensures (View(), ok) == TmlLib.DriveInitialisation(env, old(View()), ENDINIT_TRIES)
    {
      if !HasActive() { return false; }
      var i := 0;
      ok := false;
      while i < ENDINIT_TRIES && !ok
        invariant i <= ENDINIT_TRIES && HasActive()
        invariant !ok ==> TmlLib.DriveInitialisation(env, old(View()), ENDINIT_TRIES)
                          == TmlLib.DriveInitialisation(env, View(), ENDINIT_TRIES - i)
        invariant ok ==> TmlLib.DriveInitialisation(env, old(View()), ENDINIT_TRIES) == (View(), true)
      {
        var a := Send(EndInit);
        ok := a.ok;
        i := i + 1;
      }
    }

    // ----- Registers read, changed and written back -----

    method Fetch(name: string) returns (m: word)
      modifies this
      ensures (View(), m) == TmlLib.Fetch(env, old(View()), name)
    {
      hide Stores, Brought, MemAfter;
      var a := Send(Read(name));
      m := if a.ok then a.val else 0;
    }

    method SetEventOnLimitSwitch(positive: bool) returns (ok: bool)
      modifies this
      ensures (View(), ok) == TmlLib.SetEventOnLimitSwitch(env, old(View()), positive)
    {
      hide TmlLib.Send, TmlLib.Fetch, Talks;
      var m := Fetch("MER_MASK");
      var a := Send(Write("MER_MASK", Armed(m, positive)));
      ok := a.ok;
    }

    method ClearBits(name: string, lsp: bool, lsn: bool)
      modifies this
      ensures View() == TmlLib.ClearBits(env, old(View()), name, lsp, lsn)
    {
      hide TmlLib.Send, TmlLib.Fetch, Talks;
      var m := Fetch(name);
      if Cleared(m, lsp, lsn) != m { var _ := Send(Write(name, Cleared(m, lsp, lsn))); }
    }

    method ClearLimitSwitchEvent()
      modifies this
      ensures View() == TmlLib.ClearLimitSwitchEvent(env, old(View()))
    {
      hide TmlLib.ClearBits, Talks;
      ClearBits("MER_MASK", true, true);
      ClearBits("MER", true, true);
    }

    method DisableLimitProtection(lsp: bool, lsn: bool)
      modifies this
      ensures View() == TmlLib.DisableLimitProtection(env, old(View()), lsp, lsn)
    {
      hide TmlLib.Send, TmlLib.Fetch, TmlLib.ClearBits, Talks;
      var m := Fetch("MER_MASK");
      var a := Send(Write("MER_MASK", Cleared(m, lsp, lsn)));
      if a.ok { ClearBits("MER", lsp, lsn); }
    }

    method SetEventOnMotionComplete()
      modifies this
      ensures View() == TmlLib.SetEventOnMotionComplete(env, old(View()))
    {
      hide TmlLib.Send, TmlLib.Fetch, Talks;
      var m := Fetch("SRL_MASK");
      var _ := Send(Write("SRL_MASK", WithComplete(m)));
    }

    method ResetFault()
      modifies this
      ensures View() == TmlLib.ResetFault(env, old(View()))
    {
      hide TmlLib.Send, TmlLib.Fetch, Talks;
      var _ := Fetch("MER");
      var _ := Send(Write("MER", 0));
    }

    method ResetDrive()
      modifies this
      ensures View() == TmlLib.ResetDrive(env, old(View()))
    {
      hide TmlLib.Send, Talks;
      var _ := Send(Reset);
    }
  }
}
