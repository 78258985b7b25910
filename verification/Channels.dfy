/** The channel table, and the one channel the controller keeps in it. */
module Channels {
  import opened Codec
  import opened TmlLib

  // ----- The table under any calls -----

  predicate InUse(t: Tables, k: int) { 0 <= k < |t.chans| && t.chans[k].Some? }

  function FdAt(t: Tables, k: int): int
    requires InUse(t, k)
  {
    t.chans[k].value.fd
  }

  ghost predicate Distinct(t: Tables) {
    forall j, k :: InUse(t, j) && InUse(t, k) && j != k ==> FdAt(t, j) != FdAt(t, k)
  }

  /** Channels in use have different descriptors, and the active one is in use. */
  ghost predicate TableOk(t: Tables) {
    Distinct(t) && (t.active.Some? ==> InUse(t, t.active.value))
  }

  ghost predicate Names(t: Tables, fd: int) { exists k :: InUse(t, k) && FdAt(t, k) == fd }

  lemma SlotOfIsExact(t: Tables, fd: int)
    requires fd >= 0
    ensures SlotOf(t.chans, fd, 0).Some? <==> Names(t, fd)
  {
    var s := SlotOf(t.chans, fd, 0);
    if s.Some? { assert InUse(t, s.value) && FdAt(t, s.value) == fd; }
    if Names(t, fd) {
      var k :| InUse(t, k) && FdAt(t, k) == fd;
      assert t.chans[k].Some?;
    }
  }

  /** Slot s is filled with a channel whose descriptor no other slot has. */
  lemma FillingKeepsDistinct(t: Tables, r: Tables, s: nat)
    requires Distinct(t) && InUse(r, s) && |r.chans| == |t.chans|
    requires forall k :: 0 <= k < |t.chans| && k != s ==> r.chans[k] == t.chans[k]
    requires !Names(t, FdAt(r, s))
    ensures Distinct(r)
  {
    forall j, k | InUse(r, j) && InUse(r, k) && j != k ensures FdAt(r, j) != FdAt(r, k) {
      if j != s { assert InUse(t, j) && FdAt(t, j) == FdAt(r, j); }
      if k != s { assert InUse(t, k) && FdAt(t, k) == FdAt(r, k); }
    }
  }

  /** Opening makes the new descriptor the active channel; it was not in the table, and every
      other channel stays as it was. */
  lemma OpenKeepsTable(e: Env, l: Lib, stamp: real)
    requires TableOk(l.tab)
    ensures
      var (r, fd) := OpenChannel(e, l, stamp);
      && TableOk(r.tab)
      && (fd >= 0 ==> !Names(l.tab, fd) && r.tab.active.Some? && FdAt(r.tab, r.tab.active.value) == fd)
      && (forall k :: InUse(l.tab, k) ==> InUse(r.tab, k) && r.tab.chans[k] == l.tab.chans[k])
  {
    var (r, fd) := OpenChannel(e, l, stamp);
    if fd >= 0 {
      var s := r.tab.active.value;
      assert l.tab.chans[s] == None && FdAt(r.tab, s) == fd;
      assert !Names(l.tab, fd);
      FillingKeepsDistinct(l.tab, r.tab, s);
    }
  }

  /** Selecting looks the descriptor up, and natively that is all it does. */
  lemma SelectKeepsTable(e: Env, l: Lib, fd: int)
    requires TableOk(l.tab)
    ensures
      var (r, ok) := SelectChannel(e, l, fd);
      && TableOk(r.tab) && r.tab.chans == l.tab.chans
      && (fd >= 0 && ok ==> r.tab.active.Some? && FdAt(r.tab, r.tab.active.value) == fd)
      && (fd >= 0 ==> (ok <==> Names(l.tab, fd) && (e.native || e.reply(l.t).ok)))
  {
    var r := SelectChannel(e, l, fd).0;
    if fd >= 0 { SlotOfIsExact(l.tab, fd); }
    assert Distinct(r.tab) by {
      assert forall k :: InUse(r.tab, k) ==> InUse(l.tab, k) && FdAt(r.tab, k) == FdAt(l.tab, k);
    }
  }

  /** Closing frees the slot of the descriptor and no other. */
  lemma CloseKeepsTable(l: Lib, fd: int)
    requires TableOk(l.tab)
    ensures
      var r := CloseChannel(l, fd);
      && TableOk(r.tab)
      && (fd >= 0 ==> !Names(r.tab, fd))
      && (fd >= 0 ==> forall k :: InUse(l.tab, k) && FdAt(l.tab, k) != fd ==> r.tab.chans[k] == l.tab.chans[k])
  {
    hide Names;
    var r := CloseChannel(l, fd);
    assert forall k :: InUse(r.tab, k) ==> InUse(l.tab, k) && r.tab.chans[k] == l.tab.chans[k];
    if fd >= 0 { ClosedIsGone(l, fd); }
  }

  lemma ClosedIsGone(l: Lib, fd: int)
    requires TableOk(l.tab) && fd >= 0
    ensures !Names(CloseChannel(l, fd).tab, fd)
  {
    var r, s := CloseChannel(l, fd), SlotOf(l.tab.chans, fd, 0);
    SlotOfIsExact(l.tab, fd);
    assert s.Some? ==> InUse(l.tab, s.value) && FdAt(l.tab, s.value) == fd;
    forall k | InUse(r.tab, k) ensures FdAt(r.tab, k) != fd {
      assert InUse(l.tab, k) && FdAt(l.tab, k) == FdAt(r.tab, k);
    }
  }

  datatype TableCall = OpenOne(stamp: real) | SelectOne(fd: int) | CloseOne(fd: int)

  function Serve(e: Env, l: Lib, c: TableCall): Lib {
    match c
    case OpenOne(stamp) => OpenChannel(e, l, stamp).0
    case SelectOne(fd) => SelectChannel(e, l, fd).0
    case CloseOne(fd) => CloseChannel(l, fd)
  }

  function ServeAll(e: Env, l: Lib, cs: seq<TableCall>): Lib
    decreases |cs|
  {
    if cs == [] then l else ServeAll(e, Serve(e, l, cs[0]), cs[1..])
  }

  /** Any sequence of open, select and close calls keeps the table in order. */
  lemma {:induction false} TableStaysOk(e: Env, l: Lib, cs: seq<TableCall>)
    requires TableOk(l.tab)
    ensures TableOk(ServeAll(e, l, cs).tab)
    decreases |cs|
  {
    hide TableOk, OpenChannel, SelectChannel, CloseChannel;
    if cs != [] {
      match cs[0] {
        case OpenOne(stamp) => OpenKeepsTable(e, l, stamp);
        case SelectOne(fd) => SelectKeepsTable(e, l, fd);
        case CloseOne(fd) => CloseKeepsTable(l, fd);
      }
      TableStaysOk(e, Serve(e, l, cs[0]), cs[1..]);
    }
  }

  // ----- One channel -----

  /** The only channel in use is the one the controller holds, and it is active; with no
      descriptor held, there is none. */
  ghost predicate OneChannel(l: Lib, fd: int) {
    && |l.tab.chans| > 0
    && if fd < 0 then l.tab.active == None && forall k :: 0 <= k < |l.tab.chans| ==> l.tab.chans[k] == None
       else
         && l.tab.active.Some? && InUse(l.tab, l.tab.active.value) && FdAt(l.tab, l.tab.active.value) == fd
         && forall k :: 0 <= k < |l.tab.chans| && k != l.tab.active.value ==> l.tab.chans[k] == None
  }

  lemma OneChannelIsInOrder(l: Lib, fd: int)
    requires OneChannel(l, fd)
    ensures TableOk(l.tab)
    ensures fd >= 0 ==> Names(l.tab, fd) && ActiveChan(l).Some?
    ensures fd < 0 ==> ActiveChan(l) == None
  {
  }

  /** The same channels are open, with the same descriptors, and the same one is active. */
  ghost predicate SameChannels(l: Lib, r: Lib) {
    && |r.tab.chans| == |l.tab.chans| && r.tab.active == l.tab.active
    && (forall k :: 0 <= k < |l.tab.chans| ==> l.tab.chans[k].Some? == r.tab.chans[k].Some?)
    && (forall k :: 0 <= k < |l.tab.chans| && l.tab.chans[k].Some? ==>
       l.tab.chans[k].value.fd == r.tab.chans[k].value.fd)
  }

  lemma SameChannelsOn(l: Lib, m: Lib, r: Lib)
    requires SameChannels(l, m) && SameChannels(m, r)
    ensures SameChannels(l, r)
  {
  }

  lemma SameChannelsKeepsOne(l: Lib, r: Lib, fd: int)
    requires OneChannel(l, fd) && SameChannels(l, r)
    ensures OneChannel(r, fd)
  {
  }

  lemma OpenFromNone(e: Env, l: Lib, stamp: real)
    requires OneChannel(l, -1)
    ensures OneChannel(OpenChannel(e, l, stamp).0, OpenChannel(e, l, stamp).1)
  {
  }

  lemma CloseTheOne(l: Lib, fd: int)
    requires OneChannel(l, fd) && fd >= 0
    ensures OneChannel(CloseChannel(l, fd), -1)
  {
  }

  /** The channel held is found at once; natively selecting it cannot fail. */
  lemma SelectTheOne(e: Env, l: Lib, fd: int)
    requires OneChannel(l, fd) && fd >= 0
    ensures
      var (r, ok) := SelectChannel(e, l, fd);
      r.tab == l.tab && (e.native ==> ok)
  {
  }
}
