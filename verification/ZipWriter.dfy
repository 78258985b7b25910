/** An archive writer after APPNOTE.TXT, to hold the reader against: what this writes, the
    reader reads back. Fields the reader ignores are free. */
module ZipWriter {
  import opened Codec
  import opened Zip

  function Bytes16(n: nat): seq<byte>
    requires n < 0x1_0000
  {
    [n % 0x100, n / 0x100]
  }

  function Bytes32(n: nat): seq<byte>
    requires n < 0x1_0000_0000
  {
    Bytes16(n % 0x1_0000) + Bytes16(n / 0x1_0000)
  }

  /** A member, how it is packed and as what bytes, and everything about it that its headers leave
      open. */
  datatype Member = Member(
    name: seq<byte>, method_: nat, kept: seq<byte>, data: seq<byte>, localExtra: seq<byte>, extra: seq<byte>,
      comment: seq<byte>,
    versions: seq<byte>, times: seq<byte>, attributes: seq<byte>, localFields: seq<byte>)

  predicate Fits(m: Member) {
    && |m.name| < 0x1_0000 && |m.localExtra| < 0x1_0000 && |m.extra| < 0x1_0000 && |m.comment| < 0x1_0000
    && m.method_ < 0x1_0000 && |m.kept| < SIZE_LIMIT && |m.data| < SIZE_LIMIT - 1
    && |m.versions| == 6 && |m.times| == 8 && |m.attributes| == 8 && |m.localFields| == 22
  }

  /** Section 4.3.7. */
  function LocalBytes(m: Member): seq<byte>
    requires Fits(m)
  {
    [0x50, 0x4B, 3, 4] + m.localFields + (Bytes16(|m.name|) + Bytes16(|m.localExtra|)) + (m.name + m.localExtra)
      + m.kept
  }

  function Locals(ms: seq<Member>): seq<byte>
    requires forall m :: m in ms ==> Fits(m)
  {
    if ms == [] then [] else Locals(ms[..|ms| - 1]) + LocalBytes(ms[|ms| - 1])
  }

  /** Section 4.3.12; `local` is where the local header stands. */
  function CentralBytes(m: Member, local: nat): (bs: seq<byte>)
    requires Fits(m) && local < 0x1_0000_0000
    ensures |bs| == CENTRAL_SIZE + |m.name| + |m.extra| + |m.comment|
  {
    [0x50, 0x4B, 1, 2] + m.versions + Bytes16(m.method_) + m.times + (Bytes32(|m.kept|) + Bytes32(|m.data|))
    + (Bytes16(|m.name|) + Bytes16(|m.extra|) + Bytes16(|m.comment|)) + m.attributes + Bytes32(local)
    + m.name + (m.extra + m.comment)
  }

  function Centrals(ms: seq<Member>): seq<byte>
    requires (forall m :: m in ms ==> Fits(m)) && |Locals(ms)| < 0x1_0000_0000
  {
    if ms == [] then []
    else
      var front := ms[..|ms| - 1];
      Centrals(front) + CentralBytes(ms[|ms| - 1], |Locals(front)|)
  }

  /** Section 4.3.16. */
  function EndBytes(count: nat, size: nat, dir: nat, comment: seq<byte>): (bs: seq<byte>)
    requires count < 0x1_0000 && size < 0x1_0000_0000 && dir < 0x1_0000_0000 && |comment| < 0x1_0000
    ensures |bs| == EOCD_SIZE + |comment|
  {
    [0x50, 0x4B, 5, 6] + [0, 0, 0, 0] + Bytes16(count) + Bytes16(count) + Bytes32(size) + Bytes32(dir)
    + Bytes16(|comment|) + comment
  }

  predicate Writable(ms: seq<Member>, comment: seq<byte>) {
    && |ms| < 0x1_0000 && |comment| < 0x1_0000 && (forall m :: m in ms ==> Fits(m))
    && |Locals(ms)| < 0x1_0000_0000 && |Centrals(ms)| < 0x1_0000_0000
  }

  function Write(ms: seq<Member>, comment: seq<byte>): seq<byte>
    requires Writable(ms, comment)
  {
    Locals(ms) + Centrals(ms) + EndBytes(|ms|, |Centrals(ms)|, |Locals(ms)|, comment)
  }

  /** The entries the reader should see. */
  function Entries(ms: seq<Member>): (es: seq<Entry>)
    requires forall m :: m in ms ==> Fits(m)
    ensures |es| == |ms|
  {
    if ms == [] then []
    else
      var front, m := ms[..|ms| - 1], ms[|ms| - 1];
      Entries(front) + [Entry(m.name, m.method_, m.kept, m.data, |Locals(front)|, |m.name|, |m.localExtra|, |m.extra|,
        |m.comment|)]
  }

  // ----- Bytes in their places -----

  predicate At(f: seq<byte>, p: nat, bs: seq<byte>) {
    p + |bs| <= |f| && f[p..p + |bs|] == bs
  }

  lemma AtSplit(f: seq<byte>, p: nat, a: seq<byte>, b: seq<byte>)
    requires At(f, p, a + b)
    ensures At(f, p, a) && At(f, p + |a|, b)
  {
    assert f[p..p + |a|] == f[p..p + |a + b|][..|a|];
    assert f[p + |a|..p + |a| + |b|] == f[p..p + |a + b|][|a|..];
  }

  lemma Word16At(f: seq<byte>, p: nat, n: nat)
    requires n < 0x1_0000 && At(f, p, Bytes16(n))
    ensures LE16(f, p) == n
  {
    assert f[p] == f[p..p + 2][0] && f[p + 1] == f[p..p + 2][1];
  }

  lemma Word32At(f: seq<byte>, p: nat, n: nat)
    requires n < 0x1_0000_0000 && At(f, p, Bytes32(n))
    ensures LE32(f, p) == n
  {
    AtSplit(f, p, Bytes16(n % 0x1_0000), Bytes16(n / 0x1_0000));
    Word16At(f, p, n % 0x1_0000);
    Word16At(f, p + 2, n / 0x1_0000);
  }

  lemma SignatureAt(f: seq<byte>, p: nat, a: byte, b: byte)
    requires At(f, p, [0x50, 0x4B, a, b])
    ensures Signature(f, p, a, b)
  {
    var w := f[p..p + 4];
    assert w[0] == f[p] && w[1] == f[p + 1] && w[2] == f[p + 2] && w[3] == f[p + 3];
  }

  // ----- Each record reads back -----

  lemma LocalReadsBack(f: seq<byte>, p: nat, m: Member, e: Entry)
    requires Fits(m) && At(f, p, LocalBytes(m))
    requires e.local == p && e.kept == m.kept && e.localName == |m.name| && e.localExtra == |m.localExtra|
    ensures LocalAt(f, e)
  {
    hide Bytes16, LE16, Signature;
    var sig, lens, names: seq<byte> :=
      [0x50, 0x4B, 3, 4], Bytes16(|m.name|) + Bytes16(|m.localExtra|), m.name + m.localExtra;
    assert |Bytes16(|m.name|)| == 2 && |Bytes16(|m.localExtra|)| == 2 by { Two(|m.name|); Two(|m.localExtra|); }
    AtSplit(f, p, sig + m.localFields + lens + names, m.kept);
    AtSplit(f, p, sig + m.localFields + lens, names);
    AtSplit(f, p, sig + m.localFields, lens);
    AtSplit(f, p, sig, m.localFields);
    AtSplit(f, p + 26, Bytes16(|m.name|), Bytes16(|m.localExtra|));
    SignatureAt(f, p, 3, 4);
    Word16At(f, p + 26, |m.name|);
    Word16At(f, p + 28, |m.localExtra|);
  }

  lemma Two(n: nat)
    requires n < 0x1_0000
    ensures |Bytes16(n)| == 2
  {
  }

  lemma Four(n: nat)
    requires n < 0x1_0000_0000
    ensures |Bytes32(n)| == 4
  {
  }

  lemma CentralReadsBack(f: seq<byte>, p: nat, m: Member, e: Entry)
    requires Fits(m) && e.local < 0x1_0000_0000 && At(f, p, CentralBytes(m, e.local))
    requires e.name == m.name && e.method_ == m.method_ && e.kept == m.kept && e.data == m.data
    requires e.extra == |m.extra| && e.comment == |m.comment|
    ensures CentralAt(f, p, e)
  {
    hide Bytes16, Bytes32, LE16, LE32, Signature;
    var sig: seq<byte>, n, x, c, s, u :=
      [0x50, 0x4B, 1, 2], Bytes16(|m.name|), Bytes16(|m.extra|), Bytes16(|m.comment|), Bytes32(|m.kept|),
      Bytes32(|m.data|);
    Two(m.method_); Two(|m.name|); Two(|m.extra|); Two(|m.comment|); Four(|m.kept|); Four(|m.data|); Four(e.local);
    var a := sig + m.versions;
    var b := a + Bytes16(m.method_);
    var d := b + m.times;
    var g := d + (s + u);
    var h := g + (n + x + c);
    var i := h + m.attributes;
    var j := i + Bytes32(e.local);
    AtSplit(f, p, j + m.name, m.extra + m.comment);
    AtSplit(f, p, j, m.name);
    AtSplit(f, p, i, Bytes32(e.local));
    AtSplit(f, p, h, m.attributes);
    AtSplit(f, p, g, n + x + c);
    AtSplit(f, p, d, s + u);
    AtSplit(f, p, b, m.times);
    AtSplit(f, p, a, Bytes16(m.method_));
    AtSplit(f, p, sig, m.versions);
    AtSplit(f, p + 20, s, u);
    AtSplit(f, p + 28, n + x, c);
    AtSplit(f, p + 28, n, x);
    SignatureAt(f, p, 1, 2);
    Word16At(f, p + 10, m.method_);
    Word32At(f, p + 20, |m.kept|);
    Word32At(f, p + 24, |m.data|);
    Word16At(f, p + 28, |m.name|);
    Word16At(f, p + 30, |m.extra|);
    Word16At(f, p + 32, |m.comment|);
    Word32At(f, p + 42, e.local);
  }

  lemma EndReadsBack(f: seq<byte>, p: nat, count: nat, size: nat, dir: nat, comment: seq<byte>)
    requires count < 0x1_0000 && size < 0x1_0000_0000 && dir < 0x1_0000_0000 && |comment| < 0x1_0000
    requires At(f, p, EndBytes(count, size, dir, comment))
    ensures Signature(f, p, 5, 6) && LE16(f, p + 10) == count && LE32(f, p + 16) == dir
  {
    hide Bytes16, Bytes32, LE16, LE32, Signature;
    Two(count); Two(|comment|); Four(size); Four(dir);
    var sig: seq<byte>, n := [0x50, 0x4B, 5, 6], Bytes16(count);
    var a: seq<byte> := sig + [0, 0, 0, 0];
    var b := a + n + n;
    AtSplit(f, p, b + Bytes32(size) + Bytes32(dir) + Bytes16(|comment|), comment);
    AtSplit(f, p, b + Bytes32(size) + Bytes32(dir), Bytes16(|comment|));
    AtSplit(f, p, b + Bytes32(size), Bytes32(dir));
    AtSplit(f, p, b, Bytes32(size));
    AtSplit(f, p, a + n, n);
    AtSplit(f, p, a, n);
    AtSplit(f, p, sig, [0, 0, 0, 0]);
    SignatureAt(f, p, 5, 6);
    Word16At(f, p + 10, count);
    Word32At(f, p + 16, dir);
  }

  // ----- Main result: what is written is read back -----

  function EntryOf(ms: seq<Member>, i: nat): Entry
    requires i < |ms| && forall m :: m in ms ==> Fits(m)
  {
    var m := ms[i];
    Entry(m.name, m.method_, m.kept, m.data, |Locals(ms[..i])|, |m.name|, |m.localExtra|, |m.extra|, |m.comment|)
  }

  lemma {:induction false} EntriesAt(ms: seq<Member>, i: nat)
    requires (forall m :: m in ms ==> Fits(m)) && i < |ms|
    ensures Entries(ms)[..i] == Entries(ms[..i]) && Entries(ms)[i] == EntryOf(ms, i)
    decreases |ms|
  {
    hide Locals;
    var front := ms[..|ms| - 1];
    if i < |ms| - 1 {
      EntriesAt(front, i);
      assert front[..i] == ms[..i];
    }
  }

  lemma {:induction false} LocalsPlaced(f: seq<byte>, ms: seq<Member>, i: nat)
    requires (forall m :: m in ms ==> Fits(m)) && i < |ms| && At(f, 0, Locals(ms))
    ensures At(f, |Locals(ms[..i])|, LocalBytes(ms[i]))
    decreases |ms|
  {
    hide LocalBytes, At;
    var front := ms[..|ms| - 1];
    AtSplit(f, 0, Locals(front), LocalBytes(ms[|ms| - 1]));
    if i < |ms| - 1 {
      LocalsPlaced(f, front, i);
      assert front[..i] == ms[..i];
    }
  }

  lemma {:induction false} LocalsGrow(ms: seq<Member>, i: nat)
    requires (forall m :: m in ms ==> Fits(m)) && i <= |ms|
    ensures |Locals(ms[..i])| <= |Locals(ms)|
    decreases |ms|
  {
    hide LocalBytes;
    if i < |ms| {
      LocalsGrow(ms[..|ms| - 1], i);
      assert ms[..|ms| - 1][..i] == ms[..i];
    } else {
      assert ms[..i] == ms;
    }
  }

  lemma {:induction false} CentralsPlaced(f: seq<byte>, dir: nat, ms: seq<Member>, i: nat)
    requires (forall m :: m in ms ==> Fits(m)) && |Locals(ms)| < 0x1_0000_0000
    requires i < |ms| && At(f, dir, Centrals(ms))
    ensures |Locals(ms[..i])| < 0x1_0000_0000
    ensures At(f, dir + |Centrals(ms[..i])|, CentralBytes(ms[i], |Locals(ms[..i])|))
    decreases |ms|
  {
    hide CentralBytes, Locals, At;
    var front := ms[..|ms| - 1];
    LocalsGrow(ms, |ms| - 1);
    LocalsGrow(ms, i);
    AtSplit(f, dir, Centrals(front), CentralBytes(ms[|ms| - 1], |Locals(front)|));
    if i < |ms| - 1 {
      CentralsPlaced(f, dir, front, i);
      assert front[..i] == ms[..i];
    }
  }

  lemma {:induction false} DirectorySizeIs(ms: seq<Member>)
    requires (forall m :: m in ms ==> Fits(m)) && |Locals(ms)| < 0x1_0000_0000
    ensures DirectorySize(Entries(ms)) == |Centrals(ms)|
    decreases |ms|
  {
    hide Locals;
    if ms != [] {
      var front, n := ms[..|ms| - 1], |ms| - 1;
      LocalsGrow(ms, n);
      DirectorySizeIs(front);
      EntriesAt(ms, n);
      assert Entries(ms)[..n] == Entries(front);
    }
  }

  lemma EntryReadsBack(f: seq<byte>, ms: seq<Member>, comment: seq<byte>, i: nat)
    requires Writable(ms, comment) && f == Write(ms, comment) && i < |ms|
    ensures CentralAt(f, |Locals(ms)| + DirectorySize(Entries(ms)[..i]), Entries(ms)[i]) && LocalAt(f, Entries(ms)[i])
  {
    hide Locals, Centrals, CentralBytes, LocalBytes, EndBytes, Entries, CentralAt, LocalAt, DirectorySize, At;
    Placed(f, ms, comment);
    EntriesAt(ms, i);
    LocalsGrow(ms, i);
    LocalsPlaced(f, ms, i);
    LocalReadsBack(f, |Locals(ms[..i])|, ms[i], Entries(ms)[i]);
    CentralsPlaced(f, |Locals(ms)|, ms, i);
    DirectorySizeIs(ms[..i]);
    CentralReadsBack(f, |Locals(ms)| + |Centrals(ms[..i])|, ms[i], Entries(ms)[i]);
  }

  lemma Placed(f: seq<byte>, ms: seq<Member>, comment: seq<byte>)
    requires Writable(ms, comment) && f == Write(ms, comment)
    ensures At(f, 0, Locals(ms)) && At(f, |Locals(ms)|, Centrals(ms))
    ensures At(f, |Locals(ms) + Centrals(ms)|, EndBytes(|ms|, |Centrals(ms)|, |Locals(ms)|, comment))
  {
    hide Locals, Centrals, EndBytes;
  }

  /** The comment holds nothing that looks like another end record. */
  ghost predicate PlainComment(f: seq<byte>, end: nat) {
    forall k :: end < k <= |f| - EOCD_SIZE ==> !Signature(f, k, 5, 6)
  }

  lemma WriteIsArchive(ms: seq<Member>, comment: seq<byte>)
    requires Writable(ms, comment) && PlainComment(Write(ms, comment), |Locals(ms) + Centrals(ms)|)
    ensures Archive(Write(ms, comment), Entries(ms), |Locals(ms)|, |Locals(ms) + Centrals(ms)|)
  {
    hide Locals, Centrals, EndBytes, Entries, CentralAt, LocalAt, DirectorySize, At, Signature, LE16, LE32;
    var f := Write(ms, comment);
    Placed(f, ms, comment);
    EndReadsBack(f, |Locals(ms) + Centrals(ms)|, |ms|, |Centrals(ms)|, |Locals(ms)|, comment);
    forall i | 0 <= i < |ms|
      ensures CentralAt(f, |Locals(ms)| + DirectorySize(Entries(ms)[..i]), Entries(ms)[i]) && LocalAt(f, Entries(ms)[i])
    {
      EntryReadsBack(f, ms, comment, i);
    }
  }

  /** The first member with the name. */
  function First(ms: seq<Member>, name: seq<byte>): Option<Member> {
    if ms == [] then None
    else if First(ms[..|ms| - 1], name).Some? then First(ms[..|ms| - 1], name)
    else if ms[|ms| - 1].name == name then Some(ms[|ms| - 1])
    else None
  }

  lemma {:induction false} LookupAppend(es: seq<Entry>, e: Entry, name: seq<byte>)
    ensures Lookup(es + [e], name) == if Lookup(es, name).Some? then Lookup(es, name)
      else if e.name == name then Some(e) else None
    decreases |es|
  {
    if es == [] {
      assert [e][1..] == [];
    } else {
      assert (es + [e])[1..] == es[1..] + [e];
      LookupAppend(es[1..], e, name);
    }
  }

  lemma {:induction false} LookupIsFirst(ms: seq<Member>, name: seq<byte>)
    requires forall m :: m in ms ==> Fits(m)
    ensures Lookup(Entries(ms), name).Some? == First(ms, name).Some?
    ensures First(ms, name).Some? ==>
              var e, m := Lookup(Entries(ms), name).value, First(ms, name).value;
              e.method_ == m.method_ && e.kept == m.kept && e.data == m.data
    decreases |ms|
  {
    hide Locals;
    if ms != [] {
      var front, m := ms[..|ms| - 1], ms[|ms| - 1];
      LookupIsFirst(front, name);
      LookupAppend(Entries(front), Entries(ms)[|ms| - 1], name);
    }
  }

  /** A member's bytes are its data, or they are deflated, and inflate to it. */
  predicate Packs(m: Member, o: Outside) {
    (m.method_ == 0 && m.kept == m.data) || (m.method_ == 8 && o.inflate(m.kept, |m.data|) == Some(m.data))
  }

  lemma {:induction false} EntriesPacked(ms: seq<Member>, o: Outside)
    requires forall m :: m in ms ==> Fits(m) && Packs(m, o)
    ensures forall e :: e in Entries(ms) ==> Packed(e, o)
    decreases |ms|
  {
    hide Locals;
    if ms != [] {
      EntriesPacked(ms[..|ms| - 1], o);
      assert Packs(ms[|ms| - 1], o);
    }
  }

  /** Round trip: from a written archive, its members stored or deflated as may be, the reader gets
      the data of the first member with the name, and nothing for a name that was not written. */
  lemma ReadsWhatWasWritten(ms: seq<Member>, comment: seq<byte>, name: seq<byte>, o: Outside)
    requires Writable(ms, comment) && forall m :: m in ms ==> Packs(m, o)
    requires PlainComment(Write(ms, comment), |Locals(ms) + Centrals(ms)|)
    requires |name| <= NAME_ROOM
    ensures var m := First(ms, name);
            Extract(Write(ms, comment), name, o) == if m == None then Nothing else Bytes(m.value.data)
  {
    hide Locals, Centrals, EndBytes, Entries, Write, Archive, Extract, Lookup, First, Packed, Fits, Packs;
    WriteIsArchive(ms, comment);
    EntriesPacked(ms, o);
    ExtractIsLookup(Write(ms, comment), Entries(ms), |Locals(ms)|, |Locals(ms) + Centrals(ms)|, name, o);
    LookupIsFirst(ms, name);
    FirstPacks(ms, name, o);
  }

  lemma {:induction false} FirstPacks(ms: seq<Member>, name: seq<byte>, o: Outside)
    requires forall m :: m in ms ==> Packs(m, o)
    ensures First(ms, name).Some? ==>
              var m := First(ms, name).value;
              m.method_ == 0 || (m.method_ == 8 && o.inflate(m.kept, |m.data|) == Some(m.data))
    decreases |ms|
  {
    if ms != [] {
      FirstPacks(ms[..|ms| - 1], name, o);
      assert Packs(ms[|ms| - 1], o);
    }
  }
}
