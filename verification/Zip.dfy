/** The reader that takes a setup file's variable table out of a ZIP archive.

    The layout is that of PKWARE's APPNOTE.TXT: local file headers (section 4.3.7), the
    central directory (4.3.12), the end-of-central-directory record (4.3.16). A file is a
    byte sequence; seeking past its end is allowed, reading there comes up short. The buffers
    an entry is read into and copied to are byte sequences of the sizes allocated, and a copy
    that leaves them is told apart from one that does not. */
module Zip {
  import opened Codec

  const EOCD_SIZE := 22
  const CENTRAL_SIZE := 46
  const LOCAL_SIZE := 30
  const MAX_COMMENT := 65535
  const NAME_ROOM := 511
  const SIZE_LIMIT := 0x1_0000_0000

  function LE16(f: seq<byte>, p: nat): nat
    requires p + 2 <= |f|
  {
    Pair(f[p + 1], f[p])
  }

  function LE32(f: seq<byte>, p: nat): nat
    requires p + 4 <= |f|
  {
    LE16(f, p) + 0x1_0000 * LE16(f, p + 2)
  }

  /** "PK" and two more bytes stand at p. */
  predicate Signature(f: seq<byte>, p: nat, a: byte, b: byte) {
    p + 4 <= |f| && f[p] == 0x50 && f[p + 1] == 0x4B && f[p + 2] == a && f[p + 3] == b
  }

  // ----- What the reader computes -----

  /** The last end-of-directory signature that leaves room for the record and is no farther
      from the end than a comment can push it. */
  function FindEocd(f: seq<byte>, off: int, searchEnd: nat): (r: Option<nat>)
    requires off + EOCD_SIZE <= |f|
    ensures r.Some? ==> r.value + EOCD_SIZE <= |f|
    decreases off
  {
    if off < searchEnd then None
    else if Signature(f, off, 5, 6) then Some(off)
    else FindEocd(f, off - 1, searchEnd)
  }

  function SearchEnd(size: nat): nat {
    if size < EOCD_SIZE + MAX_COMMENT then 0 else size - (EOCD_SIZE + MAX_COMMENT)
  }

  datatype Hit = Hit(method_: nat, comp: nat, uncomp: nat, local: nat)

  /** The first of `count` directory entries from p on that has the name. */
  function ScanDirectory(f: seq<byte>, p: nat, count: nat, name: seq<byte>): Option<Hit>
    decreases count
  {
    if count == 0 || p + CENTRAL_SIZE > |f| || !Signature(f, p, 1, 2) then None
    else
      var nameLen := LE16(f, p + 28);
      var room := if nameLen < NAME_ROOM then nameLen else NAME_ROOM;
      if p + CENTRAL_SIZE + room > |f| then None
      else if nameLen == |name| && f[p + CENTRAL_SIZE..p + CENTRAL_SIZE + room] == name then
        Some(Hit(LE16(f, p + 10), LE32(f, p + 20), LE32(f, p + 24), LE32(f, p + 42)))
      else
        ScanDirectory(f, p + CENTRAL_SIZE + nameLen + LE16(f, p + 30) + LE16(f, p + 32), count - 1, name)
  }

  /** What is not the reader's own: inflating, and what newly allocated memory holds. */
  datatype Outside = Outside(inflate: (seq<byte>, nat) -> Option<seq<byte>>, junk: nat -> byte)

  /** Astray: some access was outside its buffer. */
  datatype Outcome = Nothing | Bytes(data: seq<byte>) | Astray

  function Junk(o: Outside, i: nat): byte { o.junk(i) }

  function Allocated(o: Outside, size: nat): (bs: seq<byte>)
    ensures |bs| == size && forall i :: 0 <= i < size ==> bs[i] == o.junk(i)
  {
    seq(size, i requires 0 <= i < size => Junk(o, i))
  }

  /** The sizes allocated, in 32-bit arithmetic: for the bytes read at least one, for the
      contents one more than there are. */
  function InSize(h: Hit): nat { if h.comp == 0 then 1 else h.comp }
  function OutSize(h: Hit): nat { (h.uncomp + 1) % SIZE_LIMIT }

  /** Bytes i to n - 1 copied one by one and a terminating 0 put after them; None as soon as a
      byte read or written is not in its buffer. */
  function Copy(src: seq<byte>, dst: seq<byte>, i: nat, n: nat): (r: Option<seq<byte>>)
    requires i <= n
    ensures r.Some? ==> |r.value| == |dst| && n < |dst|
    decreases n - i
  {
    if i == n then (if n < |dst| then Some(dst[n := 0]) else None)
    else if i < |src| && i < |dst| then Copy(src, dst[i := src[i]], i + 1, n)
    else None
  }

  /** The first n bytes of dst with data over them. */
  function Overlaid(data: seq<byte>, dst: seq<byte>, n: nat): seq<byte>
    requires n <= |dst|
  {
    seq(n, i requires 0 <= i < n => if i < |data| then data[i] else dst[i])
  }

  function DataStart(f: seq<byte>, local: nat): nat
    requires local + LOCAL_SIZE <= |f|
  {
    local + LOCAL_SIZE + LE16(f, local + 26) + LE16(f, local + 28)
  }

  /** What is in the input buffer once the entry's bytes have been read into it. */
  function Loaded(f: seq<byte>, h: Hit, o: Outside): (src: seq<byte>)
    requires h.local + LOCAL_SIZE <= |f| && (h.comp != 0 ==> DataStart(f, h.local) + h.comp <= |f|)
    ensures |src| == InSize(h)
  {
    if h.comp == 0 then Allocated(o, 1) else f[DataStart(f, h.local)..DataStart(f, h.local) + h.comp]
  }

  function Contents(f: seq<byte>, h: Hit, o: Outside): Outcome {
    if h.local + LOCAL_SIZE > |f| || !Signature(f, h.local, 3, 4) then Nothing
    else if h.comp != 0 && DataStart(f, h.local) + h.comp > |f| then Nothing
    else
      var src, dst := Loaded(f, h, o), Allocated(o, OutSize(h));
      if h.method_ == 0 then
        match Copy(src, dst, 0, h.uncomp)
        case None => Astray
        case Some(out) => Bytes(out[..h.uncomp])
      else if h.method_ == 8 then
        match o.inflate(src[..h.comp], h.uncomp)
        case None => Nothing
        case Some(data) => if h.uncomp < |dst| then Bytes(Overlaid(data, dst, h.uncomp)) else Astray
      else Nothing
  }

  function Extract(f: seq<byte>, name: seq<byte>, o: Outside): Outcome {
    match FindEocd(f, |f| - EOCD_SIZE, SearchEnd(|f|))
    case None => Nothing
    case Some(e) =>
      match ScanDirectory(f, LE32(f, e + 16), LE16(f, e + 10), name)
      case None => Nothing
      case Some(h) => Contents(f, h, o)
  }

  // ----- Well-formed archives -----

  /** A member: its compression method, the bytes kept for it and the data they stand for; where
      its local header is, how long that header's own name and extra field are, and the lengths of
      what follows its directory entry's name. */
  datatype Entry = Entry(name: seq<byte>, method_: nat, kept: seq<byte>, data: seq<byte>, local: nat, localName: nat,
    localExtra: nat, extra: nat, comment: nat)

  function RecordSize(e: Entry): nat { CENTRAL_SIZE + |e.name| + e.extra + e.comment }

  function DirectorySize(es: seq<Entry>): nat {
    if es == [] then 0 else DirectorySize(es[..|es| - 1]) + RecordSize(es[|es| - 1])
  }

  /** Section 4.3.7: the local header of e, its name and extra field, then its bytes. */
  predicate LocalAt(f: seq<byte>, e: Entry) {
    var start := e.local + LOCAL_SIZE + e.localName + e.localExtra;
    && Signature(f, e.local, 3, 4) && start + |e.kept| <= |f|
    && LE16(f, e.local + 26) == e.localName && LE16(f, e.local + 28) == e.localExtra
    && f[start..start + |e.kept|] == e.kept
  }

  /** Section 4.3.12: the directory entry of e at p. */
  predicate CentralAt(f: seq<byte>, p: nat, e: Entry) {
    && p + RecordSize(e) <= |f| && Signature(f, p, 1, 2)
    && LE16(f, p + 10) == e.method_ && LE32(f, p + 20) == |e.kept| && LE32(f, p + 24) == |e.data| < SIZE_LIMIT - 1
    && LE16(f, p + 28) == |e.name| && LE16(f, p + 30) == e.extra && LE16(f, p + 32) == e.comment
    && LE32(f, p + 42) == e.local
    && f[p + CENTRAL_SIZE..p + CENTRAL_SIZE + |e.name|] == e.name
  }

  /** Section 4.3.16: the directory starts at `dir`, lists es in this order, and its end
      record is at `end` with the rest of the file for a comment. After it no four bytes
      that could pass for such a record's signature. */
  ghost predicate Archive(f: seq<byte>, es: seq<Entry>, dir: nat, end: nat) {
    && end + EOCD_SIZE <= |f| && |f| - end - EOCD_SIZE <= MAX_COMMENT
    && Signature(f, end, 5, 6) && LE16(f, end + 10) == |es| && LE32(f, end + 16) == dir
    && (forall k :: end < k <= |f| - EOCD_SIZE ==> !Signature(f, k, 5, 6))
    && (forall i :: 0 <= i < |es| ==> CentralAt(f, dir + DirectorySize(es[..i]), es[i]) && LocalAt(f, es[i]))
  }

  /** What the archive is for: the first entry with the name. */
  function Lookup(es: seq<Entry>, name: seq<byte>): (r: Option<Entry>)
    ensures r.Some? ==> r.value in es && r.value.name == name
    ensures r == None ==> forall e :: e in es ==> e.name != name
  {
    if es == [] then None
    else if es[0].name == name then Some(es[0])
    else Lookup(es[1..], name)
  }

  // ----- Main result -----

  lemma {:induction false} EocdFound(f: seq<byte>, off: int, searchEnd: nat, end: nat)
    requires off + EOCD_SIZE <= |f| && searchEnd <= end <= off && Signature(f, end, 5, 6)
    requires forall k :: end < k <= off ==> !Signature(f, k, 5, 6)
    ensures FindEocd(f, off, searchEnd) == Some(end)
    decreases off
  {
    if off > end { EocdFound(f, off - 1, searchEnd, end); }
  }

  lemma DirectorySizeStep(es: seq<Entry>, i: nat)
    requires i < |es|
    ensures DirectorySize(es[..i + 1]) == DirectorySize(es[..i]) + RecordSize(es[i])
  {
    assert es[..i + 1][..i] == es[..i];
  }

  function AsHit(e: Option<Entry>): Option<Hit> {
    if e == None then None else Some(Hit(e.value.method_, |e.value.kept|, |e.value.data|, e.value.local))
  }

  lemma ScanStep(f: seq<byte>, p: nat, e: Entry, count: nat, name: seq<byte>)
    requires CentralAt(f, p, e) && count > 0 && |name| <= NAME_ROOM
    ensures ScanDirectory(f, p, count, name)
         == if e.name == name then AsHit(Some(e)) else ScanDirectory(f, p + RecordSize(e), count - 1, name)
  {
    hide LE16, LE32;
  }

  /** The scan, started at entry i, finds what a lookup in the remaining entries finds. */
  lemma {:induction false} ScanFinds(f: seq<byte>, es: seq<Entry>, dir: nat, end: nat, name: seq<byte>, i: nat)
    requires Archive(f, es, dir, end) && i <= |es| && |name| <= NAME_ROOM
    ensures ScanDirectory(f, dir + DirectorySize(es[..i]), |es| - i, name) == AsHit(Lookup(es[i..], name))
    decreases |es| - i
  {
    hide LE16, LE32, Signature, CentralAt, LocalAt, RecordSize, ScanDirectory, DirectorySize;
    if i < |es| {
      var p := dir + DirectorySize(es[..i]);
      ScanStep(f, p, es[i], |es| - i, name);
      DirectorySizeStep(es, i);
      ScanFinds(f, es, dir, end, name, i + 1);
      assert es[i..][1..] == es[i + 1..];
    } else {
      ScanNothing(f, dir + DirectorySize(es[..i]), name);
    }
  }

  lemma ScanNothing(f: seq<byte>, p: nat, name: seq<byte>)
    ensures ScanDirectory(f, p, 0, name) == None
  {
  }

  /** An entry's bytes are its data (method 0), or inflate to it if they inflate at all (method 8). */
  predicate Packed(e: Entry, o: Outside) {
    && (e.method_ == 0 ==> e.kept == e.data)
    && (e.method_ == 8 ==> o.inflate(e.kept, |e.data|) in [None, Some(e.data)])
  }

  /** What there is to be had of an entry: nothing of one packed some other way, or that does not
      inflate. */
  function Had(e: Entry, o: Outside): Outcome {
    if e.method_ == 0 || (e.method_ == 8 && o.inflate(e.kept, |e.data|).Some?) then Bytes(e.data) else Nothing
  }

  /** From every well-formed archive the reader extracts exactly the data of the first directory
      entry with the given name, stored or deflated, and nothing if there is none. */
  lemma ExtractIsLookup(f: seq<byte>, es: seq<Entry>, dir: nat, end: nat, name: seq<byte>, o: Outside)
    requires Archive(f, es, dir, end) && |name| <= NAME_ROOM && forall e :: e in es ==> Packed(e, o)
    ensures var e := Lookup(es, name);
            Extract(f, name, o) == if e == None then Nothing else Had(e.value, o)
  {
    hide LE16, LE32, Signature, CentralAt, LocalAt, ScanDirectory, Contents, FindEocd, Lookup, DirectorySize, Packed,
      Had;
    NothingBefore();
    EocdFound(f, |f| - EOCD_SIZE, SearchEnd(|f|), end);
    ScanFinds(f, es, dir, end, name, 0);
    assert es[..0] == [] && es[0..] == es;
    assert dir + DirectorySize([]) == dir;
    var e := Lookup(es, name);
    if e.Some? {
      ListedFits(f, es, dir, end, e.value);
      ContentsOfEntry(f, e.value, o);
    }
  }

  lemma ListedFits(f: seq<byte>, es: seq<Entry>, dir: nat, end: nat, e: Entry)
    requires Archive(f, es, dir, end) && e in es
    ensures LocalAt(f, e) && |e.data| < SIZE_LIMIT - 1
  {
    hide LE16, LE32, Signature, LocalAt, DirectorySize;
    var i :| 0 <= i < |es| && es[i] == e;
    assert CentralAt(f, dir + DirectorySize(es[..i]), es[i]);
  }

  lemma NothingBefore()
    ensures DirectorySize([]) == 0
  {
  }

  lemma ContentsOfEntry(f: seq<byte>, e: Entry, o: Outside)
    requires LocalAt(f, e) && |e.data| < SIZE_LIMIT - 1 && Packed(e, o)
    ensures Contents(f, Hit(e.method_, |e.kept|, |e.data|, e.local), o) == Had(e, o)
  {
    hide LE16, LE32, Signature, Copy, Overlaid;
    var h := Hit(e.method_, |e.kept|, |e.data|, e.local);
    var src, dst := Loaded(f, h, o), Allocated(o, OutSize(h));
    assert src[..h.comp] == e.kept;
    if h.method_ == 0 {
      SizesIff(h);
      CopyIff(src, dst, 0, h.uncomp);
      assert Copy(src, dst, 0, h.uncomp).value[..h.uncomp] == e.data;
    } else if h.method_ == 8 && o.inflate(e.kept, |e.data|).Some? {
      OverlaidWhole(e.data, dst);
    }
  }

  lemma OverlaidWhole(data: seq<byte>, dst: seq<byte>)
    requires |data| <= |dst|
    ensures Overlaid(data, dst, |data|) == data
  {
  }

  // ----- Main result: when the copy stays inside its buffers -----

  predicate Inside(i: nat, size: nat) { i < size }

  /** Every byte the copy of n bytes and its terminating byte touch is in its buffer. */
  ghost predicate StaysInside(src: nat, dst: nat, n: nat) {
    (forall i :: 0 <= i < n ==> Inside(i, src) && Inside(i, dst)) && Inside(n, dst)
  }

  lemma {:induction false} CopyIff(src: seq<byte>, dst: seq<byte>, i: nat, n: nat)
    requires i <= n
    ensures Copy(src, dst, i, n).Some?
       <==> (forall k :: i <= k < n ==> Inside(k, |src|) && Inside(k, |dst|)) && Inside(n, |dst|)
    ensures Copy(src, dst, i, n).Some? ==>
              var r := Copy(src, dst, i, n).value;
              && (forall k :: 0 <= k < i ==> r[k] == dst[k]) && r[n] == 0
              && (forall k :: i <= k < n ==> Inside(k, |src|) && r[k] == src[k])
    decreases n - i
  {
    if i < n {
      if i < |src| && i < |dst| {
        CopyIff(src, dst[i := src[i]], i + 1, n);
      } else { assert !(Inside(i, |src|) && Inside(i, |dst|)); }
    }
  }

  lemma SizesIff(h: Hit)
    requires h.uncomp < SIZE_LIMIT
    ensures StaysInside(InSize(h), OutSize(h), h.uncomp)
       <==> h.uncomp <= (if h.comp == 0 then 1 else h.comp) && h.uncomp != SIZE_LIMIT - 1
  {
    if h.uncomp > InSize(h) { assert !Inside(InSize(h), InSize(h)); }
  }

  /** Reading a stored entry whose bytes are all there stays inside the buffers that were
      allocated for it if and only if no more bytes are announced than stored - or one, with
      none stored - and not 2^32 - 1, for which the size of the second buffer wraps to 0. What
      is read then are the first bytes stored; in the odd case of one byte announced and none
      stored it is a byte of memory that nothing was written to. */
  lemma StoredIsReadIff(f: seq<byte>, h: Hit, o: Outside)
    requires h.method_ == 0 && h.uncomp < SIZE_LIMIT
    requires h.local + LOCAL_SIZE <= |f| && Signature(f, h.local, 3, 4)
    requires h.comp != 0 ==> DataStart(f, h.local) + h.comp <= |f|
    ensures Contents(f, h, o) != Astray <==> StaysInside(InSize(h), OutSize(h), h.uncomp)
    ensures Contents(f, h, o) != Astray
       <==> h.uncomp <= (if h.comp == 0 then 1 else h.comp) && h.uncomp != SIZE_LIMIT - 1
    ensures Contents(f, h, o) != Astray ==>
              Contents(f, h, o) == Bytes(if h.uncomp <= h.comp then Stored(f, h)[..h.uncomp] else [o.junk(0)])
  {
    hide LE16, Signature, Copy;
    var src, dst := Loaded(f, h, o), Allocated(o, OutSize(h));
    SizesIff(h);
    CopyIff(src, dst, 0, h.uncomp);
    var r := Copy(src, dst, 0, h.uncomp);
    if r.Some? {
      assert r.value[..h.uncomp] == src[..h.uncomp];
      if h.comp == 0 { assert src[..h.uncomp] == if h.uncomp == 0 then [] else [o.junk(0)]; }
    }
  }

  /** An entry that has to be inflated is not read if it does not inflate. If it does, writing the
      terminating byte stays inside the buffer if and only if not 2^32 - 1 bytes are announced; read
      are then as many as are announced, those of the data first, and after them, should it have
      been shorter, memory that nothing was written to. No other method is read at all. */
  lemma DeflatedIsReadIff(f: seq<byte>, h: Hit, o: Outside)
    requires h.method_ != 0 && h.uncomp < SIZE_LIMIT
    requires h.local + LOCAL_SIZE <= |f| && Signature(f, h.local, 3, 4)
    requires h.comp != 0 ==> DataStart(f, h.local) + h.comp <= |f|
    ensures
      var r, got := Contents(f, h, o), o.inflate(Stored(f, h), h.uncomp);
      if h.method_ != 8 || got == None then r == Nothing
      else if h.uncomp == SIZE_LIMIT - 1 then r == Astray
      else && r.Bytes? && |r.data| == h.uncomp
           && forall i :: 0 <= i < h.uncomp ==> r.data[i] == if i < |got.value| then got.value[i] else o.junk(i)
  {
    hide LE16, Signature;
    assert Loaded(f, h, o)[..h.comp] == Stored(f, h);
  }

  /** The entry's bytes in the file; none may be cut off. */
  function Stored(f: seq<byte>, h: Hit): (bs: seq<byte>)
    requires h.local + LOCAL_SIZE <= |f| && (h.comp != 0 ==> DataStart(f, h.local) + h.comp <= |f|)
    ensures |bs| == h.comp
  {
    if h.comp == 0 then [] else f[DataStart(f, h.local)..DataStart(f, h.local) + h.comp]
  }

  /** A file of one entry, named "a", that stores one byte, with any two sizes in its directory. */
  function SampleByte(comp: byte, uncomp: byte, i: nat): byte {
    if i == 0 || i == 32 || i == 79 then 0x50
    else if i == 1 || i == 33 || i == 80 then 0x4B
    else if i == 2 then 3
    else if i == 3 then 4
    else if i == 34 then 1
    else if i == 35 then 2
    else if i == 81 then 5
    else if i == 82 then 6
    else if i == 26 || i == 60 || i == 89 then 1  // lengths of the names, number of entries
    else if i == 30 || i == 78 then 0x61
    else if i == 31 then 0x7A                     // the byte stored
    else if i == 52 then comp
    else if i == 56 then uncomp
    else if i == 95 then 32                       // where the directory starts
    else 0
  }

  function Sample(comp: byte, uncomp: byte): (f: seq<byte>)
    ensures |f| == 101 && forall i :: 0 <= i < 101 ==> f[i] == SampleByte(comp, uncomp, i)
  {
    seq(101, i requires 0 <= i < 101 => SampleByte(comp, uncomp, i))
  }

  lemma {:induction false} SampleEnds(comp: byte, uncomp: byte)
    ensures FindEocd(Sample(comp, uncomp), 79, 0) == Some(79)
    ensures LE32(Sample(comp, uncomp), 95) == 32 && LE16(Sample(comp, uncomp), 89) == 1
  {
    hide Sample;
    assert Signature(Sample(comp, uncomp), 79, 5, 6);
  }

  lemma SampleLists(comp: byte, uncomp: byte)
    ensures ScanDirectory(Sample(comp, uncomp), 32, 1, [0x61]) == Some(Hit(0, comp, uncomp, 0))
  {
    hide Sample, LE16, LE32;
    var f := Sample(comp, uncomp);
    assert Signature(f, 32, 1, 2);
    SampleWords(f, comp, uncomp);
    assert f[78..79] == [0x61];
  }

  lemma SampleWords(f: seq<byte>, comp: byte, uncomp: byte)
    requires f == Sample(comp, uncomp)
    ensures LE16(f, 60) == 1 && LE16(f, 42) == 0
    ensures LE32(f, 52) == comp && LE32(f, 56) == uncomp && LE32(f, 74) == 0
  {
    hide Sample;
  }

  lemma SampleIsFound(comp: byte, uncomp: byte, o: Outside)
    ensures Extract(Sample(comp, uncomp), [0x61], o) == Contents(Sample(comp, uncomp), Hit(0, comp, uncomp, 0), o)
  {
    hide Contents, Sample, ScanDirectory, FindEocd, LE16, LE32;
    SampleEnds(comp, uncomp);
    SampleLists(comp, uncomp);
    assert |Sample(comp, uncomp)| == 101;
  }

  /** From such a file the reader does copy past its buffer if two bytes are announced ... */
  lemma OverlongIsReached(o: Outside)
    ensures Extract(Sample(1, 2), [0x61], o) == Astray
  {
    hide Contents, Extract, Sample;
    SampleIsFound(1, 2, o);
    SampleStarts(1, 2);
    StoredIsReadIff(Sample(1, 2), Hit(0, 1, 2, 0), o);
  }

  /** ... and returns a byte that was never written if one is announced and none stored. */
  lemma IndeterminateIsReached(o: Outside)
    ensures Extract(Sample(0, 1), [0x61], o) == Bytes([o.junk(0)])
  {
    hide Contents, Extract, Sample;
    SampleIsFound(0, 1, o);
    SampleStarts(0, 1);
    StoredIsReadIff(Sample(0, 1), Hit(0, 0, 1, 0), o);
  }

  lemma SampleStarts(comp: byte, uncomp: byte)
    ensures var f := Sample(comp, uncomp);
            |f| == 101 && Signature(f, 0, 3, 4) && DataStart(f, 0) == 31
  {
  }

  /** A name the reader's buffer cannot hold is never found, whatever the file. */
  lemma {:induction false} LongNamesAreNotFound(f: seq<byte>, p: nat, count: nat, name: seq<byte>)
    requires |name| > NAME_ROOM
    ensures ScanDirectory(f, p, count, name) == None
    decreases count
  {
    if count != 0 && p + CENTRAL_SIZE <= |f| && Signature(f, p, 1, 2) {
      LongNamesAreNotFound(f, p + CENTRAL_SIZE + LE16(f, p + 28) + LE16(f, p + 30) + LE16(f, p + 32), count - 1, name);
    }
  }

  // ----- The driver's code -----

  method ZipExtractFile(f: seq<byte>, name: seq<byte>, o: Outside) returns (out: Outcome)
    ensures out == Extract(f, name, o)
  {
    hide LE16, LE32, Signature, ScanDirectory, Contents;
    var searchEnd := SearchEnd(|f|);
    var off := |f| - EOCD_SIZE;
    while off >= searchEnd && !Signature(f, off, 5, 6)
      invariant off + EOCD_SIZE <= |f|
      invariant FindEocd(f, |f| - EOCD_SIZE, searchEnd) == FindEocd(f, off, searchEnd)
    {
      off := off - 1;
    }
    if off < searchEnd { return Nothing; }
    var count, pos := LE16(f, off + 10), LE32(f, off + 16);
    var hit := FindEntry(f, pos, count, name);
    if hit == None { return Nothing; }
    out := ReadEntry(f, hit.value, o);
  }

  method FindEntry(f: seq<byte>, start: nat, count: nat, name: seq<byte>) returns (hit: Option<Hit>)
    ensures hit == ScanDirectory(f, start, count, name)
  {
    var pos: nat, i := start, 0;
    while i < count
      invariant i <= count
      invariant ScanDirectory(f, start, count, name) == ScanDirectory(f, pos, count - i, name)
    {
      if pos + CENTRAL_SIZE > |f| { return None; }
      if !Signature(f, pos, 1, 2) { return None; }
      var nameLen, extraLen, commentLen := LE16(f, pos + 28), LE16(f, pos + 30), LE16(f, pos + 32);
      var room := if nameLen < NAME_ROOM then nameLen else NAME_ROOM;
      if pos + CENTRAL_SIZE + room > |f| { return None; }
      if nameLen == |name| && f[pos + CENTRAL_SIZE..pos + CENTRAL_SIZE + room] == name {
        return Some(Hit(LE16(f, pos + 10), LE32(f, pos + 20), LE32(f, pos + 24), LE32(f, pos + 42)));
      }
      pos := pos + CENTRAL_SIZE + nameLen + extraLen + commentLen;
      i := i + 1;
    }
    hit := None;
  }

  method ReadEntry(f: seq<byte>, h: Hit, o: Outside) returns (out: Outcome)
    ensures out == Contents(f, h, o)
  {
    hide LE16, Signature, Copy;
    if h.local + LOCAL_SIZE > |f| || !Signature(f, h.local, 3, 4) { return Nothing; }
    var start := DataStart(f, h.local);
    if h.comp != 0 && start + h.comp > |f| { return Nothing; }
    var compBuf := new byte[InSize(h)](i => Junk(o, i));
    for i := 0 to h.comp
      invariant forall k :: 0 <= k < i ==> compBuf[k] == f[start + k]
      invariant h.comp == 0 ==> compBuf[..] == Allocated(o, 1)
    {
      compBuf[i] := f[start + i];
    }
    assert compBuf[..] == Loaded(f, h, o);
    var outBuf := new byte[OutSize(h)](i => Junk(o, i));
    assert outBuf[..] == Allocated(o, OutSize(h));
    if h.method_ == 0 {
      var ok := CopyStored(compBuf, outBuf, h.uncomp);
      if !ok { return Astray; }
      out := Bytes(outBuf[..h.uncomp]);
    } else if h.method_ == 8 {
      var data := o.inflate(compBuf[..h.comp], h.uncomp);
      if data == None { return Nothing; }
      if h.uncomp >= outBuf.Length { return Astray; }
      out := Bytes(Overlaid(data.value, outBuf[..], h.uncomp));
    } else {
      out := Nothing;
    }
  }

  /** Byte by byte, as long as the bytes are there to be read and written. */
  method CopyStored(src: array<byte>, dst: array<byte>, n: nat) returns (ok: bool)
    requires src != dst
    modifies dst
    ensures ok == Copy(src[..], old(dst[..]), 0, n).Some?
    ensures ok ==> dst[..] == Copy(src[..], old(dst[..]), 0, n).value
  {
    var i := 0;
    while i < n
      invariant i <= n && Copy(src[..], old(dst[..]), 0, n) == Copy(src[..], dst[..], i, n)
    {
      if i >= src.Length || i >= dst.Length { return false; }
      ghost var before := dst[..];
      dst[i] := src[i];
      assert dst[..] == before[i := src[i]];
      i := i + 1;
    }
    if n >= dst.Length { return false; }
    dst[n] := 0;
    ok := true;
  }
}
