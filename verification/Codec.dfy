/** The TML frame on the wire, and the two programs that write and read it.

    A frame is  LEN  ADDR(2)  OPCODE(2)  DATA(2 each)  CHECKSUM,  words big-endian,
    LEN counting everything between itself and the checksum, the checksum being the
    sum of all earlier bytes modulo 256. The driver builds and reads frames in fixed
    byte buffers; the simulator does it with growing Python byte strings. Both are
    proved against the same two functions, Encode and a decoder each. */
module Codec {
  type byte = x: int | 0 <= x < 0x100
  type word = x: int | 0 <= x < 0x1_0000

  const MAX_WORDS := 4
  const MAX_MSG_BYTES := 16

  datatype Option<+T> = None | Some(value: T)

  datatype TmlMsg = TmlMsg(addr: word, opCode: word, data: seq<word>)

  // ----- The frame as a value -----

  function Sum(bs: seq<byte>): nat {
    if bs == [] then 0 else Sum(bs[..|bs| - 1]) + bs[|bs| - 1]
  }

  function WordBytes(ws: seq<word>): (bs: seq<byte>)
    ensures |bs| == 2 * |ws|
    ensures forall i :: 0 <= i < |ws| ==> bs[2 * i] == ws[i] / 0x100 && bs[2 * i + 1] == ws[i] % 0x100
  {
    if ws == [] then []
    else WordBytes(ws[..|ws| - 1]) + [ws[|ws| - 1] / 0x100, ws[|ws| - 1] % 0x100]
  }

  /** Everything of a frame but its checksum. */
  function Body(m: TmlMsg): (bs: seq<byte>)
    requires |m.data| <= 125
    ensures |bs| == 5 + 2 * |m.data|
  {
    [4 + 2 * |m.data|, m.addr / 0x100, m.addr % 0x100, m.opCode / 0x100, m.opCode % 0x100] + WordBytes(m.data)
  }

  function Encode(m: TmlMsg): (bs: seq<byte>)
    requires |m.data| <= 125
    ensures |bs| == 6 + 2 * |m.data|
  {
    Body(m) + [Sum(Body(m)) % 0x100]
  }

  function Pair(hi: byte, lo: byte): word { hi * 0x100 + lo }

  /** The length byte, as a number to count with. */
  function Len(b: seq<byte>): nat
    requires b != []
  {
    b[0]
  }

  /** A whole frame with the right checksum stands at the front of `b`. */
  predicate Intact(b: seq<byte>) {
    |b| >= 6 && |b| >= Len(b) + 2 && Sum(b[..Len(b) + 1]) % 0x100 == b[Len(b) + 1]
  }

  /** Division by two that truncates toward zero, as in C++. */
  function TruncHalf(x: int): int {
    if x >= 0 then x / 2 else -((-x) / 2)
  }

  function DataWords(b: seq<byte>, n: nat): (ws: seq<word>)
    requires |b| >= 5 + 2 * n
    ensures |ws| == n
  {
    seq(n, i requires 0 <= i < n => Pair(b[5 + 2 * i], b[6 + 2 * i]))
  }

  /** What the driver reads from a received buffer. */
  function Decode(b: seq<byte>): Option<TmlMsg> {
    if !Intact(b) then None
    else
      var n := TruncHalf(Len(b) - 4);
      if n < 0 || n > MAX_WORDS then None
      else Some(TmlMsg(Pair(b[1], b[2]), Pair(b[3], b[4]), DataWords(b, n)))
  }

  /** What the simulator reads from its buffer: the message and the bytes it used up. */
  function Parse(b: seq<byte>): Option<(TmlMsg, nat)> {
    if !Intact(b) then None
    else
      var n := (Len(b) - 4) / 2;  // floors, like Python; a negative range is empty
      Some((TmlMsg(Pair(b[1], b[2]), Pair(b[3], b[4]), DataWords(b, if n < 0 then 0 else n)), Len(b) + 2))
  }

  // ----- Facts about sums -----

  lemma {:induction false} SumAppend(a: seq<byte>, b: seq<byte>)
    ensures Sum(a + b) == Sum(a) + Sum(b)
  {
    if b == [] {
      assert a + b == a;
    } else {
      assert (a + b)[..|a + b| - 1] == a + b[..|b| - 1];
      SumAppend(a, b[..|b| - 1]);
    }
  }

  lemma SumUpdate(s: seq<byte>, k: nat, x: byte)
    requires k < |s|
    ensures Sum(s[k := x]) == Sum(s) - s[k] + x
  {
    assert s == s[..k] + [s[k]] + s[k + 1..];
    assert s[k := x] == s[..k] + [x] + s[k + 1..];
    SumAppend(s[..k] + [s[k]], s[k + 1..]);
    SumAppend(s[..k] + [x], s[k + 1..]);
    assert (s[..k] + [s[k]])[..k] == s[..k] && (s[..k] + [x])[..k] == s[..k];
  }

  // ----- The layout -----

  /** Byte by byte: length, then every word with its high byte first, then the sum of it all. */
  lemma FrameLayout(m: TmlMsg)
    requires |m.data| <= 125
    ensures
      var b := Encode(m);
      && b[0] as int == 4 + 2 * |m.data|
      && 0x100 * (b[1] as int) + b[2] == m.addr && 0x100 * (b[3] as int) + b[4] == m.opCode
      && (forall i :: 0 <= i < |m.data| ==> 0x100 * (b[5 + 2 * i] as int) + b[6 + 2 * i] == m.data[i])
      && (Sum(b[..|b| - 1]) - b[|b| - 1]) % 0x100 == 0
  {
    hide Sum, WordBytes;
    var b := Encode(m);
    assert b[..|b| - 1] == Body(m);
    forall i | 0 <= i < |m.data| ensures 0x100 * (b[5 + 2 * i] as int) + b[6 + 2 * i] == m.data[i] {
      assert b[5 + 2 * i] == WordBytes(m.data)[2 * i] && b[6 + 2 * i] == WordBytes(m.data)[2 * i + 1];
    }
  }

  /** AXISON to axis 1. */
  lemma AxisOnFrame()
    ensures Encode(TmlMsg(0x0010, 0x0102, [])) == [0x04, 0x00, 0x10, 0x01, 0x02, 0x17]
  {
    var a, b, c: seq<byte>, d: seq<byte> := [0x04, 0x00], [0x10], [0x01], [0x02];
    SumAppend([0x04], [0x00]);
    SumAppend(a, b);
    SumAppend(a + b, c);
    SumAppend(a + b + c, d);
    SumOne(0x04);
    SumOne(0x00);
    SumOne(0x10);
    SumOne(0x01);
    SumOne(0x02);
    assert [0x04] + [0x00] == a && Body(TmlMsg(0x0010, 0x0102, [])) == a + b + c + d;
  }

  lemma SumOne(x: byte)
    ensures Sum([x]) == x
  {
    assert [x][..0] == [];
  }

  // ----- Main results -----

  /** A frame survives the trip through the driver's decoder, whatever follows it. */
  lemma DecodeEncode(m: TmlMsg, tail: seq<byte>)
    requires |m.data| <= MAX_WORDS
    ensures Decode(Encode(m) + tail) == Some(m)
  {
    hide Sum, Intact, Encode, DataWords, Pair;
    IntactEncode(m, tail);
    FieldsOfEncode(m, tail);
  }

  lemma FieldsOfEncode(m: TmlMsg, tail: seq<byte>)
    requires |m.data| <= 125
    ensures
      var b := Encode(m) + tail;
      && Pair(b[1], b[2]) == m.addr && Pair(b[3], b[4]) == m.opCode && DataWords(b, |m.data|) == m.data
  {
    hide Sum, WordBytes;
    var b := Encode(m) + tail;
    assert b[1] == m.addr / 0x100 && b[2] == m.addr % 0x100 && b[3] == m.opCode / 0x100 && b[4] == m.opCode % 0x100;
    forall i | 0 <= i < |m.data| ensures DataWords(b, |m.data|)[i] == m.data[i] {
      assert b[5 + 2 * i] == WordBytes(m.data)[2 * i] && b[6 + 2 * i] == WordBytes(m.data)[2 * i + 1];
    }
  }

  lemma IntactEncode(m: TmlMsg, tail: seq<byte>)
    requires |m.data| <= 125
    ensures Intact(Encode(m) + tail) && (Encode(m) + tail)[0] == 4 + 2 * |m.data|
  {
    var b := Encode(m) + tail;
    assert b[..Len(b) + 1] == Body(m);
  }

  /** Re-encoding what the driver accepted gives the same frame back, exactly when LEN
      is even: the odd lengths the decoder lets through lose a byte. */
  lemma EncodeDecode(b: seq<byte>)
    requires Decode(b).Some?
    ensures 3 <= Len(b) <= 13
    ensures Encode(Decode(b).value) == b[..Len(b) + 2] <==> Len(b) % 2 == 0
  {
    var m := Decode(b).value;
    if Len(b) % 2 == 0 {
      BodyOfDecoded(b);
      assert b[..Len(b) + 2] == b[..Len(b) + 1] + [b[Len(b) + 1]];
    } else {
      assert |Encode(m)| != Len(b) + 2;
    }
  }

  lemma BodyOfDecoded(b: seq<byte>)
    requires Decode(b).Some? && Len(b) % 2 == 0
    ensures Body(Decode(b).value) == b[..Len(b) + 1]
  {
    hide Sum, DataWords;
    var m := Decode(b).value;
    BytesOfDataWords(b, |m.data|);
    assert b[..Len(b) + 1] == b[..5] + b[5..Len(b) + 1];
    assert Body(m)[..5] == b[..5];
  }

  lemma BytesOfDataWords(b: seq<byte>, n: nat)
    requires |b| >= 5 + 2 * n
    ensures WordBytes(DataWords(b, n)) == b[5..5 + 2 * n]
  {
    var ws := DataWords(b, n);
    forall i | 0 <= i < n
      ensures WordBytes(ws)[2 * i] == b[5..][2 * i] && WordBytes(ws)[2 * i + 1] == b[5..][2 * i + 1]
    {
      assert ws[i] == Pair(b[5 + 2 * i], b[6 + 2 * i]);
    }
    forall k | 0 <= k < 2 * n
      ensures WordBytes(ws)[k] == b[5..][k]
    {
      assert k == 2 * (k / 2) || k == 2 * (k / 2) + 1;
    }
  }

  /** One damaged byte anywhere but in LEN is always noticed. */
  lemma DamageIsRejected(b: seq<byte>, k: nat, x: byte)
    requires Decode(b).Some? && |b| == Len(b) + 2
    requires 0 < k < |b| && x != b[k]
    ensures Decode(b[k := x]) == None
  {
    hide Sum, DataWords;
    var d, n := b[k := x], Len(b) + 1;
    if k < n {
      SumUpdate(b[..n], k, x);
      assert d[..n] == b[..n][k := x];
    } else {
      assert d[..n] == b[..n];
    }
  }

  /** A damaged LEN is noticed when it grew ... */
  lemma LongerLengthIsRejected(b: seq<byte>, x: byte)
    requires |b| >= 1 && |b| == Len(b) + 2 && x > b[0]
    ensures Decode(b[0 := x]) == None
  {
  }

  /** ... and when it shrank, except for lengths from 3 up that happen to make the sums agree:
      what the shorter frame takes for its checksum has to make up for the bytes left out. */
  lemma ShorterLengthPassesIff(b: seq<byte>, x: byte)
    requires Decode(b).Some? && |b| == Len(b) + 2 && x < b[0]
    ensures Decode(b[0 := x]).Some?
       <==> x >= 3 && (b[x + 1] + Sum(b[x + 1..Len(b) + 1]) + Len(b) - x) % 0x100 == b[Len(b) + 1]
  {
    hide Sum, DataWords;
    var d, n: nat, k: nat := b[0 := x], Len(b) + 1, x + 1;
    assert b[..n] == b[..k] + b[k..n];
    SumAppend(b[..k], b[k..n]);
    SumUpdate(b[..k], 0, x);
    assert d[..k] == b[..k][0 := x];
    SumsMeet(Sum(b[..k]), Sum(b[k..n]), Len(b), x, b[n], b[k]);
  }

  lemma SumsMeet(head: nat, tail: nat, len: nat, x: nat, c: byte, y: byte)
    requires (head + tail) % 0x100 == c
    ensures (head - len + x) % 0x100 == y <==> (y + tail + len - x) % 0x100 == c
  {
  }

  /** There are such lengths: two frames that differ in LEN alone, both accepted. */
  lemma ShorterLengthMayPass() returns (b: seq<byte>, x: byte)
    ensures Decode(b).Some? && |b| == Len(b) + 2
    ensures x != b[0] && Decode(b[0 := x]).Some?
  {
    hide Sum;
    b, x := [6, 0, 0, 0, 0, 4, 0, 10], 4;
    SumSix(6, b[..5], b[..6], b[..7]);
    SumSix(4, [4, 0, 0, 0, 0], [4, 0, 0, 0, 0, 4], [4, 0, 0, 0, 0, 4, 0]);
    assert b[0 := x][..5] == [4, 0, 0, 0, 0];
  }

  lemma SumNothing()
    ensures Sum([]) == 0
  {
  }

  lemma {:induction false} SumOfZeros(b: seq<byte>)
    requires forall i :: 0 <= i < |b| ==> b[i] == 0
    ensures Sum(b) == 0
  {
    if b != [] { SumOfZeros(b[..|b| - 1]); }
  }

  lemma SumPush(b: seq<byte>, x: byte)
    ensures Sum(b + [x]) == Sum(b) + x
  {
    assert (b + [x])[..|b|] == b;
  }

  lemma SumSix(first: byte, five: seq<byte>, six: seq<byte>, seven: seq<byte>)
    requires five == [first, 0, 0, 0, 0] && six == five + [4] && seven == six + [0]
    ensures Sum(five) == first && Sum(six) == first + 4 && Sum(seven) == first + 4
  {
    hide Sum;
    SumAppend([first], [0, 0, 0, 0]);
    SumOfZeros([0, 0, 0, 0]);
    SumNothing();
    SumPush([], first);
    assert [] + [first] == [first] && [first] + [0, 0, 0, 0] == five;
    SumPush(five, 4);
    SumPush(six, 0);
  }

  /** The two decoders read the same message from every buffer the driver accepts, and
      disagree about acceptance exactly on intact frames with LEN outside 3..13. */
  lemma DecodersAgree(b: seq<byte>)
    ensures Decode(b).Some? ==> Parse(b) == Some((Decode(b).value, Len(b) + 2))
    ensures Decode(b).Some? == Parse(b).Some? <==> !(Intact(b) && (b[0] < 3 || b[0] > 13))
  {
    if Intact(b) {
      var n, f := TruncHalf(Len(b) - 4), (Len(b) - 4) / 2;
      assert 3 <= b[0] <= 13 <==> 0 <= n <= MAX_WORDS;
      assert b[0] >= 4 ==> n == f;
      assert b[0] == 3 ==> n == 0 && f == -1;
    }
  }

  /** The simulator, too, takes exactly the frame off the front of its buffer. */
  lemma ParseEncode(m: TmlMsg, tail: seq<byte>)
    requires |m.data| <= 125
    ensures Parse(Encode(m) + tail) == Some((m, |Encode(m)|))
  {
    hide Sum, Intact, Encode, DataWords, Pair;
    IntactEncode(m, tail);
    FieldsOfEncode(m, tail);
  }

  // ----- The driver's code (byte buffers filled and read in place) -----

  method Checksum(buf: array<byte>, len: nat) returns (ck: byte)
    requires len <= buf.Length
    ensures ck == Sum(buf[..len]) % 0x100
  {
    var sum: nat := 0;
    for i := 0 to len
      invariant sum == Sum(buf[..i])
    {
      assert buf[..i + 1][..i] == buf[..i];
      sum := sum + buf[i];
    }
    ck := sum % 0x100;
  }

  method FillHeader(m: TmlMsg, buf: array<byte>)
    requires |m.data| <= MAX_WORDS && buf.Length >= 6 + 2 * |m.data|
    modifies buf
    ensures forall j :: 0 <= j < 5 ==> buf[j] == Body(m)[j]
    ensures forall j :: 5 <= j < buf.Length ==> buf[j] == old(buf[j])
  {
    hide WordBytes;
    buf[0] := 4 + 2 * |m.data|;
    buf[1], buf[2] := m.addr / 0x100, m.addr % 0x100;
    buf[3], buf[4] := m.opCode / 0x100, m.opCode % 0x100;
  }

  lemma BodyAt(m: TmlMsg, i: nat)
    requires |m.data| <= 125 && i < |m.data|
    ensures Body(m)[5 + 2 * i] == m.data[i] / 0x100 && Body(m)[6 + 2 * i] == m.data[i] % 0x100
  {
    hide WordBytes;
    assert Body(m)[5 + 2 * i] == WordBytes(m.data)[2 * i] && Body(m)[6 + 2 * i] == WordBytes(m.data)[2 * i + 1];
  }

  /** Everything but the checksum. */
  method FillBody(m: TmlMsg, buf: array<byte>)
    requires |m.data| <= MAX_WORDS && buf.Length >= 6 + 2 * |m.data|
    modifies buf
    ensures forall j :: 0 <= j < 5 + 2 * |m.data| ==> buf[j] == Body(m)[j]
    ensures forall j :: 5 + 2 * |m.data| <= j < buf.Length ==> buf[j] == old(buf[j])
  {
    hide Body;
    FillHeader(m, buf);
    var idx := 5;
    for i := 0 to |m.data|
      invariant idx == 5 + 2 * i
      invariant forall j :: 0 <= j < idx ==> buf[j] == Body(m)[j]
      invariant forall j :: 5 + 2 * |m.data| <= j < buf.Length ==> buf[j] == old(buf[j])
    {
      BodyAt(m, i);
      buf[idx] := m.data[i] / 0x100;
      buf[idx + 1] := m.data[i] % 0x100;
      idx := idx + 2;
    }
  }

  /** Fills the front of `buf` with the frame; -1 and no change when it does not fit. */
  method SerialiseMessage(m: TmlMsg, buf: array<byte>) returns (len: int)
    requires |m.data| <= MAX_WORDS
    modifies buf
    ensures buf.Length < 6 + 2 * |m.data| ==> len == -1 && buf[..] == old(buf[..])
    ensures buf.Length >= 6 + 2 * |m.data| ==> len == |Encode(m)| && buf[..len] == Encode(m)
                                               && buf[len..] == old(buf[len..])
  {
    hide Sum, Body;
    var payload := 4 + 2 * |m.data|;
    if payload + 2 > buf.Length { return -1; }
    FillBody(m, buf);
    var idx := payload + 1;
    ghost var after := buf[idx..];
    buf[idx] := Checksum(buf, idx);
    assert buf[..idx] == Body(m);
    assert buf[idx + 1..] == after[1..];
    len := idx + 1;
  }

  /** Reads the frame in the first `len` bytes of `buf`. */
  method DeserialiseMessage(buf: array<byte>, len: nat) returns (msg: Option<TmlMsg>)
    requires len <= buf.Length
    ensures msg == Decode(buf[..len])
  {
    if len < 6 { return None; }
    var payload: int := buf[0];
    if len < payload + 2 { return None; }
    ghost var b := buf[..len];
    var expected := Checksum(buf, payload + 1);
    assert b[..payload + 1] == buf[..payload + 1];
    if expected != buf[payload + 1] { return None; }
    var n := TruncHalf(payload - 4);
    if n < 0 || n > MAX_WORDS { return None; }
    var data: seq<word> := [];
    for i := 0 to n
      invariant data == DataWords(b, n)[..i]
    {
      data := data + [Pair(buf[5 + 2 * i], buf[6 + 2 * i])];
    }
    assert data == DataWords(b, n);
    msg := Some(TmlMsg(Pair(buf[1], buf[2]), Pair(buf[3], buf[4]), data));
  }

  // ----- The simulator's code -----

  method BuildResponseFrame(addr: word, opcode: word, words: seq<word>) returns (buf: seq<byte>)
    requires |words| <= 125  // beyond this Python's bytearray refuses the length byte
    ensures buf == Encode(TmlMsg(addr, opcode, words))
  {
    buf := [4 + 2 * |words|, addr / 0x100, addr % 0x100, opcode / 0x100, opcode % 0x100];
    ghost var body := Body(TmlMsg(addr, opcode, words));
    for i := 0 to |words|
      invariant buf == body[..5 + 2 * i]
    {
      buf := buf + [words[i] / 0x100, words[i] % 0x100];
    }
    assert buf == body;
    buf := buf + [Sum(buf) % 0x100];
  }

  method ParseFrame(buf: seq<byte>) returns (r: Option<(TmlMsg, nat)>)
    ensures r == Parse(buf)
  {
    if |buf| < 6 { return None; }
    var total := Len(buf) + 2;
    if |buf| < total { return None; }
    if Sum(buf[..total - 1]) % 0x100 != buf[total - 1] { return None; }
    var n := (total - 6) / 2;
    var words: seq<word> := [];
    var i := 0;
    while i < n
      invariant 0 <= i && (n >= 0 ==> i <= n) && (n < 0 ==> i == 0)
      invariant words == DataWords(buf, if n < 0 then 0 else n)[..i]
    {
      words := words + [Pair(buf[5 + 2 * i], buf[6 + 2 * i])];
      i := i + 1;
    }
    assert words == DataWords(buf, if n < 0 then 0 else n);
    r := Some((TmlMsg(Pair(buf[1], buf[2]), Pair(buf[3], buf[4]), words), total));
  }
}
