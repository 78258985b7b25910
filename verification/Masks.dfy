/** Bits 6 and 7 of MER and MER_MASK: the positive and the negative limit switch. */
module Masks {
  import opened Codec

  predicate HasLsp(m: word) { m / 0x40 % 2 == 1 }
  predicate HasLsn(m: word) { m / 0x80 % 2 == 1 }

  /** The word with bits 6 and 7 as given and the rest as in m. */
  function LimitsSet(m: word, lsp: bool, lsn: bool): word {
    m / 0x100 * 0x100 + (if lsn then 0x80 else 0) + (if lsp then 0x40 else 0) + m % 0x40
  }

  /** The mask with the bit of one limit switch set. */
  function Armed(m: word, positive: bool): word {
    LimitsSet(m, HasLsp(m) || positive, HasLsn(m) || !positive)
  }

  /** The mask with the chosen bits cleared. */
  function Cleared(m: word, lsp: bool, lsn: bool): word {
    LimitsSet(m, HasLsp(m) && !lsp, HasLsn(m) && !lsn)
  }

  /** The other fourteen bits agree. */
  predicate SameElsewhere(m: word, n: word) { m / 0x100 == n / 0x100 && m % 0x40 == n % 0x40 }

  lemma Split(m: word)
    ensures m == LimitsSet(m, HasLsp(m), HasLsn(m))
  {
    var a, b, c := m / 0x40, m / 0x80, m / 0x100;
    assert a / 2 == b && b / 2 == c;
  }

  lemma Join(h: nat, lsn: bool, lsp: bool, l: nat) returns (m: nat)
    requires h < 0x100 && l < 0x40
    ensures m == h * 0x100 + (if lsn then 0x80 else 0) + (if lsp then 0x40 else 0) + l && m < 0x1_0000
    ensures m / 0x100 == h && (m / 0x80 % 2 == 1) == lsn && (m / 0x40 % 2 == 1) == lsp && m % 0x40 == l
  {
    m := h * 0x100 + (if lsn then 0x80 else 0) + (if lsp then 0x40 else 0) + l;
    assert m / 0x80 == 2 * h + (if lsn then 1 else 0);
    assert m / 0x40 == 4 * h + (if lsn then 2 else 0) + (if lsp then 1 else 0);
  }

  lemma WithBits(m: word, lsp: bool, lsn: bool)
    ensures HasLsp(LimitsSet(m, lsp, lsn)) == lsp && HasLsn(LimitsSet(m, lsp, lsn)) == lsn
    ensures SameElsewhere(LimitsSet(m, lsp, lsn), m)
  {
    var n := Join(m / 0x100, lsn, lsp, m % 0x40);
  }

  /** Sixteen bits are these two and the rest. */
  lemma BitsDetermine(m: word, n: word)
    requires SameElsewhere(m, n) && HasLsp(m) == HasLsp(n) && HasLsn(m) == HasLsn(n)
    ensures m == n
  {
    Split(m);
    Split(n);
  }
}
