/**
 The lock word of an HTLL mutex: a 32-bit `u` that shares its two low bytes with `b.locked` and
 `b.contended`.  No access ever writes the two high bytes with anything but 0, so a word is its
 two low bytes.
 */
module LockWord {

  const UNLOCKED := 0
  const LOCKED := 1
  const UNCONTENDED := 0
  const LOCKED_AND_CONTENDED := 257

  datatype Word = Word(locked: int, contended: int) {
    /** The word read as `u`. */
    function U(): int { locked + 256 * contended }
  }

  /** The bytes that a 32-bit store of `u` leaves. */
  function FromU(u: nat): Word
    requires u < 0x1_0000
  {
    Word(u % 256, u / 256)
  }

  /** Reading back a stored value, and the low bit that `& LOCKED` tests. */
  lemma StoredValue(u: nat)
    requires u < 0x1_0000
    ensures FromU(u).U() == u && 0 <= FromU(u).locked < 256 && 0 <= FromU(u).contended < 256
    ensures u % 2 == FromU(u).locked % 2
  {
  }

  /** The only values that the word takes in any run (see HtllSafety.MutexOk). */
  predicate FourValues(w: Word) {
    && (w.locked == UNLOCKED || w.locked == LOCKED)
    && (w.contended == UNCONTENDED || w.contended == 1)
  }

  lemma FourValuesAsU(w: Word)
    requires FourValues(w)
    ensures w.U() in {0, 1, 256, 257}
    ensures w.U() == LOCKED_AND_CONTENDED <==> w == FromU(LOCKED_AND_CONTENDED)
    ensures w.U() % 2 == w.locked
  {
  }
}
