/**
 64-bit words: counters and indices that wrap around, and the comparison of two of them.
 */
module Words {

  const WORD: nat := 0x1_0000_0000_0000_0000
  const HALF: nat := 0x8000_0000_0000_0000

  /** The word that holds the unbounded number `x`. */
  function ToWord(x: int): (w: nat)
    ensures w < WORD
  {
    x % WORD
  }

  /** `circular_less_than` on 64-bit words. */
  predicate CircularLess(a: nat, b: nat) {
    (a - b) % WORD > HALF
  }

  /** The distances on which the circular comparison is the true one. */
  predicate Window(a: int, b: int) {
    0 - HALF < a - b <= HALF
  }

  /** Inside the window the comparison of the wrapped values is the comparison of the true ones. */
  lemma {:induction false} CircularIsTrueOrder(a: int, b: int)
    requires Window(a, b)
    ensures CircularLess(a % WORD, b % WORD) <==> a < b
  {
    WrapDifference(a, b);
  }

  /** Outside it, it is not: exactly half a turn behind is not seen as less, and more than half a turn ahead is. */
  lemma {:induction false} CircularFailsOutside(a: int, b: int)
    requires !Window(a, b) && 0 - WORD < a - b < WORD
    ensures CircularLess(a % WORD, b % WORD) <==> !(a < b)
  {
    WrapDifference(a, b);
  }

  lemma {:induction false} WrapDifference(a: int, b: int)
    ensures (a % WORD - b % WORD) % WORD == (a - b) % WORD
  {
    assert a == WORD * (a / WORD) + a % WORD;
    assert b == WORD * (b / WORD) + b % WORD;
    var q := a / WORD - b / WORD;
    assert a - b == WORD * q + (a % WORD - b % WORD);
    WordShift(a % WORD - b % WORD, q);
  }

  lemma {:induction false} WordShift(x: int, q: int)
    ensures (x + WORD * q) % WORD == x % WORD
  {
  }

  /** A `fetch_add` on the word is the word of the sum. */
  lemma {:induction false} WordAdd(x: int, n: int)
    ensures (x % WORD + n) % WORD == (x + n) % WORD
  {
    assert x == WORD * (x / WORD) + x % WORD;
    WordShift(x % WORD + n, x / WORD);
  }
}
