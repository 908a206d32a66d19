/**
 Wrapping index words.  Indices are unsigned words modulo 2 * half (half == 2^63 for a 64-bit index_t);
 the other modules count without wrapping, and the lemmas here say when that is the same thing.
 */
module CircularIndex {
  import opened ModArith

  // static_cast<T>(a - b) > 2^(bits - 1)
  predicate CircularLessThan(a: nat, b: nat, half: int)
    requires half > 0
  {
    (a - b) % (2 * half) > half
  }

  // The two's complement value of a word.
  function Signed(word: int, half: int): int
    requires half > 0
  {
    if word % (2 * half) >= half then word % (2 * half) - 2 * half else word % (2 * half)
  }

  // C++ integer division truncates toward zero.
  function Truncate(a: int, b: nat): int
    requires b > 0
  {
    if a >= 0 then a / b else -((-a) / b)
  }

  /** For any two counters, the comparison of their words says exactly that b is ahead of a by less than
      half the range, counted around the circle. */
  lemma CircularLessThanExactly(a: int, b: int, half: int)
    requires half > 0
    ensures CircularLessThan(a % (2 * half), b % (2 * half), half) <==> 0 < (b - a) % (2 * half) < half
  {
    var m := 2 * half;
    ModDiff(a, b, m);
    var r := (b - a) % m;
    if r == 0 {
      ModIs(a - b, -((b - a) / m), 0, m);
    } else {
      ModIs(a - b, -((b - a) / m) - 1, m - r, m);
    }
  }

  /** Within half the range the word comparison is the comparison of the counters. */
  lemma CircularLessThanAgrees(a: int, b: int, half: int)
    requires half > 0 && -half < b - a < half
    ensures CircularLessThan(a % (2 * half), b % (2 * half), half) <==> a < b
  {
    CircularLessThanExactly(a, b, half);
    if b >= a { ModIs(b - a, 0, b - a, 2 * half); } else { ModIs(b - a, -1, b - a + 2 * half, 2 * half); }
  }

  /** Half the range is where it stops: a counter exactly half the range ahead compares as not ahead. */
  lemma CircularLessThanStops(a: int, half: int)
    requires half > 0
    ensures !CircularLessThan(a % (2 * half), (a + half) % (2 * half), half)
  {
    CircularLessThanExactly(a, a + half, half);
    ModIs(half, 0, half, 2 * half);
  }

  /** The bulk dequeue computes tail - (optimistic - overcommit) in words and tests it against zero; with
      less than half the range outstanding that is the test, and then the value, on the counters. */
  lemma DesiredAgrees(tail: int, optimistic: int, over: int, half: int)
    requires half > 0 && -half < tail - (optimistic - over) < half
    ensures var m := 2 * half;
            var word := (tail % m - (optimistic % m - over % m) % m) % m;
            && (CircularLessThan(0, word, half) <==> 0 < tail - (optimistic - over))
            && (0 < tail - (optimistic - over) ==> word == tail - (optimistic - over))
  {
    var m := 2 * half;
    ModDiff(optimistic, over, m);
    ModDiff(tail, optimistic - over, m);
    var d := tail - (optimistic - over);
    ModIs(0, 0, 0, m);
    CircularLessThanAgrees(0, d, half);
    if d > 0 { ModIs(d, 0, d, m); }
  }

  // get_block_index_index_for_index as written: words, a signed division, a mask.  cap is a power of two,
  // so `& (cap - 1)` is `% cap`, and it divides the word range.
  function SlotWord(tailSlot: nat, index: int, tailBase: int, blockSize: nat, cap: nat, half: int): nat
    requires half > 0 && blockSize > 0 && cap > 0
  {
    ((tailSlot + Truncate(Signed(index - tailBase, half), blockSize) % (2 * half)) % (2 * half)) % cap
  }

  /** On two block bases less than half the range apart, whichever is ahead, it is the unwrapped slot. */
  lemma SlotWordAgrees(tailSlot: nat, block: int, tailBlock: int, blockSize: nat, cap: nat, half: int)
    requires half > 0 && blockSize > 0 && cap > 0 && (2 * half) % cap == 0
    requires -half <= block * blockSize - tailBlock * blockSize < half
    ensures SlotWord(tailSlot, (block * blockSize) % (2 * half), (tailBlock * blockSize) % (2 * half), blockSize, cap, half)
         == (tailSlot + (block - tailBlock)) % cap
  {
    var m := 2 * half;
    var a, b := block * blockSize, tailBlock * blockSize;
    var k := block - tailBlock;
    assert a - b == k * blockSize by { Distribute(block, tailBlock, blockSize); }
    ModDiff(a, b, m);
    SignedIs(a % m - b % m, a - b, half);
    TruncateExact(k, blockSize);
    ModAbsorb(tailSlot, k, m);
    ModNested(tailSlot + k, m, cap);
  }

  lemma SignedIs(word: int, d: int, half: int)
    requires half > 0 && word % (2 * half) == d % (2 * half) && -half <= d < half
    ensures Signed(word, half) == d
  {
    if d >= 0 { ModIs(d, 0, d, 2 * half); } else { ModIs(d, -1, d + 2 * half, 2 * half); }
  }

  lemma TruncateExact(k: int, b: nat)
    requires b > 0
    ensures Truncate(k * b, b) == k
  {
    Multiple(k, b);
    ModIs(k * b, k, 0, b);
    ModIs((-k) * b, -k, 0, b);
    assert -(k * b) == (-k) * b;
  }
}
