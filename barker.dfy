/**
 * Barker codes. A code of length n is a sequence of n chips of value +1 or -1
 * whose aperiodic autocorrelation has magnitude at most 1 at every non-zero
 * shift; the generator sends one chip per subpulse and flips the carrier's
 * phase by 180 degrees on the chips of value -1. Here a chip is a bool (true
 * for +1), and the chips of a pattern word are its bits, least significant
 * first.
 */
module Barker {

  /** The first n bits of a pattern word as chips, bit 0 first. */
  function Chips(bits: nat, n: nat): (c: seq<bool>)
    ensures |c| == n
  {
    if n == 0 then [] else [bits % 2 == 1] + Chips(bits / 2, n - 1)
  }

  /** The pattern word whose bits, least significant first, are the chips. */
  function Word(c: seq<bool>): nat
  {
    if c == [] then 0 else (if c[0] then 1 else 0) + 2 * Word(c[1..])
  }

  /** Reading the chips back out of a pattern word gives the chips it was
      made from. */
  lemma {:induction false} ChipsOfWord(c: seq<bool>)
    ensures Chips(Word(c), |c|) == c
  {
    if c != [] {
      ChipsOfWord(c[1..]);
      assert Word(c) / 2 == Word(c[1..]);
      assert Chips(Word(c), |c|) == [c[0]] + c[1..];
    }
  }

  /** The aperiodic autocorrelation at shift k, summed from chip i on. */
  function Correlation(c: seq<bool>, k: nat, i: nat): int
    decreases |c| - i
  {
    if i + k >= |c| then 0
    else (if c[i] == c[i + k] then 1 else -1) + Correlation(c, k, i + 1)
  }

  /** Every sidelobe of the autocorrelation has magnitude at most 1. */
  predicate IsBarkerSequence(c: seq<bool>)
  {
    forall k :: 1 <= k < |c| ==> -1 <= Correlation(c, k, 0) <= 1
  }

  /** The pattern word 2 holds these 2 chips, and they form a Barker code. */
  lemma Pattern2()
    ensures Chips(2, 2) == [false, true]
    ensures IsBarkerSequence([false, true])
  {
    WordOf2();
    ChipsOfWord([false, true]);
    SidelobesOf2();
  }

  lemma WordOf2()
    ensures Word([false, true]) == 2
  {
  }

  lemma SidelobesOf2()
    ensures IsBarkerSequence([false, true])
  {
    assert -1 <= Correlation([false, true], 1, 0) <= 1;
  }

  /** The pattern word 6 holds these 3 chips, and they form a Barker code. */
  lemma Pattern6()
    ensures Chips(6, 3) == [false, true, true]
    ensures IsBarkerSequence([false, true, true])
  {
    WordOf6();
    ChipsOfWord([false, true, true]);
    SidelobesOf6();
  }

  lemma WordOf6()
    ensures Word([false, true, true]) == 6
  {
  }

  lemma SidelobesOf6()
    ensures IsBarkerSequence([false, true, true])
  {
    assert -1 <= Correlation([false, true, true], 1, 0) <= 1;
    assert -1 <= Correlation([false, true, true], 2, 0) <= 1;
  }

  /** The pattern word 11 holds these 4 chips, and they form a Barker code. */
  lemma Pattern11()
    ensures Chips(11, 4) == [true, true, false, true]
    ensures IsBarkerSequence([true, true, false, true])
  {
    WordOf11();
    ChipsOfWord([true, true, false, true]);
    SidelobesOf11();
  }

  lemma WordOf11()
    ensures Word([true, true, false, true]) == 11
  {
  }

  lemma SidelobesOf11()
    ensures IsBarkerSequence([true, true, false, true])
  {
    assert -1 <= Correlation([true, true, false, true], 1, 0) <= 1;
    assert -1 <= Correlation([true, true, false, true], 2, 0) <= 1;
    assert -1 <= Correlation([true, true, false, true], 3, 0) <= 1;
  }

  /** The pattern word 29 holds these 5 chips, and they form a Barker code. */
  lemma Pattern29()
    ensures Chips(29, 5) == [true, false, true, true, true]
    ensures IsBarkerSequence([true, false, true, true, true])
  {
    WordOf29();
    ChipsOfWord([true, false, true, true, true]);
    SidelobesOf29();
  }

  lemma WordOf29()
    ensures Word([true, false, true, true, true]) == 29
  {
  }

  lemma SidelobesOf29()
    ensures IsBarkerSequence([true, false, true, true, true])
  {
    assert -1 <= Correlation([true, false, true, true, true], 1, 0) <= 1;
    assert -1 <= Correlation([true, false, true, true, true], 2, 0) <= 1;
    assert -1 <= Correlation([true, false, true, true, true], 3, 0) <= 1;
    assert -1 <= Correlation([true, false, true, true, true], 4, 0) <= 1;
  }

  /** The pattern word 114 holds these 7 chips, and they form a Barker code. */
  lemma Pattern114()
    ensures Chips(114, 7) == [false, true, false, false, true, true, true]
    ensures IsBarkerSequence([false, true, false, false, true, true, true])
  {
    WordOf114();
    ChipsOfWord([false, true, false, false, true, true, true]);
    SidelobesOf114();
  }

  lemma WordOf114()
    ensures Word([false, true, false, false, true, true, true]) == 114
  {
  }

  lemma SidelobesOf114()
    ensures IsBarkerSequence([false, true, false, false, true, true, true])
  {
    assert -1 <= Correlation([false, true, false, false, true, true, true], 1, 0) <= 1;
    assert -1 <= Correlation([false, true, false, false, true, true, true], 2, 0) <= 1;
    assert -1 <= Correlation([false, true, false, false, true, true, true], 3, 0) <= 1;
    assert -1 <= Correlation([false, true, false, false, true, true, true], 4, 0) <= 1;
    assert -1 <= Correlation([false, true, false, false, true, true, true], 5, 0) <= 1;
    assert -1 <= Correlation([false, true, false, false, true, true, true], 6, 0) <= 1;
  }

  /** The pattern word 1810 holds these 11 chips, and they form a Barker code. */
  lemma Pattern1810()
    ensures Chips(1810, 11) == [false, true, false, false, true, false, false, false, true, true, true]
    ensures IsBarkerSequence([false, true, false, false, true, false, false, false, true, true, true])
  {
    WordOf1810();
    ChipsOfWord([false, true, false, false, true, false, false, false, true, true, true]);
    SidelobesOf1810();
  }

  lemma WordOf1810()
    ensures Word([false, true, false, false, true, false, false, false, true, true, true]) == 1810
  {
  }

  lemma SidelobesOf1810()
    ensures IsBarkerSequence([false, true, false, false, true, false, false, false, true, true, true])
  {
    assert -1 <= Correlation([false, true, false, false, true, false, false, false, true, true, true], 1, 0) <= 1;
    assert -1 <= Correlation([false, true, false, false, true, false, false, false, true, true, true], 2, 0) <= 1;
    assert -1 <= Correlation([false, true, false, false, true, false, false, false, true, true, true], 3, 0) <= 1;
    assert -1 <= Correlation([false, true, false, false, true, false, false, false, true, true, true], 4, 0) <= 1;
    assert -1 <= Correlation([false, true, false, false, true, false, false, false, true, true, true], 5, 0) <= 1;
    assert -1 <= Correlation([false, true, false, false, true, false, false, false, true, true, true], 6, 0) <= 1;
    assert -1 <= Correlation([false, true, false, false, true, false, false, false, true, true, true], 7, 0) <= 1;
    assert -1 <= Correlation([false, true, false, false, true, false, false, false, true, true, true], 8, 0) <= 1;
    assert -1 <= Correlation([false, true, false, false, true, false, false, false, true, true, true], 9, 0) <= 1;
    assert -1 <= Correlation([false, true, false, false, true, false, false, false, true, true, true], 10, 0) <= 1;
  }

  /** The pattern word 7989 holds these 13 chips, and they form a Barker code. */
  lemma Pattern7989()
    ensures Chips(7989, 13) == [true, false, true, false, true, true, false, false, true, true, true, true, true]
    ensures IsBarkerSequence([true, false, true, false, true, true, false, false, true, true, true, true, true])
  {
    WordOf7989();
    ChipsOfWord([true, false, true, false, true, true, false, false, true, true, true, true, true]);
    SidelobesOf7989();
  }

  lemma WordOf7989()
    ensures Word([true, false, true, false, true, true, false, false, true, true, true, true, true]) == 7989
  {
  }

  lemma SidelobesOf7989()
    ensures IsBarkerSequence([true, false, true, false, true, true, false, false, true, true, true, true, true])
  {
    assert -1 <= Correlation([true, false, true, false, true, true, false, false, true, true, true, true, true], 1, 0) <= 1;
    assert -1 <= Correlation([true, false, true, false, true, true, false, false, true, true, true, true, true], 2, 0) <= 1;
    assert -1 <= Correlation([true, false, true, false, true, true, false, false, true, true, true, true, true], 3, 0) <= 1;
    assert -1 <= Correlation([true, false, true, false, true, true, false, false, true, true, true, true, true], 4, 0) <= 1;
    assert -1 <= Correlation([true, false, true, false, true, true, false, false, true, true, true, true, true], 5, 0) <= 1;
    assert -1 <= Correlation([true, false, true, false, true, true, false, false, true, true, true, true, true], 6, 0) <= 1;
    assert -1 <= Correlation([true, false, true, false, true, true, false, false, true, true, true, true, true], 7, 0) <= 1;
    assert -1 <= Correlation([true, false, true, false, true, true, false, false, true, true, true, true, true], 8, 0) <= 1;
    assert -1 <= Correlation([true, false, true, false, true, true, false, false, true, true, true, true, true], 9, 0) <= 1;
    assert -1 <= Correlation([true, false, true, false, true, true, false, false, true, true, true, true, true], 10, 0) <= 1;
    assert -1 <= Correlation([true, false, true, false, true, true, false, false, true, true, true, true, true], 11, 0) <= 1;
    assert -1 <= Correlation([true, false, true, false, true, true, false, false, true, true, true, true, true], 12, 0) <= 1;
  }
}
