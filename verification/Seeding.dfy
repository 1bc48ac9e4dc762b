// The draw of a power-of-two bracket: which seed sits in which first-round slot.
// Slots count from 0, seeds from 1; block b of width w is the slots b*w .. b*w + w - 1.

module Seeding {

  function Pow2(k: nat): (p: nat)
    ensures p >= 1
  {
    if k == 0 then 1 else 2 * Pow2(k - 1)
  }

  lemma TimesTwice(a: int, b: int)
    ensures (2 * a) * b == 2 * (a * b) == a * (2 * b)
  {
  }

  lemma Pow2Mono(a: nat, b: nat)
    requires a <= b
    ensures Pow2(a) <= Pow2(b)
  {
    if a < b { Pow2Mono(a, b - 1); }
  }

  /** The number of rounds for n teams: the least k with n <= 2^k. */
  function RoundsFor(n: nat): (k: nat)
    ensures n <= Pow2(k)
    ensures k == 0 || Pow2(k - 1) < n
  {
    RoundsFrom(n, 0)
  }

  function RoundsFrom(n: nat, k: nat): (r: nat)
    requires k == 0 || Pow2(k - 1) < n
    ensures n <= Pow2(r)
    ensures r == 0 || Pow2(r - 1) < n
    decreases n - Pow2(k)
  {
    if n <= Pow2(k) then k else RoundsFrom(n, k + 1)
  }

  /** The rounds needed are pinned down by the two bounds. */
  lemma RoundsUnique(n: nat, j: nat, k: nat)
    requires n <= Pow2(j) && (j == 0 || Pow2(j - 1) < n)
    requires n <= Pow2(k) && (k == 0 || Pow2(k - 1) < n)
    ensures j == k
  {
    if j < k { Pow2Mono(j, k - 1); } else if k < j { Pow2Mono(k, j - 1); }
  }

  /** Each seed s is followed by its opponent, opposite - s. */
  function Paired(order: seq<int>, opposite: int): (next: seq<int>)
    ensures |next| == 2 * |order|
  {
    if order == [] then [] else
      var last := order[|order| - 1];
      Paired(order[..|order| - 1], opposite) + [last, opposite - last]
  }

  lemma {:induction false} PairedAt(order: seq<int>, opposite: int, j: nat)
    requires j < |order|
    ensures Paired(order, opposite)[2 * j] == order[j]
    ensures Paired(order, opposite)[2 * j + 1] == opposite - order[j]
  {
    if j < |order| - 1 {
      PairedAt(order[..|order| - 1], opposite, j);
    }
  }

  predicate SeedsWithin(order: seq<int>, size: int) {
    forall i :: 0 <= i < |order| ==> 1 <= order[i] <= size
  }

  lemma {:induction false} PairedWithin(order: seq<int>, size: int)
    requires SeedsWithin(order, size)
    ensures SeedsWithin(Paired(order, size + 1), size)
  {
    if order != [] {
      PairedWithin(order[..|order| - 1], size);
    }
  }

  /** The draw of 2^k: double the draw of 2^(k-1), opponents summing to 2^k + 1. */
  function SeedOrder(k: nat): (order: seq<int>)
    ensures |order| == Pow2(k)
    ensures SeedsWithin(order, Pow2(k))
  {
    if k == 0 then [1] else
      var half := SeedOrder(k - 1);
      PairedWithin(half, Pow2(k));
      Paired(half, Pow2(k) + 1)
  }

  lemma SeedOrderAt(k: nat, j: nat)
    requires 1 <= k && j < Pow2(k - 1)
    ensures SeedOrder(k)[2 * j] == SeedOrder(k - 1)[j]
    ensures SeedOrder(k)[2 * j + 1] == Pow2(k) + 1 - SeedOrder(k - 1)[j]
  {
    PairedAt(SeedOrder(k - 1), Pow2(k) + 1, j);
  }

  lemma PairedNext(order: seq<int>, opposite: int, j: nat)
    requires j < |order|
    ensures Paired(order[..j + 1], opposite) == Paired(order[..j], opposite) + [order[j], opposite - order[j]]
  {
    assert order[..j + 1][..j] == order[..j];
  }

  lemma DrawDoubles(k: nat)
    ensures Paired(SeedOrder(k), 2 * |SeedOrder(k)| + 1) == SeedOrder(k + 1)
  {
  }

  /** The inner loop: each seed followed by its opponent in a draw twice the size. */
  method Doubled(order: seq<int>) returns (next: seq<int>)
    ensures next == Paired(order, 2 * |order| + 1)
  {
    next := [];
    var opposite := |order| * 2 + 1;
    for j := 0 to |order|
      invariant next == Paired(order[..j], opposite)
    {
      PairedNext(order, opposite, j);
      next := next + [order[j], opposite - order[j]];
    }
    assert order[..|order|] == order;
  }

  method BracketSeedOrder(size: nat) returns (order: seq<int>)
    ensures order == SeedOrder(RoundsFor(size))
  {
    order := [1];
    ghost var k := 0;
    while |order| < size
      invariant order == SeedOrder(k) && |order| == Pow2(k)
      invariant k == 0 || Pow2(k - 1) < size
      decreases size - |order|
    {
      order := Doubled(order);
      DrawDoubles(k);
      k := k + 1;
    }
    RoundsUnique(size, k, RoundsFor(size));
  }

  // ---- The draw is a permutation: SeedSlot is its inverse ----

  function SeedSlot(k: nat, s: nat): (slot: nat)
    requires 1 <= s <= Pow2(k)
    ensures slot < Pow2(k)
  {
    if k == 0 then 0
    else if s <= Pow2(k - 1) then 2 * SeedSlot(k - 1, s)
    else 2 * SeedSlot(k - 1, Pow2(k) + 1 - s) + 1
  }

  lemma {:induction false} SlotHoldsSeed(k: nat, s: nat)
    requires 1 <= s <= Pow2(k)
    ensures SeedOrder(k)[SeedSlot(k, s)] == s
  {
    if k != 0 {
      var feeder := if s <= Pow2(k - 1) then s else Pow2(k) + 1 - s;
      SlotHoldsSeed(k - 1, feeder);
      var j := SeedSlot(k - 1, feeder);
      SeedOrderAt(k, j);
      assert SeedSlot(k, s) == if s <= Pow2(k - 1) then 2 * j else 2 * j + 1;
    }
  }

  lemma {:induction false} SeedAtSlot(k: nat, i: nat)
    requires i < Pow2(k)
    ensures 1 <= SeedOrder(k)[i] <= Pow2(k) && SeedSlot(k, SeedOrder(k)[i]) == i
  {
    if k != 0 {
      SeedAtSlot(k - 1, i / 2);
      SeedOrderAt(k, i / 2);
      assert i == 2 * (i / 2) || i == 2 * (i / 2) + 1;
    }
  }

  /** Every seed 1..2^k has exactly one slot. */
  lemma SeedOrderIsPermutation(k: nat, s: nat)
    requires 1 <= s <= Pow2(k)
    ensures exists i :: 0 <= i < Pow2(k) && SeedOrder(k)[i] == s
    ensures forall i, j :: 0 <= i < Pow2(k) && 0 <= j < Pow2(k) && SeedOrder(k)[i] == s && SeedOrder(k)[j] == s ==> i == j
  {
    SlotHoldsSeed(k, s);
    forall i | 0 <= i < Pow2(k) && SeedOrder(k)[i] == s
      ensures i == SeedSlot(k, s)
    {
      SeedAtSlot(k, i);
    }
  }

  lemma OpponentsSumToSizePlusOne(k: nat, p: nat)
    requires 1 <= k && p < Pow2(k - 1)
    ensures SeedOrder(k)[2 * p] + SeedOrder(k)[2 * p + 1] == Pow2(k) + 1
  {
    SeedOrderAt(k, p);
  }

  /** In every draw the first seed stands first. */
  lemma {:induction false} FirstSeedFirst(k: nat)
    ensures SeedOrder(k)[0] == 1
  {
    if k > 0 {
      FirstSeedFirst(k - 1);
      SeedOrderAt(k, 0);
    }
  }

  lemma DrawForFour()
    ensures SeedOrder(2) == [1, 4, 2, 3]
  {
    assert Pow2(0) == 1 && Pow2(1) == 2 && Pow2(2) == 4;
    FirstSeedFirst(1);
    SeedOrderAt(1, 0);
    SeedOrderAt(2, 0);
    SeedOrderAt(2, 1);
  }

  /** The draw for eight as documented. */
  lemma DrawForEight()
    ensures SeedOrder(3) == [1, 8, 4, 5, 2, 7, 3, 6]
  {
    assert Pow2(2) == 4 && Pow2(3) == 8;
    DrawForFour();
    SeedOrderAt(3, 0);
    SeedOrderAt(3, 1);
    SeedOrderAt(3, 2);
    SeedOrderAt(3, 3);
  }

  // ---- Separation of the strongest seeds ----

  /** The block of width 2^r that slot i lies in. */
  function Block(i: nat, r: nat): nat
  {
    if r == 0 then i else Block(i, r - 1) / 2
  }

  lemma BlockBound(k: nat, i: nat, r: nat)
    requires r <= k && i < Pow2(k)
    ensures Block(i, r) < Pow2(k - r)
  {
    if r != 0 { BlockBound(k, i, r - 1); }
  }

  lemma BlockStaysJoined(i: nat, j: nat, r: nat, r': nat)
    requires r <= r' && Block(i, r) == Block(j, r)
    ensures Block(i, r') == Block(j, r')
  {
    if r < r' { BlockStaysJoined(i, j, r, r' - 1); }
  }

  lemma {:induction false} BlockOfMultiple(q: nat, r: nat)
    ensures Block(Pow2(r) * q, r) == q
    decreases r
  {
    if r != 0 {
      BlockOfMultiple(2 * q, r - 1);
      TimesTwice(Pow2(r - 1), q);
      BlockStep(Pow2(r) * q, r - 1);
    }
  }

  lemma BlockStep(i: nat, r: nat)
    ensures Block(i, r + 1) == Block(i, r) / 2
  {
  }

  /** Seed s <= 2^m keeps the slot it has in the draw of 2^m, stretched by 2^(k-m). */
  lemma {:induction false} TopSeedSlot(k: nat, m: nat, s: nat)
    requires m <= k && 1 <= s <= Pow2(m)
    ensures s <= Pow2(k) && SeedSlot(k, s) == Pow2(k - m) * SeedSlot(m, s)
  {
    Pow2Mono(m, k);
    if m < k {
      Pow2Mono(m, k - 1);
      TopSeedSlot(k - 1, m, s);
      TimesTwice(Pow2(k - 1 - m), SeedSlot(m, s));
    }
  }

  lemma TopSeedBlock(k: nat, m: nat, s: nat)
    requires m <= k && 1 <= s <= Pow2(m)
    ensures s <= Pow2(k) && Block(SeedSlot(k, s), k - m) == SeedSlot(m, s)
  {
    TopSeedSlot(k, m, s);
    BlockOfMultiple(SeedSlot(m, s), k - m);
  }

  /** For every m, the top 2^m seeds fall one into each of the 2^m blocks. */
  lemma TopSeedsSeparated(k: nat, m: nat, s: nat, s': nat)
    requires m <= k && 1 <= s <= Pow2(m) && 1 <= s' <= Pow2(m)
    ensures s <= Pow2(k) && s' <= Pow2(k)
    ensures Block(SeedSlot(k, s), k - m) < Pow2(m)
    ensures Block(SeedSlot(k, s), k - m) == Block(SeedSlot(k, s'), k - m) <==> s == s'
  {
    TopSeedBlock(k, m, s);
    TopSeedBlock(k, m, s');
    BlockBound(k, SeedSlot(k, s), k - m);
    SlotHoldsSeed(m, s);
    SlotHoldsSeed(m, s');
  }

  // ---- Byes: the slots whose seed exceeds the number of teams ----

  /** A first-round pair never holds two byes, and holds one exactly when it holds a seed <= size - n. */
  lemma ByesGoToTopSeeds(n: nat, p: nat)
    requires n >= 2 && p < Pow2(RoundsFor(n) - 1)
    ensures var k := RoundsFor(n); var a, b := SeedOrder(k)[2 * p], SeedOrder(k)[2 * p + 1];
      && (a <= n || b <= n)
      && (a > n <==> b <= Pow2(k) - n)
      && (b > n <==> a <= Pow2(k) - n)
  {
    OpponentsSumToSizePlusOne(RoundsFor(n), p);
  }

  /** The first-round pairs that contain one of the seeds 1..b. */
  ghost function PairsWithSeedUpTo(k: nat, b: nat): set<nat>
    requires 1 <= k && b < Pow2(k - 1)
  {
    set p: nat | p < Pow2(k - 1) && (SeedOrder(k)[2 * p] <= b || SeedOrder(k)[2 * p + 1] <= b)
  }

  /** Only the pair of its slot contains a seed. */
  lemma PairOfSeed(k: nat, b: nat, p: nat)
    requires 1 <= k && 1 <= b <= Pow2(k) && p < Pow2(k - 1)
    requires SeedOrder(k)[2 * p] == b || SeedOrder(k)[2 * p + 1] == b
    ensures p == SeedSlot(k, b) / 2
  {
    SeedAtSlot(k, 2 * p);
    SeedAtSlot(k, 2 * p + 1);
  }

  /** Seed b adds the pair of its slot. */
  lemma NextPair(k: nat, b: nat, q: nat)
    requires 1 <= k && 1 <= b < Pow2(k - 1) && q == SeedSlot(k, b) / 2
    ensures q !in PairsWithSeedUpTo(k, b - 1)
    ensures PairsWithSeedUpTo(k, b) == PairsWithSeedUpTo(k, b - 1) + {q}
  {
    SlotHoldsSeed(k, b);
    OpponentsSumToSizePlusOne(k, q);
    forall p | p in PairsWithSeedUpTo(k, b) && p !in PairsWithSeedUpTo(k, b - 1)
      ensures p == q
    {
      PairOfSeed(k, b, p);
    }
  }

  lemma {:induction false} PairsWithSeedCount(k: nat, b: nat)
    requires 1 <= k && b < Pow2(k - 1)
    ensures |PairsWithSeedUpTo(k, b)| == b
  {
    if b == 0 {
      assert PairsWithSeedUpTo(k, b) == {};
    } else {
      PairsWithSeedCount(k, b - 1);
      NextPair(k, b, SeedSlot(k, b) / 2);
    }
  }
}
