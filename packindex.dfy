/** Moving the current sound-pack index backwards and forwards with wraparound
    over `n` loaded packs. */
module PackIndex {

  /** "Previous pack" as the loop writes it: index 0 first becomes `n`, any
      other index is decremented, and the result is taken modulo `n`. Since
      `n % n == 0`, index 0 stays at 0 instead of wrapping to the last pack. */
  function PrevPackAsWritten(i: nat, n: nat): (r: nat)
    requires n > 0
    ensures r < n
    ensures i < n ==> r == if i == 0 then 0 else i - 1
  {
    if i == 0 then
      ModUnique(n, n, 1, 0);
      n % n
    else
      if i <= n then ModUnique(i - 1, n, 0, i - 1); (i - 1) % n
      else (i - 1) % n
  }

  /** With two packs, "next" from pack 1 reaches pack 0, and the as-written
      "previous" then stays on pack 0 rather than returning to pack 1. */
  lemma PrevPackAsWrittenDoesNotWrap()
    ensures NextPack(1, 2) == 0
    ensures PrevPackAsWritten(NextPack(1, 2), 2) == 0
  {
  }

  /** "Previous pack" as intended: one place back, wrapping from the first
      pack to the last. */
  function PrevPack(i: nat, n: nat): (r: nat)
    requires n > 0
    ensures r < n
    ensures i < n ==> r == if i == 0 then n - 1 else i - 1
  {
    if i == 0 then
      ModUnique(n - 1, n, 0, n - 1);
      (i + n - 1) % n
    else if i <= n then
      ModUnique(i + n - 1, n, 1, i - 1);
      (i + n - 1) % n
    else (i + n - 1) % n
  }

  /** "Next pack": increment, then take the result modulo `n`. */
  function NextPack(i: nat, n: nat): (r: nat)
    requires n > 0
    ensures r < n
    ensures i + 1 < n ==> r == i + 1
    ensures i + 1 == n ==> r == 0
  {
    if i + 1 < n then
      ModUnique(i + 1, n, 0, i + 1);
      (i + 1) % n
    else if i + 1 == n then
      ModUnique(i + 1, n, 1, 0);
      (i + 1) % n
    else (i + 1) % n
  }

  /** The index after `k` "next" steps. */
  function NextTimes(i: nat, n: nat, k: nat): (r: nat)
    requires n > 0
    ensures r < n
  {
    if k == 0 then i % n else NextPack(NextTimes(i, n, k - 1), n)
  }

  /** "Previous" undoes "next". */
  lemma PrevAfterNext(i: nat, n: nat)
    requires n > 0 && i < n
    ensures PrevPack(NextPack(i, n), n) == i
  {
  }

  /** "Next" undoes "previous". */
  lemma NextAfterPrev(i: nat, n: nat)
    requires n > 0 && i < n
    ensures NextPack(PrevPack(i, n), n) == i
  {
  }

  /** The quotient and remainder of `x` by `n` are the only ones with `0 <= m < n`. */
  lemma ModUnique(x: int, n: int, q: int, m: int)
    requires n > 0 && 0 <= m < n && x == q * n + m
    ensures x % n == m
  {
    var q', m' := x / n, x % n;
    assert x == q' * n + m';
    assert (q - q') * n == m' - m;
    if q > q' {
      MulAtLeast(q - q', n);
      assert false;
    } else if q < q' {
      MulAtLeast(q' - q, n);
      assert false;
    }
  }

  lemma MulAtLeast(d: int, n: int)
    requires d >= 1 && n > 0
    ensures d * n >= n
  {
    assert d * n == (d - 1) * n + n;
  }

  /** Adding one to `x` adds one to its remainder, wrapping to 0 at `n`. */
  lemma ModSucc(x: nat, n: nat)
    requires n > 0
    ensures x % n + 1 < n ==> (x + 1) % n == x % n + 1
    ensures x % n + 1 == n ==> (x + 1) % n == 0
  {
    var q, m := x / n, x % n;
    assert x == q * n + m;
    if m + 1 < n {
      ModUnique(x + 1, n, q, m + 1);
    } else {
      assert x + 1 == (q + 1) * n;
      ModUnique(x + 1, n, q + 1, 0);
    }
  }

  /** `k` "next" steps move the index `k` places forward, modulo `n`. */
  lemma {:induction false} NextTimesIsShift(i: nat, n: nat, k: nat)
    requires n > 0
    ensures NextTimes(i, n, k) == (i + k) % n
  {
    if k > 0 {
      NextTimesIsShift(i, n, k - 1);
      ModSucc(i + k - 1, n);
    }
  }

  /** `n` "next" steps from any valid index return to it. */
  lemma FullCycleReturns(i: nat, n: nat)
    requires n > 0 && i < n
    ensures NextTimes(i, n, n) == i
  {
    NextTimesIsShift(i, n, n);
    ModUnique(i + n, n, 1, i);
  }
}
