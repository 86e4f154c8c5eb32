/** Matching a configured key binding against the keys held in one tick. Both
    are lists of key names; the comparison is a length check plus containment
    of every binding key, which equals set equality only for duplicate-free lists. */
module Bindings {

  /** A key name as the input device reports it, e.g. "F3" or "LShift". */
  type Key = string

  /** The binding fires: as many keys are held as the binding names, and every
      key the binding names is held. */
  predicate Matches(binding: seq<Key>, held: seq<Key>): (r: bool)
    ensures r <==> |binding| == |held| && Elements(binding) <= Elements(held)
  {
    |binding| == |held| && forall k :: k in binding ==> k in held
  }

  predicate NoDuplicates(s: seq<Key>) {
    forall i, j :: 0 <= i < j < |s| ==> s[i] != s[j]
  }

  function Elements(s: seq<Key>): (e: set<Key>)
    ensures forall k :: k in e <==> k in s
  {
    set x | x in s
  }

  lemma {:induction false} DistinctCardinality(s: seq<Key>)
    requires NoDuplicates(s)
    ensures |Elements(s)| == |s|
  {
    if |s| > 0 {
      DistinctCardinality(s[1..]);
      assert Elements(s) == {s[0]} + Elements(s[1..]);
      assert s[0] !in Elements(s[1..]) by {
        forall j | 0 <= j < |s[1..]| ensures s[1..][j] != s[0] {
          assert s[1..][j] == s[j + 1];
        }
      }
    }
  }

  lemma {:induction false} CardinalityBound(s: seq<Key>)
    ensures |Elements(s)| <= |s|
  {
    if |s| > 0 {
      CardinalityBound(s[1..]);
      assert Elements(s) == {s[0]} + Elements(s[1..]);
    }
  }

  lemma {:induction false} SubsetOfEqualSize(a: set<Key>, b: set<Key>)
    requires a <= b && |a| == |b|
    ensures a == b
  {
    if a != b {
      var x :| x in b && x !in a;
      assert a <= b - {x};
      assert |b - {x}| == |b| - 1;
      SubsetCardinality(a, b - {x});
    }
  }

  lemma {:induction false} SubsetCardinality(a: set<Key>, b: set<Key>)
    requires a <= b
    ensures |a| <= |b|
    decreases |a|
  {
    if a != {} {
      var x :| x in a;
      SubsetCardinality(a - {x}, b - {x});
    }
  }

  /** For duplicate-free binding and held lists, the binding matches exactly
      when both name the same set of keys. */
  lemma MatchesIffSameKeys(binding: seq<Key>, held: seq<Key>)
    requires NoDuplicates(binding) && NoDuplicates(held)
    ensures Matches(binding, held) <==> Elements(binding) == Elements(held)
  {
    DistinctCardinality(binding);
    DistinctCardinality(held);
    if Matches(binding, held) {
      SubsetOfEqualSize(Elements(binding), Elements(held));
    }
  }

  /** Holding more keys than the binding names, or only part of them, never
      fires it (duplicate-free lists). */
  lemma StrictSubsetOrSupersetNeverMatches(binding: seq<Key>, held: seq<Key>)
    requires NoDuplicates(binding) && NoDuplicates(held)
    requires Elements(binding) < Elements(held) || Elements(held) < Elements(binding)
    ensures !Matches(binding, held)
  {
    MatchesIffSameKeys(binding, held);
  }

  /** With duplicate keys in the binding, the list comparison is not set
      equality: ["A", "A"] matches the held keys ["A", "B"]. */
  lemma DuplicateBindingQuirk()
    ensures Matches(["A", "A"], ["A", "B"])
    ensures Elements(["A", "A"]) != Elements(["A", "B"])
  {
    assert "B" in Elements(["A", "B"]);
  }

  /** Whatever the lists hold, a match means every binding key is held and the
      held list names no more distinct keys than the binding has entries. */
  lemma {:induction false} MatchBoundsHeldKeys(binding: seq<Key>, held: seq<Key>)
    requires Matches(binding, held)
    ensures Elements(binding) <= Elements(held)
    ensures |Elements(held)| <= |binding|
  {
    CardinalityBound(held);
  }
}
