/** Repetition in sequences, by counting. */
module Sequences {
  ghost predicate NoRepeat<T(!new)>(s: seq<T>) {
    forall i, j :: 0 <= i < j < |s| ==> s[i] != s[j]
  }

  lemma {:induction false} NoRepeatCounts<T(!new)>(s: seq<T>, x: T)
    requires NoRepeat(s)
    ensures multiset(s)[x] == if x in s then 1 else 0
  {
    if s != [] {
      var n := |s| - 1;
      assert s == s[..n] + [s[n]];
      NoRepeatCounts(s[..n], x);
    }
  }

  lemma {:induction false} RepeatCounts<T>(s: seq<T>, i: nat, j: nat)
    requires i < j < |s| && s[i] == s[j]
    ensures multiset(s)[s[i]] >= 2
  {
    assert s == s[..j] + [s[j]] + s[j + 1..];
    assert s[..j][i] == s[i] && s[i] in multiset(s[..j]);
  }

  /** Two sequences with the same elements, one without repeats: equal as multisets exactly
      when the other has none either. */
  lemma SameElementsSameMultiset<T(!new)>(s: seq<T>, t: seq<T>)
    requires NoRepeat(s)
    ensures multiset(s) == multiset(t) ==> NoRepeat(t)
    ensures NoRepeat(t) && (forall x :: x in s <==> x in t) ==> multiset(s) == multiset(t)
  {
    if multiset(s) == multiset(t) {
      forall i, j | 0 <= i < j < |t|
        ensures t[i] != t[j]
      {
        if t[i] == t[j] {
          RepeatCounts(t, i, j);
          NoRepeatCounts(s, t[i]);
        }
      }
    }
    if NoRepeat(t) && (forall x :: x in s <==> x in t) {
      forall x
        ensures multiset(s)[x] == multiset(t)[x]
      {
        NoRepeatCounts(s, x);
        NoRepeatCounts(t, x);
      }
    }
  }
}
