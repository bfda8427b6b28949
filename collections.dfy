// Sequence helpers: Python's "append if not already in the list" idiom and
// projections of lists of pairs.
module Collections {

  predicate NoDup<T(==)>(s: seq<T>) {
    forall i, j :: 0 <= i < j < |s| ==> s[i] != s[j]
  }

  /** The elements of s in order of first appearance, each once: the list a
      loop builds with `if x not in res: res.append(x)`. */
  function Dedupe<T(==)>(s: seq<T>): (r: seq<T>)
    ensures NoDup(r)
    ensures |r| <= |s|
  {
    if s == [] then []
    else
      var d := Dedupe(s[..|s| - 1]);
      if s[|s| - 1] in d then d else d + [s[|s| - 1]]
  }

  /** De-duplicating keeps exactly the elements of the input. */
  lemma {:induction false} DedupeMembers<T>(s: seq<T>, x: T)
    ensures x in Dedupe(s) <==> x in s
  {
    if s != [] {
      var init := s[..|s| - 1];
      DedupeMembers(init, x);
      assert s == init + [s[|s| - 1]];
    }
  }

  /** Dedupe extends step by step: one more input element adds itself at the
      end exactly when it is new. */
  lemma DedupeSnoc<T>(s: seq<T>, x: T)
    ensures Dedupe(s + [x]) == if x in Dedupe(s) then Dedupe(s) else Dedupe(s) + [x]
  {
    assert (s + [x])[..|s + [x]| - 1] == s;
  }

  /** No duplicates means every element occurs once. */
  lemma {:induction false} NoDupMultiplicity<T>(s: seq<T>)
    ensures NoDup(s) <==> forall x :: multiset(s)[x] <= 1
  {
    if s != [] {
      var t, y := s[..|s| - 1], s[|s| - 1];
      assert s == t + [y];
      NoDupMultiplicity(t);
      assert multiset(s) == multiset(t) + multiset{y};
      if NoDup(s) {
        assert NoDup(t);
        assert y !in t;
        assert multiset(t)[y] == 0;
      } else {
        var i, j :| 0 <= i < j < |s| && s[i] == s[j];
        if j < |s| - 1 {
          assert t[i] == t[j];
          var x :| multiset(t)[x] > 1;
          assert multiset(s)[x] > 1;
        } else {
          assert t[i] == y;
          assert multiset(s)[y] >= 2;
        }
      }
    }
  }

  /** A rearrangement of a list without duplicates has none either. */
  lemma PermutationNoDup<T>(s: seq<T>, t: seq<T>)
    requires multiset(s) == multiset(t) && NoDup(s)
    ensures NoDup(t)
  {
    NoDupMultiplicity(s);
    NoDupMultiplicity(t);
  }

  /** The second components of a list of pairs, in order. */
  function Seconds<A, B>(s: seq<(A, B)>): (r: seq<B>)
    ensures |r| == |s|
    ensures forall i :: 0 <= i < |s| ==> r[i] == s[i].1
  {
    seq(|s|, i requires 0 <= i < |s| => s[i].1)
  }

  /** Python's zip of two lists of equal length. */
  function Zip<A, B>(a: seq<A>, b: seq<B>): (r: seq<(A, B)>)
    requires |a| == |b|
    ensures |r| == |a|
    ensures forall i :: 0 <= i < |a| ==> r[i] == (a[i], b[i])
  {
    seq(|a|, i requires 0 <= i < |a| => (a[i], b[i]))
  }

  /** Rearranging a list of pairs rearranges its second components alike. */
  lemma {:induction false} SecondsPermutation<A, B>(s: seq<(A, B)>, t: seq<(A, B)>)
    requires multiset(s) == multiset(t)
    ensures multiset(Seconds(s)) == multiset(Seconds(t))
    decreases |s|
  {
    if s == [] {
      assert |t| == |multiset(t)| == 0;
    } else {
      var x := s[0];
      assert x in multiset(t);
      var k :| 0 <= k < |t| && t[k] == x;
      RemoveAtMultiset(s, 0);
      RemoveAtMultiset(t, k);
      MultisetCancel(multiset(RemoveAt(s, 0)), multiset(RemoveAt(t, k)), x);
      SecondsPermutation(RemoveAt(s, 0), RemoveAt(t, k));
      SecondsRemoveAt(s, 0);
      SecondsRemoveAt(t, k);
    }
  }

  function RemoveAt<T>(t: seq<T>, k: nat): seq<T>
    requires k < |t|
  {
    t[..k] + t[k + 1..]
  }

  lemma RemoveAtMultiset<T>(t: seq<T>, k: nat)
    requires k < |t|
    ensures multiset(RemoveAt(t, k)) + multiset{t[k]} == multiset(t)
  {
    assert t == t[..k] + [t[k]] + t[k + 1..];
  }

  lemma MultisetCancel<T>(a: multiset<T>, b: multiset<T>, x: T)
    requires a + multiset{x} == b + multiset{x}
    ensures a == b
  {
    forall y ensures a[y] == b[y] {
      assert (a + multiset{x})[y] == (b + multiset{x})[y];
    }
  }

  lemma SecondsRemoveAt<A, B>(t: seq<(A, B)>, k: nat)
    requires k < |t|
    ensures multiset(Seconds(t)) == multiset(Seconds(RemoveAt(t, k))) + multiset{t[k].1}
  {
    var l := Seconds(t);
    var r := Seconds(RemoveAt(t, k));
    assert l == l[..k] + [l[k]] + l[k + 1..];
    assert r == l[..k] + l[k + 1..];
    RemoveAtMultiset(l, k);
  }
}
