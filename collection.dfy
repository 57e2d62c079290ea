/** The ordered collection behind `Product.offers`, seen as a plain sequence whose
    elements are compared by identity (strict `===`, which on objects is `==` here).
    Array keys of the underlying collection are not part of this view. */
module Collection {

  /** No element occurs twice. */
  predicate NoDuplicates<T(==)>(s: seq<T>) {
    forall i, j :: 0 <= i < j < |s| ==> s[i] != s[j]
  }

  /** Position of the first occurrence of `x`, as a strict search finds it. */
  function IndexOf<T(==)>(s: seq<T>, x: T): (i: nat)
    requires x in s
    ensures i < |s| && s[i] == x
    ensures x !in s[..i]
  {
    if s[0] == x then 0
    else
      assert s == [s[0]] + s[1..];
      1 + IndexOf(s[1..], x)
  }

  /** `removeElement`: takes out the first occurrence of `x`, if there is one,
      and leaves every other element where it was. */
  function RemoveElement<T(==)>(s: seq<T>, x: T): (r: seq<T>)
    ensures x !in s ==> r == s
    ensures x in s ==> |r| == |s| - 1
  {
    if s == [] then []
    else
      assert s == [s[0]] + s[1..];
      if s[0] == x then s[1..]
      else [s[0]] + RemoveElement(s[1..], x)
  }

  /** Exactly one occurrence of `x` leaves the collection, if it had one, and
      every other element stays. */
  lemma {:induction false} RemoveElementMultiset<T>(s: seq<T>, x: T)
    ensures multiset(RemoveElement(s, x)) == multiset(s) - multiset{x}
  {
    if s != [] {
      assert s == [s[0]] + s[1..];
      if s[0] != x {
        RemoveElementMultiset(s[1..], x);
      }
    }
  }

  /** Removal only ever drops an element: what is left was there before. */
  lemma RemoveElementSubset<T>(s: seq<T>, x: T, y: T)
    requires y in RemoveElement(s, x)
    ensures y in s
  {
    RemoveElementMultiset(s, x);
    assert y in multiset(RemoveElement(s, x));
  }

  /** Helper of `RemoveElementAt`: slicing the tail of a sequence is slicing the
      sequence one further on. */
  lemma SliceTail<T>(s: seq<T>, k: nat)
    requires k + 1 < |s|
    ensures [s[0]] + s[1..][..k] == s[..k + 1]
    ensures s[1..][k + 1..] == s[k + 2..]
  {
  }

  /** The other elements keep their relative order: the result is the input
      with exactly the position of the first `x` cut out. */
  lemma {:induction false} RemoveElementAt<T>(s: seq<T>, x: T, i: nat)
    requires i < |s| && s[i] == x && x !in s[..i]
    ensures RemoveElement(s, x) == s[..i] + s[i + 1..]
  {
    if i == 0 {
      assert RemoveElement(s, x) == s[1..];
      assert s[..0] + s[1..] == s[1..];
    } else {
      var t := s[1..];
      assert s[0] != x by { assert s[0] == s[..i][0]; }
      assert t[..i - 1] == s[1..i];
      RemoveElementAt(t, x, i - 1);
      SliceTail(s, i - 1);
      assert RemoveElement(s, x) == [s[0]] + (t[..i - 1] + t[i..]);
    }
  }

  /** The first occurrence that `IndexOf` finds is the one removal cuts out. */
  lemma RemoveElementAtIndexOf<T>(s: seq<T>, x: T)
    requires x in s
    ensures RemoveElement(s, x) == s[..IndexOf(s, x)] + s[IndexOf(s, x) + 1..]
  {
    RemoveElementAt(s, x, IndexOf(s, x));
  }

  /** A duplicate-free collection splits into a head that does not recur and a
      duplicate-free tail. */
  lemma NoDuplicatesTail<T>(s: seq<T>)
    requires NoDuplicates(s) && s != []
    ensures s[0] !in s[1..]
    ensures NoDuplicates(s[1..])
  {
    var t := s[1..];
    forall j | 0 <= j < |t| ensures t[j] != s[0] {
      assert t[j] == s[j + 1];
    }
    forall i, j | 0 <= i < j < |t| ensures t[i] != t[j] {
      assert t[i] == s[i + 1] && t[j] == s[j + 1];
    }
  }

  /** Putting an element in front of a duplicate-free collection that lacks it
      keeps it duplicate-free. */
  lemma ConsNoDuplicates<T>(x: T, s: seq<T>)
    requires NoDuplicates(s) && x !in s
    ensures NoDuplicates([x] + s)
  {
    var a := [x] + s;
    forall i, j | 0 <= i < j < |a| ensures a[i] != a[j] {
      assert a[j] == s[j - 1];
      if i > 0 {
        assert a[i] == s[i - 1];
      }
    }
  }

  /** On a collection without duplicates, removal keeps it duplicate-free and
      leaves no occurrence of the removed element behind. */
  lemma {:induction false} RemoveElementNoDuplicates<T>(s: seq<T>, x: T)
    requires NoDuplicates(s)
    ensures NoDuplicates(RemoveElement(s, x))
    ensures x !in RemoveElement(s, x)
  {
    if s != [] {
      var t := s[1..];
      NoDuplicatesTail(s);
      if s[0] != x {
        RemoveElementNoDuplicates(t, x);
        var r := RemoveElement(t, x);
        if s[0] in r {
          RemoveElementSubset(t, x, s[0]);
        }
        ConsNoDuplicates(s[0], r);
      }
    }
  }

  /** Appending an element that is not yet present keeps the collection
      duplicate-free. */
  lemma AppendNoDuplicates<T>(s: seq<T>, x: T)
    requires NoDuplicates(s) && x !in s
    ensures NoDuplicates(s + [x])
  {
    var a := s + [x];
    forall i, j | 0 <= i < j < |a| ensures a[i] != a[j] {
      if j == |s| {
        assert a[i] == s[i];
      } else {
        assert a[i] == s[i] && a[j] == s[j];
      }
    }
  }

  /** Appending an absent element and then removing it gives back the
      collection as it was. */
  lemma {:induction false} RemoveAppended<T>(s: seq<T>, x: T)
    requires x !in s
    ensures RemoveElement(s + [x], x) == s
  {
    if s != [] {
      assert (s + [x])[0] == s[0];
      assert (s + [x])[1..] == s[1..] + [x];
      RemoveAppended(s[1..], x);
      assert s == [s[0]] + s[1..];
    }
  }
}
