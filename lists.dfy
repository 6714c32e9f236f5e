/** The three operations of a Kotlin `ArrayList<String>` that the allow-list
    toggles of the preference facade use, on sequences: `contains` is sequence
    membership, `remove(element)` deletes the FIRST occurrence of the element
    (and nothing when there is none), `add(element)` appends at the end. */
module Lists {

  /** No element occurs twice. */
  ghost predicate NoDup<T>(s: seq<T>) {
    forall i, j | 0 <= i < j < |s| :: s[i] != s[j]
  }

  /** No element of `a` occurs in `b`. */
  ghost predicate Disjoint<T>(a: seq<T>, b: seq<T>) {
    forall i, j | 0 <= i < |a| && 0 <= j < |b| :: a[i] != b[j]
  }

  /** Two duplicate-free lists with no element in common concatenate to a
      duplicate-free list. */
  lemma NoDupAppend<T>(a: seq<T>, b: seq<T>)
    requires NoDup(a) && NoDup(b) && Disjoint(a, b)
    ensures NoDup(a + b)
  {
    var c := a + b;
    forall i, j | 0 <= i < j < |c| ensures c[i] != c[j] {
      if i < |a| && j >= |a| {
        assert c[i] == a[i] && c[j] == b[j - |a|];
      }
    }
  }

  /** The position of the first occurrence of `x` in `s`. */
  function IndexOf<T(==)>(s: seq<T>, x: T): (i: nat)
    requires x in s
    ensures i < |s| && s[i] == x && x !in s[..i]
  {
    if s[0] == x then 0
    else
      var i := 1 + IndexOf(s[1..], x);
      assert s[..i] == [s[0]] + s[1..][..i - 1];
      i
  }

  /** `ArrayList.remove(element)`: the first occurrence of `x` is cut out,
      everything before and after it keeps its relative order; a list
      without `x` is left as it is. */
  function RemoveFirst<T(==)>(s: seq<T>, x: T): (r: seq<T>)
    ensures x !in s ==> r == s
    ensures x in s ==> |r| == |s| - 1
  {
    if x in s then
      var i := IndexOf(s, x);
      s[..i] + s[i + 1..]
    else s
  }

  /** Removing the first occurrence takes exactly one copy of `x` out of the
      multiset of elements. */
  lemma {:induction false} RemoveFirstMultiset<T>(s: seq<T>, x: T)
    ensures x in s ==> multiset(RemoveFirst(s, x)) == multiset(s) - multiset{x}
    ensures x !in s ==> multiset(RemoveFirst(s, x)) == multiset(s)
  {
    if x in s {
      var i := IndexOf(s, x);
      assert s == s[..i] + [x] + s[i + 1..];
      calc {
        multiset(s);
        multiset(s[..i]) + multiset{x} + multiset(s[i + 1..]);
        multiset(RemoveFirst(s, x)) + multiset{x};
      }
    }
  }

  /** Every element other than `x` is as present after the removal as
      before it. */
  lemma {:induction false} RemoveFirstKeepsOthers<T>(s: seq<T>, x: T, y: T)
    requires y != x
    ensures y in RemoveFirst(s, x) <==> y in s
  {
    if x in s {
      var i := IndexOf(s, x);
      var a, b := s[..i], s[i + 1..];
      assert RemoveFirst(s, x) == a + b;
      assert s == a + [x] + b;
      assert y in a + b <==> y in a || y in b;
      assert y in a + [x] + b <==> y in a || y == x || y in b;
    }
  }

  /** On a duplicate-free list the removal keeps it duplicate-free and leaves
      no copy of `x` behind. */
  lemma {:induction false} RemoveFirstNoDup<T>(s: seq<T>, x: T)
    requires NoDup(s)
    ensures NoDup(RemoveFirst(s, x))
    ensures x !in RemoveFirst(s, x)
  {
    if x in s {
      var i := IndexOf(s, x);
      var r := RemoveFirst(s, x);
      RemoveFirstIndex(s, x);
      forall k, l | 0 <= k < l < |r| ensures r[k] != r[l] {
        assert r[k] == s[Skip(k, i)] && r[l] == s[Skip(l, i)];
      }
      forall k | 0 <= k < |r| ensures r[k] != x {
        assert r[k] == s[Skip(k, i)];
      }
    }
  }

  /** Position `k` of the list after the removal holds what position
      `Skip(k, i)` of the list held, `i` being the removed position. */
  lemma RemoveFirstIndex<T>(s: seq<T>, x: T)
    requires x in s
    ensures |RemoveFirst(s, x)| == |s| - 1
    ensures forall k | 0 <= k < |s| - 1 ::
              RemoveFirst(s, x)[k] == s[Skip(k, IndexOf(s, x))]
  {
    var i := IndexOf(s, x);
    var a, b := s[..i], s[i + 1..];
    assert RemoveFirst(s, x) == a + b;
    forall k | 0 <= k < |s| - 1 ensures (a + b)[k] == s[Skip(k, i)] {
      if k < i {
        assert (a + b)[k] == a[k];
      } else {
        assert (a + b)[k] == b[k - i];
      }
    }
  }

  /** The position in the original list of position `k` of the list with
      position `i` cut out. */
  function Skip(k: nat, i: nat): nat {
    if k < i then k else k + 1
  }

  /** The allow-list toggle: when `x` is in the list its first occurrence is
      removed, otherwise `x` is appended at the end. */
  function Toggle<T(==)>(s: seq<T>, x: T): (r: seq<T>)
    ensures x in s ==> |r| == |s| - 1
    ensures x !in s ==> |r| == |s| + 1 && r[|s|] == x && r[..|s|] == s
  {
    if x in s then RemoveFirst(s, x) else s + [x]
  }

  /** On a duplicate-free list the toggle keeps the list duplicate-free, flips
      the membership of `x` and leaves the membership of every other element
      as it was. */
  lemma {:induction false} ToggleFlips<T>(s: seq<T>, x: T)
    requires NoDup(s)
    ensures NoDup(Toggle(s, x))
    ensures x in Toggle(s, x) <==> x !in s
    ensures forall y :: y != x ==> (y in Toggle(s, x) <==> y in s)
  {
    if x in s {
      RemoveFirstNoDup(s, x);
      forall y | y != x ensures y in Toggle(s, x) <==> y in s {
        RemoveFirstKeepsOthers(s, x, y);
      }
    } else {
      var r := s + [x];
      forall i, j | 0 <= i < j < |r| ensures r[i] != r[j] {
        if j == |s| {
          assert r[i] == s[i];
        }
      }
    }
  }

  /** Toggling an absent element twice gives back exactly the list. */
  lemma {:induction false} ToggleTwiceAbsent<T>(s: seq<T>, x: T)
    requires x !in s
    ensures Toggle(Toggle(s, x), x) == s
  {
    var t := s + [x];
    assert t[..|s|] == s;
  }

  /** Removing the first occurrence of the last element of a duplicate-free
      list drops that last element. */
  lemma {:induction false} RemoveFirstOfLast<T>(s: seq<T>)
    requires NoDup(s) && |s| > 0
    ensures RemoveFirst(s, s[|s| - 1]) + [s[|s| - 1]] == s
  {
    var x := s[|s| - 1];
    var i := IndexOf(s, x);
    assert i == |s| - 1;
    assert s[i + 1..] == [];
    assert s[..i] + [x] == s;
  }

  /** Toggling a present element twice on a duplicate-free list keeps the
      same elements but moves `x` to the end: the list comes back unchanged
      exactly when `x` was already its last element. */
  lemma {:induction false} ToggleTwicePresent<T>(s: seq<T>, x: T)
    requires NoDup(s) && x in s
    ensures Toggle(Toggle(s, x), x) == RemoveFirst(s, x) + [x]
    ensures multiset(Toggle(Toggle(s, x), x)) == multiset(s)
    ensures Toggle(Toggle(s, x), x) == s <==> s[|s| - 1] == x
  {
    RemoveFirstNoDup(s, x);
    RemoveFirstMultiset(s, x);
    var t := RemoveFirst(s, x) + [x];
    assert Toggle(Toggle(s, x), x) == t;
    assert t[|t| - 1] == x;
    if s[|s| - 1] == x {
      RemoveFirstOfLast(s);
    }
  }
}
