/**
 * Generic list operations the source performs through JavaScript's Array.find / findIndex /
 * filter / reduce and Java's List.remove, over records identified by an integer key.
 * The key is passed as a function value (`LineId`, `ProductId`, ...).
 */
module Seqs {

  /** Position of the first element whose key is `id`, or |s| when there is none (find / findIndex). */
  function KeyIndex<T>(s: seq<T>, key: T -> int, id: int): (i: nat)
    ensures i <= |s|
    ensures i < |s| ==> key(s[i]) == id
    ensures forall k :: 0 <= k < i ==> key(s[k]) != id
  {
    if s == [] then 0
    else if key(s[0]) == id then 0
    else 1 + KeyIndex(s[1..], key, id)
  }

  /** Position of the first occurrence of x, or |s| when there is none (List.indexOf). */
  function IndexOf<T(==)>(s: seq<T>, x: T): (i: nat)
    ensures i <= |s|
    ensures i < |s| ==> s[i] == x
    ensures forall k :: 0 <= k < i ==> s[k] != x
    ensures i == |s| <==> x !in s
  {
    if s == [] then 0
    else if s[0] == x then 0
    else 1 + IndexOf(s[1..], x)
  }

  /** Removing the only occurrence of x leaves no x behind. */
  lemma RemoveOnlyOccurrence<T>(s: seq<T>, i: nat)
    requires i < |s| && multiset(s)[s[i]] == 1
    ensures s[i] !in s[..i] + s[i + 1..]
  {
    assert s == s[..i] + [s[i]] + s[i + 1..];
    assert multiset(s) == multiset(s[..i]) + multiset([s[i]]) + multiset(s[i + 1..]);
    assert multiset(s[..i] + s[i + 1..]) == multiset(s[..i]) + multiset(s[i + 1..]);
  }

  /** The elements whose key is not `id`, in their original order (filter(x => x.id !== id)). */
  function WithoutKey<T>(s: seq<T>, key: T -> int, id: int): (r: seq<T>)
    ensures |r| <= |s|
    ensures forall k :: 0 <= k < |r| ==> r[k] in s && key(r[k]) != id
    ensures forall k :: 0 <= k < |s| && key(s[k]) != id ==> s[k] in r
  {
    if s == [] then []
    else if key(s[0]) == id then WithoutKey(s[1..], key, id)
    else [s[0]] + WithoutKey(s[1..], key, id)
  }

  /** The elements satisfying p, in their original order (Array.filter). */
  function Filter<T>(s: seq<T>, p: T -> bool): (r: seq<T>)
    ensures |r| <= |s|
    ensures forall k :: 0 <= k < |r| ==> r[k] in s && p(r[k])
    ensures forall k :: 0 <= k < |s| && p(s[k]) ==> s[k] in r
  {
    if s == [] then []
    else if p(s[0]) then [s[0]] + Filter(s[1..], p)
    else Filter(s[1..], p)
  }

  /** The sum of f over s (reduce((acc, x) => acc + f(x), 0)). */
  function Sum<T>(s: seq<T>, f: T -> int): int
  {
    if s == [] then 0 else f(s[0]) + Sum(s[1..], f)
  }

  /** At most one element per key. */
  ghost predicate UniqueKeys<T>(s: seq<T>, key: T -> int)
  {
    forall i, j :: 0 <= i < j < |s| ==> key(s[i]) != key(s[j])
  }

  /** The key occurs in s. */
  ghost predicate HasKey<T>(s: seq<T>, key: T -> int, id: int)
  {
    exists k :: 0 <= k < |s| && key(s[k]) == id
  }

  lemma KeyIndexFinds<T>(s: seq<T>, key: T -> int, id: int)
    ensures KeyIndex(s, key, id) < |s| <==> HasKey(s, key, id)
  {
    var i := KeyIndex(s, key, id);
    if HasKey(s, key, id) {
      var k :| 0 <= k < |s| && key(s[k]) == id;
      assert i <= k;
    }
  }

  lemma {:induction false} SumAppend<T>(a: seq<T>, b: seq<T>, f: T -> int)
    ensures Sum(a + b, f) == Sum(a, f) + Sum(b, f)
  {
    if a == [] {
      assert a + b == b;
    } else {
      assert (a + b)[1..] == a[1..] + b;
      SumAppend(a[1..], b, f);
    }
  }

  lemma SumSplit<T>(s: seq<T>, i: nat, f: T -> int)
    requires i < |s|
    ensures Sum(s, f) == Sum(s[..i], f) + f(s[i]) + Sum(s[i + 1..], f)
  {
    assert s == s[..i] + ([s[i]] + s[i + 1..]);
    SumAppend(s[..i], [s[i]] + s[i + 1..], f);
  }

  /** Sum over a prefix one element longer: the step a left-to-right accumulator loop takes. */
  lemma SumPrefixStep<T>(s: seq<T>, i: nat, f: T -> int)
    requires i < |s|
    ensures Sum(s[..i + 1], f) == Sum(s[..i], f) + f(s[i])
  {
    assert s[..i + 1] == s[..i] + [s[i]];
    SumAppend(s[..i], [s[i]], f);
  }

  /** Replacing one element changes the sum by the difference of the two values. */
  lemma SumUpdate<T>(s: seq<T>, i: nat, x: T, f: T -> int)
    requires i < |s|
    ensures Sum(s[i := x], f) == Sum(s, f) - f(s[i]) + f(x)
  {
    SumSplit(s, i, f);
    SumSplit(s[i := x], i, f);
    assert s[i := x][..i] == s[..i];
    assert s[i := x][i + 1..] == s[i + 1..];
  }

  /** With unique keys, removing a key drops exactly the one element that carries it. */
  lemma {:induction false} WithoutUniqueKey<T>(s: seq<T>, key: T -> int, id: int)
    requires UniqueKeys(s, key)
    ensures var i := KeyIndex(s, key, id);
      WithoutKey(s, key, id) == if i < |s| then s[..i] + s[i + 1..] else s
  {
    if s != [] {
      UniqueTail(s, key);
      WithoutUniqueKey(s[1..], key, id);
      if key(s[0]) == id {
        WithoutAbsentKey(s[1..], key, id);
        assert s[1..] == s[..0] + s[1..];
      } else {
        TailStep(s, key, id, KeyIndex(s[1..], key, id));
      }
    }
  }

  lemma UniqueTail<T>(s: seq<T>, key: T -> int)
    requires s != [] && UniqueKeys(s, key)
    ensures UniqueKeys(s[1..], key)
    ensures !HasKey(s[1..], key, key(s[0]))
  {
    var t := s[1..];
    forall i, j | 0 <= i < j < |t| ensures key(t[i]) != key(t[j]) {
      assert t[i] == s[i + 1] && t[j] == s[j + 1];
    }
    forall k | 0 <= k < |t| ensures key(t[k]) != key(s[0]) {
      assert t[k] == s[k + 1];
    }
  }

  /** Removing a key that does not occur changes nothing. */
  lemma {:induction false} WithoutAbsentKey<T>(s: seq<T>, key: T -> int, id: int)
    requires !HasKey(s, key, id)
    ensures WithoutKey(s, key, id) == s
    ensures KeyIndex(s, key, id) == |s|
  {
    if s != [] {
      var t := s[1..];
      assert !HasKey(t, key, id) by {
        forall k | 0 <= k < |t| ensures key(t[k]) != id {
          assert t[k] == s[k + 1];
        }
      }
      WithoutAbsentKey(t, key, id);
      assert [s[0]] + t == s;
    }
  }

  /** The recursive step of WithoutUniqueKey when the head's key differs; j is the tail's index. */
  lemma TailStep<T>(s: seq<T>, key: T -> int, id: int, j: nat)
    requires s != [] && key(s[0]) != id && j == KeyIndex(s[1..], key, id)
    requires j < |s| - 1 ==> WithoutKey(s[1..], key, id) == s[1..][..j] + s[1..][j + 1..]
    requires j == |s| - 1 ==> WithoutKey(s[1..], key, id) == s[1..]
    ensures j + 1 < |s| ==> WithoutKey(s, key, id) == s[..j + 1] + s[j + 2..]
    ensures j + 1 == |s| ==> WithoutKey(s, key, id) == s
  {
    if j < |s| - 1 {
      assert [s[0]] + (s[1..][..j] + s[1..][j + 1..]) == s[..j + 1] + s[j + 2..];
    } else {
      assert [s[0]] + s[1..] == s;
    }
  }

  /** Removing a key from a sequence with unique keys subtracts that element from any sum. */
  lemma SumWithoutUniqueKey<T>(s: seq<T>, key: T -> int, id: int, f: T -> int)
    requires UniqueKeys(s, key)
    ensures var i := KeyIndex(s, key, id);
      Sum(WithoutKey(s, key, id), f) == Sum(s, f) - (if i < |s| then f(s[i]) else 0)
  {
    WithoutUniqueKey(s, key, id);
    var i := KeyIndex(s, key, id);
    if i < |s| {
      SumSplit(s, i, f);
      SumAppend(s[..i], s[i + 1..], f);
    }
  }

  lemma {:induction false} WithoutKeyKeepsUnique<T>(s: seq<T>, key: T -> int, id: int)
    requires UniqueKeys(s, key)
    ensures UniqueKeys(WithoutKey(s, key, id), key)
  {
    if s != [] {
      UniqueTail(s, key);
      WithoutKeyKeepsUnique(s[1..], key, id);
      if key(s[0]) != id {
        var t := WithoutKey(s[1..], key, id);
        forall m | 0 <= m < |t| ensures key(t[m]) != key(s[0]) {
          assert t[m] in s[1..];
          var k :| 0 <= k < |s[1..]| && s[1..][k] == t[m];
          assert s[k + 1] == t[m];
        }
        var r := [s[0]] + t;
        forall i, j | 0 <= i < j < |r| ensures key(r[i]) != key(r[j]) {
          if i == 0 {
            assert r[j] == t[j - 1];
          } else {
            assert r[i] == t[i - 1] && r[j] == t[j - 1];
          }
        }
      }
    }
  }

  /** Appending an element with a fresh key keeps keys unique. */
  lemma AppendFreshKeepsUnique<T>(s: seq<T>, x: T, key: T -> int)
    requires UniqueKeys(s, key)
    requires !HasKey(s, key, key(x))
    ensures UniqueKeys(s + [x], key)
  {
    var r := s + [x];
    forall i, j | 0 <= i < j < |r| ensures key(r[i]) != key(r[j]) {
      if j == |s| {
        assert r[i] == s[i];
      } else {
        assert r[i] == s[i] && r[j] == s[j];
      }
    }
  }

  /** Replacing an element by one with the same key keeps keys unique. */
  lemma UpdateSameKeyKeepsUnique<T>(s: seq<T>, i: nat, x: T, key: T -> int)
    requires UniqueKeys(s, key)
    requires i < |s| && key(x) == key(s[i])
    ensures UniqueKeys(s[i := x], key)
  {
  }

  /** Two sequences whose elements have equal values position by position have equal sums. */
  lemma {:induction false} SumPointwise<A, B>(a: seq<A>, f: A -> int, b: seq<B>, g: B -> int)
    requires |a| == |b|
    requires forall k :: 0 <= k < |a| ==> f(a[k]) == g(b[k])
    ensures Sum(a, f) == Sum(b, g)
  {
    if a != [] {
      assert forall k :: 0 <= k < |a[1..]| ==> a[1..][k] == a[k + 1] && b[1..][k] == b[k + 1];
      SumPointwise(a[1..], f, b[1..], g);
    }
  }

  /** The elements of s in reverse order (Array.prototype.reverse). */
  function Reverse<T>(s: seq<T>): (r: seq<T>)
    ensures |r| == |s|
    ensures forall k :: 0 <= k < |s| ==> r[k] == s[|s| - 1 - k]
  {
    if s == [] then [] else Reverse(s[1..]) + [s[0]]
  }

  /** Removing the element at position i (splice(i, 1)) keeps keys unique and drops its key. */
  lemma RemoveAtUnique<T>(s: seq<T>, i: nat, key: T -> int)
    requires i < |s| && UniqueKeys(s, key)
    ensures UniqueKeys(s[..i] + s[i + 1..], key)
    ensures !HasKey(s[..i] + s[i + 1..], key, key(s[i]))
  {
    var r := s[..i] + s[i + 1..];
    assert forall k :: 0 <= k < |r| ==> r[k] == if k < i then s[k] else s[k + 1];
  }
}
