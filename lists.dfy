/**
 * The three operations the group performs on its `List<EnemyAI>`:
 * `Contains`, `Add` and `Remove` (which removes the first occurrence only).
 */
module Lists {

  predicate NoDuplicates<T(==)>(s: seq<T>) {
    forall i, j :: 0 <= i < j < |s| ==> s[i] != s[j]
  }

  /** Position of the first occurrence of `x`. */
  function IndexOf<T(==)>(s: seq<T>, x: T): (i: nat)
    requires x in s
    ensures i < |s| && s[i] == x
    ensures x !in s[..i]
  {
    if s[0] == x then 0 else 1 + IndexOf(s[1..], x)
  }

  /** `List.Remove(x)`: drops the first occurrence of `x`, if any, keeping the order of the rest. */
  function RemoveFirst<T(==)>(s: seq<T>, x: T): (r: seq<T>)
  {
    if s == [] then []
    else if s[0] == x then s[1..]
    else [s[0]] + RemoveFirst(s[1..], x)
  }

  /** Removing an absent element changes nothing; otherwise exactly the first occurrence goes. */
  lemma {:induction false} RemoveFirstSpec<T>(s: seq<T>, x: T)
    ensures x !in s ==> RemoveFirst(s, x) == s
    ensures x in s ==> RemoveFirst(s, x) == s[..IndexOf(s, x)] + s[IndexOf(s, x) + 1..]
  {
    if s != [] && s[0] != x {
      RemoveFirstSpec(s[1..], x);
      if x in s {
        assert x in s[1..];
        var i := IndexOf(s[1..], x);
        assert IndexOf(s, x) == i + 1;
        assert s[..i + 1] == [s[0]] + s[1..][..i];
        assert s[i + 2..] == s[1..][i + 1..];
      }
    }
  }

  /** Dropping position `i` shifts every later element down by one. */
  lemma DropAt<T>(s: seq<T>, i: nat, r: seq<T>)
    requires i < |s| && r == s[..i] + s[i + 1..]
    ensures |r| == |s| - 1
    ensures forall k :: 0 <= k < |r| ==> r[k] == s[if k < i then k else k + 1]
  {
  }

  /**
   * On a duplicate-free list, removing `x` leaves a duplicate-free list that
   * holds every other member and not `x`.
   */
  lemma RemoveFromDistinct<T>(s: seq<T>, x: T)
    requires NoDuplicates(s)
    ensures NoDuplicates(RemoveFirst(s, x))
    ensures x !in RemoveFirst(s, x)
    ensures forall y :: y != x ==> (y in RemoveFirst(s, x) <==> y in s)
    ensures |RemoveFirst(s, x)| == if x in s then |s| - 1 else |s|
  {
    RemoveFirstSpec(s, x);
    if x in s {
      var i := IndexOf(s, x);
      var r := s[..i] + s[i + 1..];
      DropAt(s, i, r);
      forall a, b | 0 <= a < b < |r|
        ensures r[a] != r[b]
      {
        assert r[a] == s[if a < i then a else a + 1];
        assert r[b] == s[if b < i then b else b + 1];
      }
      forall k | 0 <= k < |r|
        ensures r[k] != x && r[k] in s
      {
        assert r[k] == s[if k < i then k else k + 1];
      }
      forall y | y != x && y in s
        ensures y in r
      {
        var k :| 0 <= k < |s| && s[k] == y;
        assert k != i;
        assert r[if k < i then k else k - 1] == y;
      }
    }
  }

  /** `if (!Contains(x)) Add(x)` keeps a list duplicate-free. */
  lemma AddIfAbsent<T>(s: seq<T>, x: T)
    requires NoDuplicates(s)
    ensures NoDuplicates(if x in s then s else s + [x])
  {
  }
}
