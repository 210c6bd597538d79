/** The behaviour of .NET's List<T>.Remove, which the subject relies on: it
    deletes the first element equal to its argument (found by a linear IndexOf
    search) or leaves the list as it is. List<T>.Add is sequence append,
    written `+ [o]` where the subject attaches an observer. */
module ListOps {

  /** List<T>.Remove(x) on the list's contents: the first occurrence of x is
      dropped; a list without x comes back unchanged. */
  function RemoveFirst<T(==)>(s: seq<T>, x: T): (r: seq<T>)
    ensures |r| == if x in s then |s| - 1 else |s|
  {
    if s == [] then []
    else if s[0] == x then s[1..]
    else [s[0]] + RemoveFirst(s[1..], x)
  }

  /** List<T>.IndexOf(x): the index of the first element equal to x, or -1. */
  method IndexOf<T(==)>(s: seq<T>, x: T) returns (i: int)
    ensures -1 <= i < |s|
    ensures i == -1 <==> x !in s
    ensures 0 <= i ==> s[i] == x && x !in s[..i]
  {
    i := 0;
    while i < |s| && s[i] != x
      invariant 0 <= i <= |s|
      invariant x !in s[..i]
    {
      assert s[..i + 1] == s[..i] + [s[i]];
      i := i + 1;
    }
    if i == |s| {
      assert s[..i] == s;
      i := -1;
    }
  }

  /** Removing an element that is not there changes nothing. */
  lemma {:induction false} RemoveFirstAbsent<T>(s: seq<T>, x: T)
    requires x !in s
    ensures RemoveFirst(s, x) == s
  {
    if s != [] {
      assert s[0] != x && x !in s[1..];
      RemoveFirstAbsent(s[1..], x);
    }
  }

  /** When i is the first position holding x, Remove deletes exactly that
      position and keeps every other element in its order. */
  lemma {:induction false} RemoveFirstAt<T>(s: seq<T>, x: T, i: nat)
    requires i < |s| && s[i] == x && x !in s[..i]
    ensures RemoveFirst(s, x) == s[..i] + s[i + 1..]
  {
    if i > 0 {
      assert s[0] == s[..i][0];
      assert s[1..][..i - 1] == s[1..i];
      assert s[..i] == [s[0]] + s[1..][..i - 1];
      RemoveFirstAt(s[1..], x, i - 1);
    }
  }

  /** Remove takes away one copy of x when there is one, and nothing else. */
  lemma {:induction false} RemoveFirstMultiset<T>(s: seq<T>, x: T)
    ensures multiset(RemoveFirst(s, x)) == multiset(s) - multiset{x}
  {
    if s != [] {
      assert s == [s[0]] + s[1..];
      if s[0] != x {
        RemoveFirstMultiset(s[1..], x);
      }
    }
  }

  /** Add followed by Remove of the same element: when x was not in the list,
      the pair is undone; when it was, the earlier copy goes and the new one stays. */
  lemma {:induction false} RemoveFirstAfterAppend<T>(s: seq<T>, x: T)
    ensures RemoveFirst(s + [x], x) == if x in s then RemoveFirst(s, x) + [x] else s
  {
    if s == [] {
      assert [] + [x] == [x];
    } else {
      assert (s + [x])[0] == s[0] && (s + [x])[1..] == s[1..] + [x];
      if s[0] != x {
        assert x in s <==> x in s[1..];
        RemoveFirstAfterAppend(s[1..], x);
      }
    }
  }
}
