/** A JavaScript `Set` of strings: a collection without duplicates that `forEach`
    visits in insertion order. It is represented by the sequence of its
    elements in that order. */
module OrderedSet {

  predicate NoDuplicates<T(==)>(s: seq<T>)
  {
    forall i, j :: 0 <= i < j < |s| ==> s[i] != s[j]
  }

  /** `set.add(x)`: `x` joins at the end unless it is already present, in
      which case nothing moves. */
  function Add(s: seq<string>, x: string): (r: seq<string>)
    ensures forall y :: y in r <==> y in s || y == x
    ensures x in s ==> r == s
    ensures NoDuplicates(s) ==> NoDuplicates(r)
    ensures |r| >= |s| && r[..|s|] == s
  {
    if x in s then s else s + [x]
  }

  /** `set.delete(x)`: `x` is gone, the other elements keep their order. */
  function Remove(s: seq<string>, x: string): (r: seq<string>)
    ensures forall y :: y in r <==> y in s && y != x
    ensures x !in s ==> r == s
    ensures NoDuplicates(s) ==> NoDuplicates(r)
    ensures |r| <= |s|
  {
    if s == [] then []
    else
      var tail := Remove(s[1..], x);
      if s[0] == x then tail
      else
        assert NoDuplicates(s) ==> s[0] !in s[1..];
        [s[0]] + tail
  }

  /** Removing the only occurrence of `x`, at index `i`, closes the gap and
      keeps every other element in its place. */
  lemma {:induction false} RemoveAt(s: seq<string>, x: string, i: nat)
    requires i < |s| && s[i] == x && x !in s[..i] && x !in s[i + 1..]
    ensures Remove(s, x) == s[..i] + s[i + 1..]
  {
    var t := s[1..];
    if i == 0 {
      assert t == s[i + 1..];
    } else {
      assert s[0] == s[..i][0];
      assert s[0] != x;
      assert t[..i - 1] == s[1..i];
      assert t[i - 1 + 1..] == s[i + 1..];
      RemoveAt(t, x, i - 1);
      assert Remove(s, x) == [s[0]] + Remove(t, x);
      assert s[..i] + s[i + 1..] == [s[0]] + (s[1..i] + s[i + 1..]);
    }
  }

  /** `set.delete(x)` on a set holding `x`: the elements that remain keep
      their insertion order. */
  lemma RemoveKeepsOrder(s: seq<string>, x: string)
    requires NoDuplicates(s) && x in s
    ensures exists i | 0 <= i < |s| :: s[i] == x && Remove(s, x) == s[..i] + s[i + 1..]
  {
    var i :| 0 <= i < |s| && s[i] == x;
    assert x !in s[..i] by {
      forall k | 0 <= k < i ensures s[..i][k] != x { assert s[k] != s[i]; }
    }
    var after := s[i + 1..];
    assert x !in after by {
      forall k | 0 <= k < |after| ensures after[k] != x { assert after[k] == s[i + 1 + k]; }
    }
    RemoveAt(s, x, i);
  }

}
