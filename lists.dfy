/** Sequences used as duplicate-free lists: the source's
    `if (list.indexOf(x) == -1) list.push(x)` and `if (!list.includes(x)) list.push(x)`. */
module Lists {

  predicate NoDuplicates<T(==,!new)>(s: seq<T>) {
    forall i, j :: 0 <= i < j < |s| ==> s[i] != s[j]
  }

  /** Append `x` unless it is already there. */
  function AddOnce<T(==,!new)>(s: seq<T>, x: T): (r: seq<T>)
    ensures x in r
    ensures forall y :: y in r <==> y in s || y == x
    ensures NoDuplicates(s) ==> NoDuplicates(r)
    ensures |r| == if x in s then |s| else |s| + 1
    ensures r[..|s|] == s
  {
    if x in s then s else s + [x]
  }

  /** Adding the same element twice is the same as adding it once. */
  lemma AddOnceIdempotent<T(!new)>(s: seq<T>, x: T)
    ensures AddOnce(AddOnce(s, x), x) == AddOnce(s, x)
  {
  }

  /** `s` with every repeated element dropped, first occurrences kept in order. */
  function Dedup<T(==,!new)>(s: seq<T>): (r: seq<T>)
    ensures NoDuplicates(r)
    ensures forall y :: y in r <==> y in s
    ensures |r| <= |s|
    decreases |s|
  {
    if s == [] then []
    else
      assert s == s[..|s| - 1] + [s[|s| - 1]];
      AddOnce(Dedup(s[..|s| - 1]), s[|s| - 1])
  }

  lemma DedupSnoc<T(!new)>(s: seq<T>, x: T)
    ensures Dedup(s + [x]) == AddOnce(Dedup(s), x)
  {
    assert (s + [x])[..|s|] == s;
  }

  /** The position of the first occurrence of `x` in `s`. */
  function FirstIndex<T(==,!new)>(s: seq<T>, x: T): (i: nat)
    requires x in s
    ensures i < |s| && s[i] == x && x !in s[..i]
  {
    if s[0] == x then 0
    else
      assert s == [s[0]] + s[1..];
      1 + FirstIndex(s[1..], x)
  }

  lemma FirstIndexOfPrefix<T(!new)>(s: seq<T>, x: T, y: T)
    requires y in s
    ensures FirstIndex(s + [x], y) == FirstIndex(s, y)
  {
    var i := FirstIndex(s, y);
    var j := FirstIndex(s + [x], y);
    assert (s + [x])[i] == y;
  }

  /** Dedup keeps elements in the order of their first occurrence in `s`. */
  lemma {:induction false} DedupFirstOccurrenceOrder<T(!new)>(s: seq<T>, i: nat, j: nat)
    requires i < j < |Dedup(s)|
    ensures Dedup(s)[i] in s && Dedup(s)[j] in s
    ensures FirstIndex(s, Dedup(s)[i]) < FirstIndex(s, Dedup(s)[j])
    decreases |s|
  {
    var n := |s| - 1;
    var p, x := s[..n], s[n];
    assert s == p + [x];
    var d := Dedup(p);
    assert Dedup(s) == AddOnce(d, x);
    if j < |d| {
      DedupFirstOccurrenceOrder(p, i, j);
      FirstIndexOfPrefix(p, x, d[i]);
      FirstIndexOfPrefix(p, x, d[j]);
    } else {
      // the last element is x, which did not occur earlier in s
      assert x !in d && Dedup(s)[j] == x;
      assert x !in p;
      assert FirstIndex(s, x) == n;
      assert d[i] in p;
      FirstIndexOfPrefix(p, x, d[i]);
    }
  }

  /** A list without duplicates is its own Dedup. */
  lemma {:induction false} DedupOfDistinct<T(!new)>(s: seq<T>)
    requires NoDuplicates(s)
    ensures Dedup(s) == s
    decreases |s|
  {
    if s != [] {
      var n := |s| - 1;
      assert s == s[..n] + [s[n]];
      DedupOfDistinct(s[..n]);
      assert s[n] !in s[..n];
    }
  }
}
