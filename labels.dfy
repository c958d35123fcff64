/** Searches and deletions on label sequences, as Python's list operations do them. */
module Labels {

  /** The set of labels in `s` (Python's `set(s)`). */
  function Elements(s: seq<string>): set<string>
  {
    set n | n in s
  }

  /** No label occurs twice in `s`. */
  predicate Unique(s: seq<string>)
  {
    forall i, j :: 0 <= i < j < |s| ==> s[i] != s[j]
  }

  /** Index of the first element equal to `a` or to `b`, or `|s|` when there is none:
      the scan `next(i for i, name in enumerate(s) if name == a or name == b)`. */
  function FirstOf(s: seq<string>, a: string, b: string): (i: nat)
    ensures i <= |s|
    ensures i < |s| ==> s[i] == a || s[i] == b
    ensures forall k :: 0 <= k < i ==> s[k] != a && s[k] != b
  {
    if s == [] then 0
    else if s[0] == a || s[0] == b then 0
    else 1 + FirstOf(s[1..], a, b)
  }

  /** Python's `s.index(x)`: the first position of `x`. */
  function IndexOf(s: seq<string>, x: string): (i: nat)
    requires x in s
    ensures i < |s| && s[i] == x
    ensures x !in s[..i]
  {
    FirstOf(s, x, x)
  }

  /** Python's `del s[i]`. */
  function RemoveAt<T>(s: seq<T>, i: nat): (r: seq<T>)
    requires i < |s|
    ensures |r| == |s| - 1
    ensures forall k :: 0 <= k < i ==> r[k] == s[k]
    ensures forall k :: i <= k < |r| ==> r[k] == s[k + 1]
  {
    s[..i] + s[i + 1..]
  }

  /** Only the order of the two labels differs, so the scan stops at the same place. */
  lemma {:induction false} FirstOfSymmetric(s: seq<string>, a: string, b: string)
    ensures FirstOf(s, a, b) == FirstOf(s, b, a)
  {
    if s != [] && s[0] != a && s[0] != b {
      FirstOfSymmetric(s[1..], a, b);
    }
  }

  /** When `b` is absent, the scan for `a` or `b` finds exactly `a`'s first position. */
  lemma FirstOfAbsent(s: seq<string>, a: string, b: string)
    requires a in s && b !in s
    ensures FirstOf(s, a, b) == IndexOf(s, a)
  {
  }

  /** Deleting an element that matches neither label shifts the first match by at most one. */
  lemma FirstOfRemoveAt(s: seq<string>, i: nat, a: string, b: string)
    requires i < |s| && s[i] != a && s[i] != b
    ensures FirstOf(s, a, b) != i
    ensures FirstOf(RemoveAt(s, i), a, b)
            == if FirstOf(s, a, b) < i then FirstOf(s, a, b) else FirstOf(s, a, b) - 1
  {
    var f, r := FirstOf(s, a, b), RemoveAt(s, i);
    var e := if f < i then f else f - 1;
    assert e < |r| ==> r[e] == s[f];
    assert forall k :: 0 <= k < e ==> r[k] == s[if k < i then k else k + 1];
    FirstOfIsFirst(r, a, b, e);
  }

  /** The first match is the only position that satisfies FirstOf's description. */
  lemma FirstOfIsFirst(s: seq<string>, a: string, b: string, e: nat)
    requires e <= |s|
    requires e < |s| ==> s[e] == a || s[e] == b
    requires forall k :: 0 <= k < e ==> s[k] != a && s[k] != b
    ensures FirstOf(s, a, b) == e
  {
  }

  /** Deleting one occurrence of `x` keeps every other label's membership. */
  lemma InRemoveAt(s: seq<string>, i: nat, n: string)
    requires i < |s| && s[i] != n
    ensures n in RemoveAt(s, i) <==> n in s
  {
    var r := RemoveAt(s, i);
    if n in s {
      var k :| 0 <= k < |s| && s[k] == n;
      if k < i { assert r[k] == n; } else { assert r[k - 1] == n; }
    }
  }

  /** In a sequence without repetitions, deleting the first `x` removes `x` from its
      label set and keeps the sequence free of repetitions. */
  lemma {:induction false} ElementsRemoveAt(s: seq<string>, x: string)
    requires x in s && Unique(s)
    ensures Unique(RemoveAt(s, IndexOf(s, x)))
    ensures Elements(RemoveAt(s, IndexOf(s, x))) == Elements(s) - {x}
  {
    var i := IndexOf(s, x);
    var r := RemoveAt(s, i);
    forall n | n in Elements(s) - {x}
      ensures n in Elements(r)
    {
      InRemoveAt(s, i, n);
    }
    forall n | n in Elements(r)
      ensures n in Elements(s) - {x}
    {
      var k :| 0 <= k < |r| && r[k] == n;
      if k < i { assert s[k] == n && k != i; } else { assert s[k + 1] == n && k + 1 != i; }
    }
  }
}
