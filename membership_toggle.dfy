/** The list updater the client uses for every check-box list:
    `prev.includes(x) ? prev.filter(y => y !== x) : [...prev, x]`. */
module MembershipToggle {
  import opened Seqs

  function Other<T(==)>(x: T): T -> bool
  {
    (y: T) => y != x
  }

  /** Removes every copy of a present value, and appends an absent one at the end. */
  function Toggle<T(==, !new)>(s: seq<T>, x: T): (r: seq<T>)
    ensures x in s ==> r == Filter(s, Other(x))
    ensures x !in s ==> r == s + [x]
  {
    if x in s then Filter(s, Other(x)) else s + [x]
  }

  /** Toggling flips whether the value is in the list and leaves every other value's membership alone. */
  lemma ToggleFlips<T(!new)>(s: seq<T>, x: T)
    ensures x in Toggle(s, x) <==> x !in s
    ensures forall y :: y != x ==> (y in Toggle(s, x) <==> y in s)
  {
  }

  /** Removing a value keeps the others in their relative order. */
  lemma ToggleRemovesInOrder<T(!new)>(s: seq<T>, x: T)
    requires x in s
    ensures IsSubsequence(Toggle(s, x), s)
    ensures |Toggle(s, x)| < |s|
  {
    var r := Toggle(s, x);
    if |r| == |s| {
      FilterFullLength(s, Other(x));
      assert false;
    }
  }

  /** A filter that keeps the length keeps every element. */
  lemma {:induction false} FilterFullLength<T(!new)>(s: seq<T>, p: T -> bool)
    requires |Filter(s, p)| == |s|
    ensures forall i :: 0 <= i < |s| ==> p(s[i])
  {
    if s != [] {
      if !p(s[0]) {
        assert false;
      }
      FilterFullLength(s[1..], p);
      forall i | 0 <= i < |s| ensures p(s[i]) {
        if i > 0 {
          assert s[i] == s[1..][i - 1];
        }
      }
    }
  }

  /** Toggling an absent value twice gives the original list back. */
  lemma ToggleTwice<T(!new)>(s: seq<T>, x: T)
    requires x !in s
    ensures Toggle(Toggle(s, x), x) == s
  {
    assert x in s + [x];
    FilterConcat(s, [x], Other(x));
    FilterAll(s, Other(x));
    assert Filter([x], Other(x)) == [];
  }

  ghost predicate NoDuplicates<T>(s: seq<T>)
  {
    forall i, j :: 0 <= i < j < |s| ==> s[i] != s[j]
  }

  /** A subsequence of a list without duplicates has none either. */
  lemma {:induction false} SubsequenceNoDuplicates<T>(a: seq<T>, b: seq<T>)
    requires IsSubsequence(a, b) && NoDuplicates(b)
    ensures NoDuplicates(a)
    decreases |b|
  {
    if a != [] && b != [] {
      NoDuplicatesTail(b);
      if a[0] == b[0] {
        SubsequenceNoDuplicates(a[1..], b[1..]);
        SubsequenceMembers(a[1..], b[1..]);
        forall i, j | 0 <= i < j < |a| ensures a[i] != a[j] {
          if i == 0 {
            assert a[j] == a[1..][j - 1];
            assert a[j] in b[1..];
            var k :| 0 <= k < |b[1..]| && b[1..][k] == a[j];
            assert b[k + 1] == a[j];
          } else {
            assert a[i] == a[1..][i - 1] && a[j] == a[1..][j - 1];
          }
        }
      } else {
        SubsequenceNoDuplicates(a, b[1..]);
      }
    }
  }

  lemma NoDuplicatesTail<T>(b: seq<T>)
    requires b != [] && NoDuplicates(b)
    ensures NoDuplicates(b[1..])
  {
    forall i, j | 0 <= i < j < |b[1..]| ensures b[1..][i] != b[1..][j] {
      assert b[1..][i] == b[i + 1] && b[1..][j] == b[j + 1];
    }
  }

  /** Every element of a subsequence is an element of the whole. */
  lemma {:induction false} SubsequenceMembers<T>(a: seq<T>, b: seq<T>)
    requires IsSubsequence(a, b)
    ensures forall x :: x in a ==> x in b
    decreases |b|
  {
    if a != [] && b != [] {
      if a[0] == b[0] {
        SubsequenceMembers(a[1..], b[1..]);
        forall x | x in a ensures x in b {
          if x != a[0] {
            var i :| 0 <= i < |a| && a[i] == x;
            assert a[1..][i - 1] == x;
            assert x in b[1..];
          }
        }
      } else {
        SubsequenceMembers(a, b[1..]);
      }
    }
  }

  /** Toggling never introduces a duplicate. */
  lemma ToggleKeepsNoDuplicates<T(!new)>(s: seq<T>, x: T)
    requires NoDuplicates(s)
    ensures NoDuplicates(Toggle(s, x))
  {
    if x in s {
      SubsequenceNoDuplicates(Filter(s, Other(x)), s);
    } else {
      var r := s + [x];
      forall i, j | 0 <= i < j < |r| ensures r[i] != r[j] {
        if j == |s| {
          assert r[i] == s[i];
        } else {
          assert r[i] == s[i] && r[j] == s[j];
        }
      }
    }
  }
}
