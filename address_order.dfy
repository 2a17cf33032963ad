/**
 Python's ordering of strings (lexicographic by code point, a proper prefix
 first) and `sorted` applied to a set of addresses.
 */
module AddressOrder {
  import opened Records

  /** `a < b` on Python strings. */
  predicate Below(a: string, b: string)
    decreases |a|
  {
    |b| > 0 && (|a| == 0 || a[0] < b[0] || (a[0] == b[0] && Below(a[1..], b[1..])))
  }

  lemma {:induction false} BelowIrreflexive(a: string)
    ensures !Below(a, a)
    decreases |a|
  {
    if |a| > 0 {
      BelowIrreflexive(a[1..]);
    }
  }

  lemma {:induction false} BelowTransitive(a: string, b: string, c: string)
    requires Below(a, b) && Below(b, c)
    ensures Below(a, c)
    decreases |a|
  {
    if |a| > 0 && a[0] == b[0] && b[0] == c[0] {
      BelowTransitive(a[1..], b[1..], c[1..]);
    }
  }

  lemma {:induction false} BelowTotal(a: string, b: string)
    requires a != b
    ensures Below(a, b) || Below(b, a)
    decreases |a|
  {
    if |a| > 0 && |b| > 0 && a[0] == b[0] {
      assert a == [a[0]] + a[1..] && b == [b[0]] + b[1..];
      BelowTotal(a[1..], b[1..]);
    }
  }

  /** Sorted in Python's order with no repeated element. */
  predicate StrictlyIncreasing(s: seq<string>) {
    forall i, j :: 0 <= i < j < |s| ==> Below(s[i], s[j])
  }

  /** `m` is the least element of `s`. */
  predicate IsLeast(m: string, s: set<string>) {
    m in s && forall x :: x in s && x != m ==> Below(m, x)
  }

  lemma {:induction false} LeastExists(s: set<string>)
    requires s != {}
    ensures exists m :: IsLeast(m, s)
    decreases |s|
  {
    var x :| x in s;
    var rest := s - {x};
    if rest == {} {
      assert s == {x};
      assert IsLeast(x, s);
    } else {
      LeastExists(rest);
      var m :| IsLeast(m, rest);
      if Below(x, m) {
        forall y | y in s && y != x
          ensures Below(x, y)
        {
          if y != m {
            BelowTransitive(x, m, y);
          }
        }
        assert IsLeast(x, s);
      } else {
        BelowTotal(x, m);
        assert IsLeast(m, s);
      }
    }
  }

  /** A strictly increasing sequence is fixed by its set of elements. */
  lemma {:induction false} StrictlyIncreasingUnique(r: seq<string>, t: seq<string>)
    requires StrictlyIncreasing(r) && StrictlyIncreasing(t)
    requires Elems(r) == Elems(t)
    ensures r == t
    decreases |r|
  {
    if r != [] {
      assert r[0] in Elems(t);
      assert t != [];
      if r[0] != t[0] {
        assert t[0] in Elems(r);
        var i :| 0 <= i < |r| && r[i] == t[0];
        var j :| 0 <= j < |t| && t[j] == r[0];
        assert Below(t[0], r[0]);
        assert Below(r[0], t[0]);
        BelowTransitive(r[0], t[0], r[0]);
        BelowIrreflexive(r[0]);
      }
      forall x | x in Elems(r[1..]) ensures x in Elems(t[1..]) {
        var i :| 1 <= i < |r| && r[i] == x;
        assert Below(r[0], x);
        BelowIrreflexive(x);
        assert x in Elems(t);
      }
      forall x | x in Elems(t[1..]) ensures x in Elems(r[1..]) {
        var j :| 1 <= j < |t| && t[j] == x;
        assert Below(t[0], x);
        BelowIrreflexive(x);
        assert x in Elems(r);
      }
      StrictlyIncreasingUnique(r[1..], t[1..]);
      assert r == [r[0]] + r[1..] && t == [t[0]] + t[1..];
    } else {
      ElemsOfNonEmpty(t);
    }
  }

  /** The least element of a non-empty set. */
  ghost function LeastOf(s: set<string>): string
    requires s != {}
  {
    LeastExists(s);
    var m :| IsLeast(m, s);
    m
  }

  lemma LeastOfIsLeast(s: set<string>)
    requires s != {}
    ensures IsLeast(LeastOf(s), s)
  {
    LeastExists(s);
  }

  /** The elements of `s` in increasing order: what `sorted(list(s))` gives. */
  ghost function SortedSeq(s: set<string>): seq<string>
    decreases |s|
  {
    if s == {} then []
    else
      var m := LeastOf(s);
      [m] + SortedSeq(s - {m})
  }

  /** `SortedSeq(s)` lists each element of `s` once, in increasing order. */
  lemma {:induction false} SortedSeqSorts(s: set<string>)
    ensures StrictlyIncreasing(SortedSeq(s))
    ensures Elems(SortedSeq(s)) == s
    decreases |s|
  {
    if s != {} {
      var m := LeastOf(s);
      LeastOfIsLeast(s);
      SortedSeqSorts(s - {m});
      PrependLeast(m, SortedSeq(s - {m}), s);
    }
  }

  lemma PrependLeast(m: string, tail: seq<string>, s: set<string>)
    requires IsLeast(m, s) && StrictlyIncreasing(tail) && Elems(tail) == s - {m}
    ensures StrictlyIncreasing([m] + tail) && Elems([m] + tail) == s
  {
    var r := [m] + tail;
    forall i, j | 0 <= i < j < |r| ensures Below(r[i], r[j]) {
      assert r[j] == tail[j - 1] && r[j] in Elems(tail);
      if i > 0 {
        assert r[i] == tail[i - 1];
      }
    }
    assert Elems(r) == {m} + Elems(tail);
  }

  /** `sorted(list(s))` for a set of addresses. */
  method SortAddresses(s: set<Address>) returns (r: seq<Address>)
    ensures StrictlyIncreasing(r)
    ensures Elems(r) == s
    ensures r == SortedSeq(s)
  {
    r := [];
    var rest := s;
    while rest != {}
      invariant rest <= s
      invariant StrictlyIncreasing(r)
      invariant Elems(r) == s - rest
      invariant forall i, y :: 0 <= i < |r| && y in rest ==> Below(r[i], y)
      decreases rest
    {
      LeastExists(rest);
      var m :| IsLeast(m, rest);
      assert Elems(r + [m]) == Elems(r) + {m};
      r := r + [m];
      rest := rest - {m};
    }
    SortedSeqSorts(s);
    StrictlyIncreasingUnique(r, SortedSeq(s));
  }
}
