/** The string library calls that the nvmesh.conf code relies on: splitting and joining around a
    separator, and the byte-wise ascending order of sort.Strings. */
module Strings {

  function Split(s: string, sep: char): (parts: seq<string>)
    ensures |parts| >= 1
  {
    if s == "" then [""]
    else
      var rest := Split(s[1..], sep);
      if s[0] == sep then [""] + rest else [[s[0]] + rest[0]] + rest[1..]
  }

  function Join(parts: seq<string>, sep: char): string
  {
    if |parts| == 0 then ""
    else if |parts| == 1 then parts[0]
    else parts[0] + [sep] + Join(parts[1..], sep)
  }

  lemma {:induction false} SplitPieces(s: string, sep: char)
    ensures forall p :: p in Split(s, sep) ==> sep !in p
    ensures forall p, c :: p in Split(s, sep) && c in p ==> c in s
  {
    if s != "" {
      var rest := Split(s[1..], sep);
      SplitPieces(s[1..], sep);
      assert s == [s[0]] + s[1..];
      assert rest == [rest[0]] + rest[1..];
    }
  }

  lemma {:induction false} JoinOfSplit(s: string, sep: char)
    ensures Join(Split(s, sep), sep) == s
  {
    if s != "" {
      var rest := Split(s[1..], sep);
      JoinOfSplit(s[1..], sep);
      if s[0] == sep {
        assert Split(s, sep)[1..] == rest;
      } else {
        assert Split(s, sep)[1..] == rest[1..];
        assert s == [s[0]] + s[1..];
      }
    }
  }

  lemma {:induction false} SplitAfterPrefix(p: string, t: string, sep: char)
    requires sep !in p
    ensures Split(p + [sep] + t, sep) == [p] + Split(t, sep)
  {
    var s := p + [sep] + t;
    if p == "" {
      assert s[1..] == t;
    } else {
      SplitAfterPrefix(p[1..], t, sep);
      assert s[1..] == p[1..] + [sep] + t;
      assert p == [p[0]] + p[1..];
    }
  }

  lemma {:induction false} SplitWithoutSeparator(p: string, sep: char)
    requires sep !in p
    ensures Split(p, sep) == [p]
  {
    if p != "" {
      SplitWithoutSeparator(p[1..], sep);
      assert p == [p[0]] + p[1..];
    }
  }

  lemma {:induction false} SplitOfJoin(parts: seq<string>, sep: char)
    requires |parts| > 0
    requires forall p :: p in parts ==> sep !in p
    ensures Split(Join(parts, sep), sep) == parts
  {
    if |parts| == 1 {
      SplitWithoutSeparator(parts[0], sep);
    } else {
      SplitOfJoin(parts[1..], sep);
      SplitAfterPrefix(parts[0], Join(parts[1..], sep), sep);
    }
  }

  // ---- lexicographic order -------------------------------------------------------------------

  predicate LexLeq(a: string, b: string)
  {
    a == "" || (b != "" && (a[0] < b[0] || (a[0] == b[0] && LexLeq(a[1..], b[1..]))))
  }

  /** At n a has the smaller letter, and before n they agree. */
  predicate SmallerAt(a: string, b: string, n: nat)
  {
    n < |a| && n < |b| && a[..n] == b[..n] && a[n] < b[n]
  }

  lemma SmallerInTail(a: string, b: string, n: nat)
    requires a != "" && b != "" && a[0] == b[0]
    ensures SmallerAt(a, b, n + 1) <==> SmallerAt(a[1..], b[1..], n)
  {
    var p, q := a[1..], b[1..];
    if n < |p| && n < |q| {
      assert a[..n + 1] == [a[0]] + p[..n] && b[..n + 1] == [b[0]] + q[..n];
      assert p[..n] == a[..n + 1][1..] && q[..n] == b[..n + 1][1..];
    }
  }

  lemma SmallerFirst(a: string, b: string, n: nat)
    requires SmallerAt(a, b, n)
    ensures a[0] <= b[0]
  {
    if n > 0 { assert a[..n][0] == b[..n][0]; }
  }

  /** The order, letter by letter: a is a prefix of b, or has the smaller letter where they first differ. */
  lemma {:induction false} LexLeqExactly(a: string, b: string)
    ensures LexLeq(a, b) <==> a <= b || exists n: nat :: SmallerAt(a, b, n)
  {
    if a != "" && b != "" {
      var p, q := a[1..], b[1..];
      assert a == [a[0]] + p && b == [b[0]] + q;
      if a[0] < b[0] {
        assert a[..0] == b[..0] && SmallerAt(a, b, 0);
      } else if a[0] == b[0] {
        LexLeqExactly(p, q);
        if exists n: nat :: SmallerAt(p, q, n) {
          var n: nat :| SmallerAt(p, q, n);
          SmallerInTail(a, b, n);
        }
        if exists n: nat :: SmallerAt(a, b, n) {
          var n: nat :| SmallerAt(a, b, n);
          if n > 0 { SmallerInTail(a, b, n - 1); }
        }
      } else if exists n: nat :: SmallerAt(a, b, n) {
        var n: nat :| SmallerAt(a, b, n);
        SmallerFirst(a, b, n);
      }
    }
  }

  lemma {:induction false} LexTotal(a: string, b: string)
    ensures LexLeq(a, b) || LexLeq(b, a)
  {
    if a != "" && b != "" && a[0] == b[0] { LexTotal(a[1..], b[1..]); }
  }

  lemma {:induction false} LexAntisymmetric(a: string, b: string)
    requires LexLeq(a, b) && LexLeq(b, a)
    ensures a == b
  {
    if a != "" {
      LexAntisymmetric(a[1..], b[1..]);
      assert a == [a[0]] + a[1..] && b == [b[0]] + b[1..];
    }
  }

  lemma {:induction false} LexTransitive(a: string, b: string, c: string)
    requires LexLeq(a, b) && LexLeq(b, c)
    ensures LexLeq(a, c)
  {
    if a != "" && a[0] == b[0] == c[0] { LexTransitive(a[1..], b[1..], c[1..]); }
  }

  ghost predicate Ascending(q: seq<string>)
  {
    forall i, j :: 0 <= i < j < |q| ==> LexLeq(q[i], q[j])
  }

  /** q lists every element of s exactly once. */
  ghost predicate Enumerates<T(!new)>(q: seq<T>, s: set<T>)
  {
    && (forall x :: x in q <==> x in s)
    && (forall i, j :: 0 <= i < j < |q| ==> q[i] != q[j])
  }

  /** Whatever set is ranged over, each element comes up exactly once. */
  ghost predicate Orderly(order: set<string> -> seq<string>)
  {
    forall names :: Enumerates(order(names), names)
  }

  function Insert(x: string, q: seq<string>): seq<string>
  {
    if q == [] || LexLeq(x, q[0]) then [x] + q else [q[0]] + Insert(x, q[1..])
  }

  function Sort(q: seq<string>): seq<string>
  {
    if q == [] then [] else Insert(q[0], Sort(q[1..]))
  }

  lemma {:induction false} InsertKeepsOrder(x: string, q: seq<string>)
    requires Ascending(q)
    ensures Ascending(Insert(x, q))
    ensures multiset(Insert(x, q)) == multiset(q) + multiset{x}
  {
    if q == [] {
    } else if LexLeq(x, q[0]) {
      forall j | 0 <= j < |q| ensures LexLeq(x, q[j]) {
        if j > 0 { LexTransitive(x, q[0], q[j]); }
      }
    } else {
      LexTotal(x, q[0]);
      InsertKeepsOrder(x, q[1..]);
      var r := Insert(x, q[1..]);
      assert q == [q[0]] + q[1..];
      forall j | 0 <= j < |r| ensures LexLeq(q[0], r[j]) {
        assert r[j] in multiset(r);
        assert r[j] == x || r[j] in q[1..];
      }
    }
  }

  lemma {:induction false} SortSorts(q: seq<string>)
    ensures Ascending(Sort(q))
    ensures multiset(Sort(q)) == multiset(q)
  {
    if q != [] {
      SortSorts(q[1..]);
      InsertKeepsOrder(q[0], Sort(q[1..]));
      assert q == [q[0]] + q[1..];
    }
  }

  lemma LeastFirst(a: seq<string>, b: seq<string>)
    requires a != [] && Ascending(a) && multiset(a) == multiset(b)
    ensures forall x :: x in b ==> LexLeq(a[0], x)
  {
    LexReflexive(a[0]);
    forall x | x in b ensures LexLeq(a[0], x) {
      assert x in multiset(a);
    }
  }

  /** A total order leaves no freedom: equal multisets sort to equal sequences. */
  lemma {:induction false} AscendingUnique(a: seq<string>, b: seq<string>)
    requires Ascending(a) && Ascending(b) && multiset(a) == multiset(b)
    ensures a == b
  {
    assert |a| == |multiset(a)| == |multiset(b)| == |b|;
    if a != [] {
      LeastFirst(a, b);
      LeastFirst(b, a);
      LexAntisymmetric(a[0], b[0]);
      assert a[0] in a && b[0] in b;
      assert a == [a[0]] + a[1..] && b == [b[0]] + b[1..];
      assert multiset(a[1..]) == multiset(a) - multiset{a[0]};
      assert multiset(b[1..]) == multiset(b) - multiset{b[0]};
      AscendingUnique(a[1..], b[1..]);
    }
  }

  lemma LexReflexive(a: string)
    ensures LexLeq(a, a)
  {
    LexTotal(a, a);
  }

  lemma {:induction false} EnumerationIsMultiset(q: seq<string>, s: set<string>)
    requires Enumerates(q, s)
    ensures multiset(q) == multiset(s)
  {
    if q == [] {
      assert s == {};
    } else {
      assert q == [q[0]] + q[1..];
      assert Enumerates(q[1..], s - {q[0]});
      EnumerationIsMultiset(q[1..], s - {q[0]});
      assert s == (s - {q[0]}) + {q[0]};
    }
  }

  // ---- the sorted listing of a set, defined without any sorting -------------------------------

  ghost predicate IsLeast(x: string, s: set<string>)
  {
    x in s && forall y :: y in s ==> LexLeq(x, y)
  }

  lemma {:induction false} LeastExists(s: set<string>)
    requires s != {}
    ensures exists x :: IsLeast(x, s)
    decreases |s|
  {
    var x :| x in s;
    LexReflexive(x);
    if s == {x} {
      assert IsLeast(x, s);
    } else {
      LeastExists(s - {x});
      var y :| IsLeast(y, s - {x});
      LexTotal(x, y);
      if LexLeq(x, y) {
        forall z | z in s ensures LexLeq(x, z) {
          if z != x { LexTransitive(x, y, z); }
        }
        assert IsLeast(x, s);
      } else {
        assert IsLeast(y, s);
      }
    }
  }

  /** The elements of s in ascending order: take the least one out, again and again. */
  ghost function Listing(s: set<string>): seq<string>
    decreases |s|
  {
    if s == {} then []
    else
      LeastExists(s);
      var x :| IsLeast(x, s);
      [x] + Listing(s - {x})
  }

  lemma {:induction false} ListingIsAscending(s: set<string>)
    ensures Enumerates(Listing(s), s) && Ascending(Listing(s))
    decreases |s|
  {
    if s != {} {
      LeastExists(s);
      var q := Listing(s);
      assert q == [q[0]] + Listing(s - {q[0]});
      ListingIsAscending(s - {q[0]});
    }
  }

  /** sort.Strings on any enumeration of a set gives the one ascending listing of that set. */
  lemma SortedEnumeration(q: seq<string>, s: set<string>)
    requires Enumerates(q, s)
    ensures Sort(q) == Listing(s)
  {
    SortSorts(q);
    ListingIsAscending(s);
    EnumerationIsMultiset(q, s);
    EnumerationIsMultiset(Listing(s), s);
    AscendingUnique(Sort(q), Listing(s));
  }
}
