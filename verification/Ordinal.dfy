/** Strings in the order of their characters, and sorted lists of them. */
module Ordinal {
  predicate Less(a: string, b: string) {
    b != "" && (a == "" || a[0] < b[0] || (a[0] == b[0] && Less(a[1..], b[1..])))
  }

  lemma {:induction false} LessTotal(a: string, b: string)
    ensures a == b || Less(a, b) || Less(b, a)
  {
    if a != "" && b != "" && a[0] == b[0] {
      assert a == [a[0]] + a[1..] && b == [b[0]] + b[1..];
      LessTotal(a[1..], b[1..]);
    }
  }

  lemma {:induction false} LessTrans(a: string, b: string, c: string)
    requires Less(a, b) && Less(b, c)
    ensures Less(a, c)
  {
    if a != "" && b != "" && c != "" && a[0] == b[0] == c[0] {
      LessTrans(a[1..], b[1..], c[1..]);
    }
  }

  lemma {:induction false} LessIrreflexive(a: string)
    ensures !Less(a, a)
  {
    if a != "" {
      LessIrreflexive(a[1..]);
    }
  }

  function Elements(xs: seq<string>): set<string> { set x | x in xs }

  predicate NoRepeats(xs: seq<string>) { forall i, j | 0 <= i < j < |xs| :: xs[i] != xs[j] }

  predicate Increasing(xs: seq<string>) {
    forall i, j | 0 <= i < j < |xs| :: Less(xs[i], xs[j])
  }

  function Insert(x: string, xs: seq<string>): seq<string> {
    if xs == [] then [x] else if Less(xs[0], x) then [xs[0]] + Insert(x, xs[1..]) else [x] + xs
  }

  function Sort(xs: seq<string>): seq<string> {
    if xs == [] then [] else Insert(xs[|xs| - 1], Sort(xs[..|xs| - 1]))
  }

  lemma {:induction false} InsertBetween(x: string, a: seq<string>, b: seq<string>)
    requires Increasing(a + [x] + b)
    ensures Insert(x, a + b) == a + [x] + b
  {
    var all := a + [x] + b;
    if a != [] {
      assert Less(all[0], all[|a|]);
      assert all[1..] == a[1..] + [x] + b && (a + b)[1..] == a[1..] + b;
      InsertBetween(x, a[1..], b);
    } else if b != [] {
      assert Less(all[0], all[1]);
      NotBoth(x, b[0]);
      assert a + b == b && all == [x] + b;
    } else {
      assert a + b == [] && all == [x];
    }
  }

  lemma NotBoth(a: string, b: string)
    requires Less(a, b)
    ensures !Less(b, a)
  {
    LessIrreflexive(a);
    if Less(b, a) {
      LessTrans(a, b, a);
    }
  }

  lemma WithoutOne(a: seq<string>, x: string, b: seq<string>)
    requires Increasing(a + [x] + b)
    ensures Increasing(a + b)
  {
    var all := a + [x] + b;
    forall i, j | 0 <= i < j < |a + b| ensures Less((a + b)[i], (a + b)[j]) {
      var k, l := if i < |a| then i else i + 1, if j < |a| then j else j + 1;
      assert (a + b)[i] == all[k] && (a + b)[j] == all[l];
    }
  }

  lemma OneLess(xs: seq<string>, x: string, a: seq<string>, b: seq<string>)
    requires multiset(xs + [x]) == multiset(a + [x] + b)
    ensures multiset(xs) == multiset(a + b)
  {
    assert multiset(a + b) == multiset(a + [x] + b) - multiset{x};
    assert multiset(xs) == multiset(xs + [x]) - multiset{x};
  }

  /** An increasing list is what sorting any arrangement of its elements gives. */
  lemma {:induction false} SortOf(xs: seq<string>, sorted: seq<string>)
    requires Increasing(sorted) && multiset(xs) == multiset(sorted)
    ensures Sort(xs) == sorted
    decreases |xs|
  {
    if xs == [] {
      assert |multiset(sorted)| == |sorted|;
    } else {
      var n := |xs| - 1;
      var x := xs[n];
      assert xs == xs[..n] + [x];
      assert x in multiset(sorted);
      var k :| 0 <= k < |sorted| && sorted[k] == x;
      var a, b := sorted[..k], sorted[k + 1..];
      assert sorted == a + [x] + b;
      WithoutOne(a, x, b);
      OneLess(xs[..n], x, a, b);
      SortOf(xs[..n], a + b);
      InsertBetween(x, a, b);
    }
  }

  lemma {:induction false} IncreasingCounts(xs: seq<string>, x: string)
    requires Increasing(xs)
    ensures multiset(xs)[x] == if x in xs then 1 else 0
  {
    if xs != [] {
      var n := |xs| - 1;
      IncreasingCounts(xs[..n], x);
      assert xs == xs[..n] + [xs[n]];
      LessIrreflexive(xs[n]);
    }
  }

  lemma {:induction false} InsertKeeps(x: string, xs: seq<string>)
    ensures multiset(Insert(x, xs)) == multiset(xs) + multiset{x}
  {
    if xs != [] {
      assert xs == [xs[0]] + xs[1..];
      InsertKeeps(x, xs[1..]);
    }
  }

  lemma {:induction false} SortKeeps(xs: seq<string>)
    ensures multiset(Sort(xs)) == multiset(xs)
  {
    if xs != [] {
      var n := |xs| - 1;
      assert xs == xs[..n] + [xs[n]];
      SortKeeps(xs[..n]);
      InsertKeeps(xs[n], Sort(xs[..n]));
    }
  }

  lemma {:induction false} InsertOrdered(x: string, xs: seq<string>)
    requires Increasing(xs) && x !in xs
    ensures Increasing(Insert(x, xs))
    ensures forall y :: y in Insert(x, xs) <==> y == x || y in xs
  {
    if xs != [] {
      assert xs == [xs[0]] + xs[1..];
      if Less(xs[0], x) {
        InsertOrdered(x, xs[1..]);
        var rest := Insert(x, xs[1..]);
        forall i | 0 <= i < |rest| ensures Less(xs[0], rest[i]) {
          assert rest[i] == x || rest[i] in xs[1..];
        }
      } else {
        LessTotal(x, xs[0]);
        forall i | 0 <= i < |xs| ensures Less(x, xs[i]) {
          if i > 0 {
            LessTrans(x, xs[0], xs[i]);
          }
        }
      }
    }
  }

  lemma {:induction false} Cardinality(xs: seq<string>)
    ensures |Elements(xs)| <= |xs|
    ensures |Elements(xs)| == |xs| <==> NoRepeats(xs)
  {
    if xs != [] {
      var n := |xs| - 1;
      Cardinality(xs[..n]);
      assert xs == xs[..n] + [xs[n]];
      if xs[n] in xs[..n] {
        assert Elements(xs) == Elements(xs[..n]);
        var i :| 0 <= i < n && xs[i] == xs[n];
      } else {
        assert Elements(xs) == Elements(xs[..n]) + {xs[n]};
      }
    }
  }
}
