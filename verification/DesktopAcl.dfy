/** The access list of a desktop: an entry granted to the test fixture for one
    run, and its removal afterwards. */
module DesktopAcl {
  type Sid = string

  /** `known` entries name a security identifier; `body` is all the rest of an
      entry's binary form. Two entries with the same binary form are the same. */
  datatype Ace = Ace(known: bool, sid: Sid, body: string)

  type Acl = seq<Ace>

  type Counts = map<Ace, nat>

  predicate FixtureAce(ace: Ace, sids: set<Sid>) { ace.known && ace.sid in sids }

  ghost predicate Clean(acl: Acl, sids: set<Sid>) {
    forall i | 0 <= i < |acl| :: !FixtureAce(acl[i], sids)
  }

  function Kept(source: Acl, sids: set<Sid>): Acl {
    if source == [] then []
    else
      var n := |source| - 1;
      Kept(source[..n], sids) + if FixtureAce(source[n], sids) then [] else [source[n]]
  }

  method WithoutFixture(source: Acl, sids: set<Sid>) returns (r: Acl)
    ensures r == Kept(source, sids)
  {
    r := [];
    for i := 0 to |source|
      invariant r == Kept(source[..i], sids)
    {
      assert source[..i + 1][..i] == source[..i];
      if !FixtureAce(source[i], sids) {
        r := r + [source[i]];
      } else {
        assert r + [] == r;
      }
    }
    assert source[..|source|] == source;
  }

  method WithFixtureGrant(source: Acl, sid: Sid, mask: string) returns (r: Acl)
    ensures r == source + [Ace(true, sid, mask)]
  {
    r := [];
    for i := 0 to |source|
      invariant r == source[..i]
    {
      r := r + [source[i]];
    }
    r := r + [Ace(true, sid, mask)];
  }

  // ----- What the filter keeps

  lemma {:induction false} KeptAppend(a: Acl, b: Acl, sids: set<Sid>)
    ensures Kept(a + b, sids) == Kept(a, sids) + Kept(b, sids)
  {
    if b == [] {
      assert a + b == a;
    } else {
      var n := |b| - 1;
      assert (a + b)[..|a + b| - 1] == a + b[..n];
      KeptAppend(a, b[..n], sids);
    }
  }

  lemma {:induction false} KeptCounts(acl: Acl, sids: set<Sid>, ace: Ace)
    ensures multiset(Kept(acl, sids))[ace] == if FixtureAce(ace, sids) then 0 else multiset(acl)[ace]
  {
    if acl != [] {
      var n := |acl| - 1;
      KeptCounts(acl[..n], sids, ace);
      assert acl == acl[..n] + [acl[n]];
    }
  }

  lemma {:induction false} KeptIsClean(acl: Acl, sids: set<Sid>)
    ensures Clean(Kept(acl, sids), sids) && |Kept(acl, sids)| <= |acl|
  {
    if acl != [] {
      KeptIsClean(acl[..|acl| - 1], sids);
    }
  }

  lemma {:induction false} CleanIsKept(acl: Acl, sids: set<Sid>)
    requires Clean(acl, sids)
    ensures Kept(acl, sids) == acl
  {
    if acl != [] {
      var n := |acl| - 1;
      CleanIsKept(acl[..n], sids);
      assert acl == acl[..n] + [acl[n]];
    }
  }

  lemma {:induction false} ShorterUnlessClean(acl: Acl, sids: set<Sid>)
    requires |Kept(acl, sids)| == |acl|
    ensures Clean(acl, sids)
  {
    if acl != [] {
      var n := |acl| - 1;
      KeptIsClean(acl[..n], sids);
      ShorterUnlessClean(acl[..n], sids);
      assert acl == acl[..n] + [acl[n]];
    }
  }

  /** Removing the fixture's entries after a grant to it is removing them before
      the grant; whatever else was appended meanwhile stays, and the order of the
      rest never changes. */
  lemma GrantLeavesNoTrace(acl: Acl, sid: Sid, mask: string, later: Acl, sids: set<Sid>)
    requires sid in sids
    ensures Kept(acl + [Ace(true, sid, mask)] + later, sids) == Kept(acl, sids) + Kept(later, sids)
    ensures Kept(Kept(acl, sids), sids) == Kept(acl, sids)
    ensures Clean(acl, sids) ==> Kept(acl + [Ace(true, sid, mask)], sids) == acl
  {
    var grant := [Ace(true, sid, mask)];
    assert grant[..0] == [];
    KeptAppend(acl, grant, sids);
    KeptAppend(acl + grant, later, sids);
    KeptIsClean(acl, sids);
    CleanIsKept(Kept(acl, sids), sids);
    if Clean(acl, sids) {
      CleanIsKept(acl, sids);
    }
  }

  lemma UncleanIsShorter(acl: Acl, sids: set<Sid>)
    requires |Kept(acl, sids)| != |acl|
    ensures !Clean(acl, sids)
  {
    if Clean(acl, sids) {
      CleanIsKept(acl, sids);
    }
  }

  // ----- The cleanup and its checks

  ghost predicate CountsOf(m: Counts, acl: Acl) {
    && (forall ace :: ace in m <==> ace in acl)
    && (forall ace | ace in m :: m[ace] == multiset(acl)[ace])
  }

  lemma CountOne(m: Counts, acl: Acl, ace: Ace)
    requires CountsOf(m, acl)
    ensures CountsOf(m[ace := if ace in m then m[ace] + 1 else 1], acl + [ace])
  {
    assert multiset(acl + [ace]) == multiset(acl) + multiset{ace};
    assert forall x :: x in acl + [ace] <==> x in acl || x == ace;
  }

  method Count(acl: Acl) returns (m: Counts)
    ensures CountsOf(m, acl)
  {
    m := map[];
    for i := 0 to |acl|
      invariant CountsOf(m, acl[..i])
    {
      CountOne(m, acl[..i], acl[i]);
      assert acl[..i + 1] == acl[..i] + [acl[i]];
      m := m[acl[i] := if acl[i] in m then m[acl[i]] + 1 else 1];
    }
    assert acl[..|acl|] == acl;
  }

  lemma SameSize(a: set<Ace>, b: set<Ace>)
    requires a <= b && |a| == |b|
    ensures a == b
  {
    if a != b {
      var x :| x in b && x !in a;
      NoLarger(a, b - {x});
    }
  }

  lemma {:induction false} NoLarger(a: set<Ace>, b: set<Ace>)
    requires a <= b
    ensures |a| <= |b|
    decreases |a|
  {
    if a != {} {
      var x :| x in a;
      NoLarger(a - {x}, b - {x});
    }
  }

  lemma SameCounts(m: Counts, a: Acl, n: Counts, b: Acl)
    requires CountsOf(m, a) && CountsOf(n, b)
    ensures m == n <==> multiset(a) == multiset(b)
  {
    if m == n {
      forall ace ensures multiset(a)[ace] == multiset(b)[ace] {
        assert ace in m <==> ace in a;
        assert ace in n <==> ace in b;
        assert ace in multiset(a) <==> ace in a;
        assert ace in multiset(b) <==> ace in b;
      }
    }
    if multiset(a) == multiset(b) {
      assert forall ace :: ace in a <==> ace in multiset(a);
      assert forall ace :: ace in b <==> ace in multiset(b);
      assert m == n;
    }
  }

  /** Every unrelated entry counted before the write is there as often after it. */
  method Preserved(unrelated: Counts, remaining: Counts) returns (ok: bool)
    ensures ok <==> unrelated == remaining
  {
    if |remaining| != |unrelated| {
      return false;
    }
    var left := unrelated.Keys;
    while left != {}
      invariant left <= unrelated.Keys
      invariant forall ace | ace in unrelated && ace !in left :: ace in remaining && remaining[ace] == unrelated[ace]
      decreases |left|
    {
      var ace :| ace in left;
      if ace !in remaining || remaining[ace] != unrelated[ace] {
        return false;
      }
      left := left - {ace};
    }
    assert |unrelated.Keys| == |unrelated| && |remaining.Keys| == |remaining|;
    SameSize(unrelated.Keys, remaining.Keys);
    return true;
  }

  ghost predicate Left(remaining: Counts, after: Acl, struck: Acl) {
    && (forall ace :: ace in remaining <==> ace in after)
    && (forall ace | ace in remaining :: remaining[ace] + multiset(struck)[ace] == multiset(after)[ace])
    && multiset(struck) <= multiset(after)
  }

  lemma StrikeOne(remaining: Counts, after: Acl, struck: Acl, ace: Ace)
    requires Left(remaining, after, struck)
    ensures if ace in remaining && remaining[ace] > 0
            then Left(remaining[ace := remaining[ace] - 1], after, struck + [ace])
            else multiset(struck + [ace])[ace] > multiset(after)[ace]
  {
    assert multiset(struck + [ace]) == multiset(struck) + multiset{ace};
    assert ace in after <==> ace in multiset(after);
  }

  lemma TooFewLeft(before: Acl, struck: Acl, after: Acl, ace: Ace)
    requires struck <= before && multiset(struck)[ace] > multiset(after)[ace]
    ensures !(multiset(before) <= multiset(after))
  {
    assert before == struck + before[|struck|..];
    assert multiset(before)[ace] >= multiset(struck)[ace];
  }

  lemma NoneStruck(counts: Counts, after: Acl)
    requires CountsOf(counts, after)
    ensures Left(counts, after, [])
  {
  }

  /** Each original entry is struck off once. */
  method Struck(before: Acl, counts: Counts, after: Acl) returns (ok: bool)
    requires CountsOf(counts, after)
    ensures ok <==> multiset(before) <= multiset(after)
  {
    var remaining := counts;
    ghost var struck: Acl := [];
    NoneStruck(counts, after);
    for i := 0 to |before|
      invariant struck == before[..i]
      invariant Left(remaining, after, struck)
    {
      var ace := before[i];
      StrikeOne(remaining, after, struck, ace);
      struck := struck + [ace];
      if ace !in remaining || remaining[ace] == 0 {
        TooFewLeft(before, struck, after, ace);
        return false;
      }
      remaining := remaining[ace := remaining[ace] - 1];
    }
    assert struck == before;
    return true;
  }

  method NoFixture(acl: Acl, sids: set<Sid>) returns (ok: bool)
    ensures ok <==> Clean(acl, sids)
  {
    for i := 0 to |acl|
      invariant Clean(acl[..i], sids)
    {
      if FixtureAce(acl[i], sids) {
        return false;
      }
    }
    return true;
  }

  /** `written` is whether the system took the filtered list, `after` the list it
      then has. Success means exactly: nothing of the fixture is left, the list
      holds exactly the unrelated entries of the list found, as often as there,
      and among them every original entry. */
  method CleanDesktop(before: Acl, current: Acl, written: bool, after: Acl, sids: set<Sid>) returns (ok: bool)
    ensures ok <==>
              && (written || Clean(current, sids))
              && Clean(after, sids)
              && (forall ace :: multiset(after)[ace] == if FixtureAce(ace, sids) then 0 else multiset(current)[ace])
              && multiset(before) <= multiset(after)
  {
    var acl := WithoutFixture(current, sids);
    var changed := |acl| != |current|;
    if changed {
      assert !Clean(current, sids) by { UncleanIsShorter(current, sids); }
    } else {
      ShorterUnlessClean(current, sids);
    }
    var unrelated := Count(acl);
    if changed && !written {
      return false;
    }
    var clean := NoFixture(after, sids);
    var remaining := Count(after);
    var preserved := Preserved(unrelated, remaining);
    var struck := Struck(before, remaining, after);
    SameCounts(unrelated, acl, remaining, after);
    KeptMultiset(current, after, sids);
    return clean && preserved && struck;
  }

  lemma KeptMultiset(current: Acl, after: Acl, sids: set<Sid>)
    ensures multiset(Kept(current, sids)) == multiset(after) <==>
              forall ace :: multiset(after)[ace] == if FixtureAce(ace, sids) then 0 else multiset(current)[ace]
  {
    forall ace ensures multiset(Kept(current, sids))[ace] == if FixtureAce(ace, sids) then 0 else multiset(current)[ace] {
      KeptCounts(current, sids, ace);
    }
  }
}
