/** The filtered copy of a trust store: the Java filter and the Python selection
    of retained certificates agree. */
module TrustFilter {
  import opened Wrappers
  import opened Ordinal
  import opened TrustReport
  import opened TrustStore

  const ROOTS := 4

  /** What the Python side keeps of an inventory. */
  function Retained(certificates: Certificates, impacted: set<string>): Certificates {
    map alias | alias in certificates && certificates[alias].sha256 !in impacted :: certificates[alias]
  }

  function Fingerprints(certificates: Certificates): set<string> {
    set alias | alias in certificates :: certificates[alias].sha256
  }

  predicate ValidPolicy(policy: seq<string>) {
    |policy| == ROOTS && NoRepeats(policy) && forall i | 0 <= i < |policy| :: Fingerprint(policy[i])
  }

  /** What the Java side expects to find again. */
  function Unblocked(certified: map<string, string>, blocked: set<string>): map<string, string> {
    map alias | alias in certified && certified[alias] !in blocked :: certified[alias]
  }

  predicate SameAttributes(original: Store, reloaded: Store, alias: string) {
    && alias in original.entries && alias in reloaded.entries
    && Attributes(original.entries[alias]).Ok?
    && Attributes(original.entries[alias]) == Attributes(reloaded.entries[alias])
  }

  /** `reloaded` is whatever the file system and the keystore provider made of
      the copy; `enforced` and `untouched` are the two checks on files. */
  ghost predicate Filtered(
      original: Store, reloaded: Store, policy: seq<string>, apart: bool, enforced: bool, untouched: bool) {
    && ValidPolicy(policy) && apart && enforced && untouched
    && Certified(original).Ok?
    && var expected := Unblocked(Certified(original).value, Elements(policy));
       && expected != map[]
       && Certified(reloaded) == Ok(expected)
       && forall alias | alias in expected :: SameAttributes(original, reloaded, alias)
  }

  method ReadPolicy(policy: seq<string>) returns (r: Result<set<string>, Error>)
    ensures r == if ValidPolicy(policy) then Ok(Elements(policy)) else Err(InvalidPolicy)
  {
    var blocked: set<string> := {};
    for i := 0 to |policy|
      invariant Taken(policy, i, blocked)
      invariant forall j | 0 <= j < i :: Fingerprint(policy[j])
    {
      TakeOne(policy, i, blocked);
      if !Fingerprint(policy[i]) || policy[i] in blocked {
        return Err(InvalidPolicy);
      }
      blocked := blocked + {policy[i]};
    }
    AllTaken(policy, blocked);
    if |blocked| != ROOTS {
      return Err(InvalidPolicy);
    }
    return Ok(blocked);
  }

  /** The first `n` values are distinct, and `blocked` holds exactly them. */
  ghost predicate Taken(xs: seq<string>, n: nat, blocked: set<string>) {
    && n <= |xs| && |blocked| == n
    && (forall i | 0 <= i < n :: xs[i] in blocked)
    && (forall x | x in blocked :: exists i :: 0 <= i < n && xs[i] == x)
    && (forall i, j | 0 <= i < j < n :: xs[i] != xs[j])
  }

  lemma TakeOne(xs: seq<string>, n: nat, blocked: set<string>)
    requires n < |xs| && Taken(xs, n, blocked)
    ensures if xs[n] !in blocked then Taken(xs, n + 1, blocked + {xs[n]}) else !NoRepeats(xs)
  {
  }

  lemma AllTaken(xs: seq<string>, blocked: set<string>)
    requires Taken(xs, |xs|, blocked)
    ensures blocked == Elements(xs) && NoRepeats(xs) && |blocked| == |xs|
  {
  }

  method RemoveBlocked(certified: map<string, string>, blocked: set<string>) returns (expected: map<string, string>)
    ensures expected == Unblocked(certified, blocked)
  {
    expected := certified;
    var left := certified.Keys;
    while left != {}
      invariant left <= certified.Keys
      invariant expected == map alias | alias in certified && (alias in left || certified[alias] !in blocked) :: certified[alias]
      decreases |left|
    {
      var alias :| alias in left;
      if expected[alias] in blocked {
        expected := expected - {alias};
      }
      left := left - {alias};
    }
  }

  method CheckAttributes(original: Store, reloaded: Store, expected: map<string, string>) returns (ok: bool)
    requires expected.Keys <= original.entries.Keys && expected.Keys <= reloaded.entries.Keys
    ensures ok <==> forall alias | alias in expected :: SameAttributes(original, reloaded, alias)
  {
    var left := expected.Keys;
    while left != {}
      invariant left <= expected.Keys
      invariant forall alias | alias in expected && alias !in left :: SameAttributes(original, reloaded, alias)
      decreases |left|
    {
      var alias :| alias in left;
      var before := CollectAttributes(original.entries[alias]);
      var after := CollectAttributes(reloaded.entries[alias]);
      if before.Err? || after != before {
        return false;
      }
      left := left - {alias};
    }
    return true;
  }

  method Filter(
      order: Order, original: Store, reloaded: Store, policy: seq<string>, apart: bool, enforced: bool, untouched: bool)
    returns (r: Result<string, Error>)
    requires Lists(order)
    ensures r.Ok? <==> Filtered(original, reloaded, policy, apart, enforced, untouched)
    ensures r.Ok? ==> r == Report(order, reloaded)
  {
    var checked := CheckCopy(original, reloaded, policy, apart);
    if checked.Err? {
      return Err(checked.error);
    }
    if !enforced {
      return Err(NotEnforced);
    }
    if !untouched {
      return Err(OriginalChanged);
    }
    CopyQualifies(original, reloaded, policy, apart, enforced, untouched);
    r := Describe(order, reloaded);
  }

  method CheckCopy(original: Store, reloaded: Store, policy: seq<string>, apart: bool) returns (r: Result<(), Error>)
    ensures r.Ok? <==> Filtered(original, reloaded, policy, apart, true, true)
  {
    var blocked := ReadPolicy(policy);
    if blocked.Err? || !apart {
      return Err(InvalidPolicy);
    }
    var certified := CollectInventory(original);
    if certified.Err? {
      return Err(certified.error);
    }
    var expected := RemoveBlocked(certified.value, blocked.value);
    if expected == map[] {
      return Err(NothingRetained);
    }
    var again := CollectInventory(reloaded);
    if again.Err? || again.value != expected {
      return Err(CertificateChanged);
    }
    assert expected.Keys <= original.entries.Keys && expected.Keys <= reloaded.entries.Keys;
    var same := CheckAttributes(original, reloaded, expected);
    if !same {
      return Err(AttributeChanged);
    }
    return Ok(());
  }

  // ----- Both sides agree

  lemma CopyQualifies(original: Store, reloaded: Store, policy: seq<string>, apart: bool, enforced: bool, untouched: bool)
    requires Filtered(original, reloaded, policy, apart, enforced, untouched)
    ensures Qualified(reloaded).Ok?
    ensures Qualified(original).Ok? ==>
              Qualified(reloaded).value == Retained(Qualified(original).value, Elements(policy))
  {
    var expected := Unblocked(Certified(original).value, Elements(policy));
    assert expected.Keys == reloaded.entries.Keys;
    forall alias | alias in reloaded.entries
      ensures SameAttributes(original, reloaded, alias)
      ensures reloaded.entries[alias].sha256 == expected[alias] == original.entries[alias].sha256
    {
      assert alias in expected;
    }
  }

  /** Whenever the filter succeeds, whatever the store became in between: the
      copy can be reported, and if the original's report was read as an
      inventory, then the copy's is read as exactly the certificates retained
      from it, and no impacted root is left. */
  lemma FilterAgrees(
      order: Order, original: Store, reloaded: Store, policy: seq<string>, apart: bool, enforced: bool, untouched: bool)
    requires Lists(order) && Sane(original) && Sane(reloaded)
    requires Filtered(original, reloaded, policy, apart, enforced, untouched)
    ensures Report(order, reloaded).Ok?
    ensures Report(order, original).Ok? && Inventoried(Report(order, original).value).Some? ==>
              var before, after := Inventoried(Report(order, original).value).value,
                                   Inventoried(Report(order, reloaded).value);
              && (after.Some? <==> reloaded.storeType in TYPES)
              && (after.Some? ==> after.value.certificates == Retained(before.certificates, Elements(policy)))
              && Fingerprints(Retained(before.certificates, Elements(policy))) !! Elements(policy)
  {
    CopyQualifies(original, reloaded, policy, apart, enforced, untouched);
    ReportReadsBack(order, reloaded);
    if Report(order, original).Ok? {
      ReportReadsBack(order, original);
    }
  }
}
