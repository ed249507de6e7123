/** The monotonic checkpoint store that several tabs share. Read-write
    transactions on it are serialised, so a schedule of `compareAndSet` calls is
    a sequence of transactions, any of which may also be aborted. */
module CheckpointStore {
  import opened Wrappers
  import opened CheckpointCodec
  import opened Decimals

  const CAPACITY := 128

  type Key = string
  type Records = map<Key, string>

  /** The candidate may take the place of what the caller expects. */
  predicate Admissible(expected: Option<Checkpoint>, candidate: Checkpoint) {
    && Valid(candidate)
    && (expected.Some? ==>
          && Valid(expected.value)
          && candidate.bindingId == expected.value.bindingId
          && candidate.originalIdentity == expected.value.originalIdentity
          && Value(candidate.version) >= Value(expected.value.version)
          && (candidate.version == expected.value.version ==> candidate == expected.value))
  }

  /** The transaction of `compareAndSet`, if it is not aborted from outside. */
  function Committed(records: Records, key: Key, expected: Option<Checkpoint>, candidate: Checkpoint): Records {
    if !Admissible(expected, candidate) then records
    else if key in records then
      // A record that does not decode aborts the transaction.
      if expected.Some? && Decode(records[key]) == expected then records[key := Stringify(candidate)] else records
    else if expected.None? && |records| < CAPACITY then records[key := Stringify(candidate)]
    else records
  }

  /** The checks that `compareAndSet` makes before its transaction. */
  method Admit(expected: Option<Checkpoint>, candidate: Checkpoint) returns (ok: bool)
    ensures ok == Admissible(expected, candidate)
  {
    if !Valid(candidate) || (expected.Some? && !Valid(expected.value)) {
      return false;
    }
    if expected.Some? {
      var e := expected.value;
      SameText(candidate, e);
      if candidate.bindingId != e.bindingId || candidate.originalIdentity != e.originalIdentity
         || Value(candidate.version) < Value(e.version)
         || (candidate.version == e.version && Stringify(candidate) != Stringify(e)) {
        return false;
      }
    }
    return true;
  }

  /** Whether a stored text is that of the checkpoint expected there. */
  method Holds(text: string, expected: Option<Checkpoint>) returns (same: bool)
    requires expected.Some? ==> Valid(expected.value)
    ensures same == (expected.Some? && Decode(text) == expected)
  {
    var actual := Decode(text);
    if actual.None? || expected.None? {
      return false;
    }
    DecodedIsValid(text);
    SameText(actual.value, expected.value);
    return Stringify(actual.value) == Stringify(expected.value);
  }

  class Store {
    var records: Records

    constructor ()
      ensures records == map[]
    {
      records := map[];
    }

    /** One read-write transaction; `interrupted` is a timeout, a closed page or
        a changed origin, all of which abort it. */
    method Transact(key: Key, expected: Option<Checkpoint>, candidate: Checkpoint, interrupted: bool)
      returns (committed: bool)
      modifies this
      ensures records == if interrupted then old(records) else Committed(old(records), key, expected, candidate)
      ensures committed ==> key in records && records[key] == Stringify(candidate)
    {
      var admitted := Admit(expected, candidate);
      if !admitted || interrupted {
        return false;
      }
      if key !in records {
        if expected.Some? || |records| >= CAPACITY {
          return false;
        }
      } else {
        var same := Holds(records[key], expected);
        if !same {
          return false;
        }
      }
      records := records[key := Stringify(candidate)];
      return true;
    }

    /** What a later read transaction sees; `compareAndSet` succeeds only if it
        is still the candidate. */
    method Read(key: Key) returns (retained: Result<Option<Checkpoint>, ()>)
      ensures retained == if key !in records then Ok(None)
                          else if Decode(records[key]).Some? then Ok(Decode(records[key])) else Err(())
      ensures retained.Ok? && retained.value.Some? ==>
                Valid(retained.value.value) && records[key] == Stringify(retained.value.value)
    {
      if key !in records {
        return Ok(None);
      }
      var c := Decode(records[key]);
      if c.None? {
        return Err(());
      }
      DecodedIsValid(records[key]);
      return Ok(c);
    }
  }

  // ----- Every schedule

  datatype Call = Call(key: Key, expected: Option<Checkpoint>, candidate: Checkpoint, interrupted: bool)

  function After(records: Records, c: Call): Records {
    if c.interrupted then records else Committed(records, c.key, c.expected, c.candidate)
  }

  function Run(records: Records, calls: seq<Call>): Records
    decreases |calls|
  {
    if calls == [] then records else Run(After(records, calls[0]), calls[1..])
  }

  /** `b` may stand where `a` stood: same binding and origin, no older version,
      and the same record if the version is the same. */
  predicate Advances(a: Checkpoint, b: Checkpoint) {
    && a.bindingId == b.bindingId
    && a.originalIdentity == b.originalIdentity
    && Canonical(a.version) && Canonical(b.version)
    && Value(a.version) <= Value(b.version)
    && (Value(a.version) == Value(b.version) ==> a == b)
  }

  predicate AdvancesAt(before: Records, after: Records, key: Key) {
    key in before ==>
      && key in after
      && match Decode(before[key])
         case None => after[key] == before[key]
         case Some(a) => Decode(after[key]).Some? && Advances(a, Decode(after[key]).value)
  }

  lemma AdmissibleAdvances(a: Checkpoint, b: Checkpoint)
    requires Admissible(Some(a), b)
    ensures Advances(a, b)
  {
    CanonicalByValue(a.version, b.version);
  }

  /** A stored record stays, or gives way to an admissible candidate. */
  lemma CallAt(records: Records, c: Call, key: Key)
    requires key in records
    ensures var after := After(records, c);
            key in after && (after[key] == records[key]
                             || (after[key] == Stringify(c.candidate) && Decode(records[key]).Some?
                                 && Admissible(Decode(records[key]), c.candidate)))
  {
  }

  lemma ReplacementAdvances(raw: string, candidate: Checkpoint)
    requires Decode(raw).Some? && Admissible(Decode(raw), candidate)
    ensures Decode(Stringify(candidate)) == Some(candidate) && Advances(Decode(raw).value, candidate)
  {
    AdmissibleAdvances(Decode(raw).value, candidate);
    DecodeExact(Stringify(candidate), candidate);
  }

  lemma SameAdvances(raw: string)
    ensures Decode(raw).Some? ==> Advances(Decode(raw).value, Decode(raw).value)
  {
    DecodedIsValid(raw);
  }

  lemma CallAdvances(records: Records, c: Call, key: Key)
    ensures AdvancesAt(records, After(records, c), key)
  {
    if key in records {
      CallAt(records, c, key);
      if After(records, c)[key] == records[key] {
        SameAdvances(records[key]);
      } else {
        ReplacementAdvances(records[key], c.candidate);
      }
    }
  }

  lemma CallFits(records: Records, c: Call)
    ensures |After(records, c)| <= if |records| < CAPACITY then CAPACITY else |records|
  {
    if c.key in records {
      assert records[c.key := Stringify(c.candidate)].Keys == records.Keys;
    } else {
      assert records[c.key := Stringify(c.candidate)].Keys == records.Keys + {c.key};
    }
  }

  /** Between any two moments of any schedule of calls by any tabs: a stored key
      stays, its binding and original identity never change, its version never
      decreases, equal versions mean identical records, a record that does not
      decode is left alone, and the store never grows past its capacity. */
  lemma {:induction false} CheckpointsAreMonotone(records: Records, calls: seq<Call>, key: Key)
    ensures AdvancesAt(records, Run(records, calls), key)
    ensures |Run(records, calls)| <= if |records| < CAPACITY then CAPACITY else |records|
    decreases |calls|
  {
    if calls == [] {
      if key in records {
        SameAdvances(records[key]);
      }
    } else {
      CallAdvances(records, calls[0], key);
      CallFits(records, calls[0]);
      CheckpointsAreMonotone(After(records, calls[0]), calls[1..], key);
    }
  }

  /** A checkpoint once passed never returns, so a caller that expects it can
      never commit again. */
  lemma PassedCheckpointsStayPassed(records: Records, first: seq<Call>, rest: seq<Call>, key: Key)
    requires key in records && Decode(records[key]).Some?
    requires key in Run(records, first) && Run(records, first)[key] != records[key]
    ensures key in Run(Run(records, first), rest) && Run(Run(records, first), rest)[key] != records[key]
  {
    var middle := Run(records, first);
    var last := Run(middle, rest);
    CheckpointsAreMonotone(records, first, key);
    CheckpointsAreMonotone(middle, rest, key);
    DecodedIsValid(records[key]);
    DecodedIsValid(middle[key]);
  }

  /** Of two calls that expect the same, whatever their candidates: once the
      first has changed the store, the second changes nothing. */
  lemma FirstCallWins(records: Records, a: Call, b: Call)
    requires a.key == b.key && a.expected == b.expected && After(records, a) != records
    ensures After(records, a) == records[a.key := Stringify(a.candidate)]
    ensures After(After(records, a), b) == After(records, a)
  {
    DecodeExact(Stringify(a.candidate), a.candidate);
    if a.key in records {
      DecodedIsValid(records[a.key]);
      assert records[a.key := records[a.key]] == records;
    }
  }

  /** A call whose expectation holds, and which has room, is never refused. */
  lemma MatchingCallCommits(records: Records, c: Call)
    requires !c.interrupted && Admissible(c.expected, c.candidate)
    requires match c.expected
             case None => c.key !in records && |records| < CAPACITY
             case Some(e) => c.key in records && records[c.key] == Stringify(e)
    ensures After(records, c) == records[c.key := Stringify(c.candidate)]
  {
    if c.expected.Some? {
      DecodeExact(records[c.key], c.expected.value);
    }
  }
}
