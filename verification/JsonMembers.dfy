/** The members of a JSON object as the ordered dictionary that Python makes of
    them: assigning to a key keeps its place or takes the last one. */
module JsonMembers {
  import opened Wrappers
  import opened JsonText
  import opened JsonReadsBack

  function Lookup(m: Members, key: Text): Option<Json> {
    if m.NoMembers? then None else if m.key == key then Some(m.value) else Lookup(m.rest, key)
  }

  function Put(m: Members, key: Text, v: Json): Members {
    if m.NoMembers? then Member(key, v, NoMembers)
    else if m.key == key then m.(value := v)
    else m.(rest := Put(m.rest, key, v))
  }

  function Drop(m: Members, key: Text): Members {
    if m.NoMembers? then m else if m.key == key then Drop(m.rest, key) else m.(rest := Drop(m.rest, key))
  }

  function Count(m: Members): nat { if m.NoMembers? then 0 else 1 + Count(m.rest) }

  lemma {:induction false} LookupFinds(m: Members, key: Text)
    ensures Lookup(m, key).Some? <==> key in Keys(m)
    ensures Lookup(m, key).None? ==> Drop(m, key) == m
  {
    if m.Member? { LookupFinds(m.rest, key); }
  }

  lemma {:induction false} PutSets(m: Members, key: Text, v: Json, other: Text)
    ensures Lookup(Put(m, key, v), other) == if other == key then Some(v) else Lookup(m, other)
    ensures Drop(Put(m, key, v), key) == Drop(m, key)
    ensures Keys(Put(m, key, v)) == Keys(m) + {key}
  {
    if m.Member? && m.key != key { PutSets(m.rest, key, v, other); }
  }

  lemma {:induction false} DropClears(m: Members, key: Text, other: Text)
    ensures Lookup(Drop(m, key), other) == if other == key then None else Lookup(m, other)
    ensures Keys(Drop(m, key)) == Keys(m) - {key}
  {
    if m.Member? { DropClears(m.rest, key, other); }
  }

  /** The last assignment counts; assigning what is there changes nothing, and
      assigning to a new key does. */
  lemma {:induction false} PutTwice(m: Members, key: Text, u: Json, v: Json)
    ensures Put(Put(m, key, u), key, v) == Put(m, key, v)
    ensures Lookup(m, key) == Some(v) ==> Put(m, key, v) == m
    ensures Lookup(m, key).None? ==> Count(Put(m, key, v)) == Count(m) + 1
  {
    if m.Member? && m.key != key { PutTwice(m.rest, key, u, v); }
  }

  // ----- What was read stays legible, and just as finite

  lemma {:induction false} PutIsLegible(repr: string -> string, m: Members, key: Text, v: Json)
    requires Legible(repr, Obj(m)) && Legible(repr, v)
    ensures Legible(repr, Obj(Put(m, key, v)))
  {
    if m.Member? && m.key != key {
      PutIsLegible(repr, m.rest, key, v);
      PutSets(m.rest, key, v, key);
    }
  }

  lemma {:induction false} DropIsLegible(repr: string -> string, m: Members, key: Text)
    requires Legible(repr, Obj(m))
    ensures Legible(repr, Obj(Drop(m, key)))
  {
    if m.Member? {
      DropIsLegible(repr, m.rest, key);
      DropClears(m.rest, key, key);
    }
  }

  lemma {:induction false} LookupIsLegible(repr: string -> string, m: Members, key: Text)
    requires Legible(repr, Obj(m)) && Lookup(m, key).Some?
    ensures Legible(repr, Lookup(m, key).value)
  {
    if m.key != key { LookupIsLegible(repr, m.rest, key); }
  }

  lemma {:induction false} FiniteExcept(m: Members, key: Text, v: Json)
    requires Distinct(m)
    ensures FiniteMembers(Put(m, key, v)) <==> FiniteMembers(Drop(m, key)) && Finite(v)
    ensures Lookup(m, key).Some? ==> (FiniteMembers(m) <==> FiniteMembers(Drop(m, key)) && Finite(Lookup(m, key).value))
    ensures Lookup(m, key).None? ==> Drop(m, key) == m
  {
    LookupFinds(m, key);
    if m.Member? {
      LookupFinds(m.rest, key);
      FiniteExcept(m.rest, key, v);
    }
  }
}
