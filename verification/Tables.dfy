/** Lists of named values as maps, which refuse a name that is repeated. */
module Tables {
  import opened Wrappers
  import opened Ordinal

  function Collected(pairs: seq<(string, string)>): Option<map<string, string>> {
    if pairs == [] then Some(map[])
    else
      var n := |pairs| - 1;
      match Collected(pairs[..n])
      case None => None
      case Some(before) => if pairs[n].0 in before then None else Some(before[pairs[n].0 := pairs[n].1])
  }

  lemma {:induction false} NoneStays(pairs: seq<(string, string)>, n: nat)
    requires n <= |pairs| && Collected(pairs[..n]).None?
    ensures Collected(pairs).None?
  {
    if n == |pairs| {
      assert pairs[..n] == pairs;
    } else {
      var m := |pairs| - 1;
      assert pairs[..m][..n] == pairs[..n];
      NoneStays(pairs[..m], n);
    }
  }

  function Names(pairs: seq<(string, string)>): seq<string> {
    seq(|pairs|, i requires 0 <= i < |pairs| => pairs[i].0)
  }

  lemma NamesAppend(pairs: seq<(string, string)>, p: (string, string))
    ensures Names(pairs + [p]) == Names(pairs) + [p.0]
    ensures forall name :: name in Names(pairs + [p]) <==> name in Names(pairs) || name == p.0
  {
  }

  /** Without a repeated name the map has exactly the names, each with its value. */
  lemma {:induction false} CollectedExactly(pairs: seq<(string, string)>)
    requires NoRepeats(Names(pairs))
    ensures Collected(pairs).Some?
    ensures forall name :: name in Collected(pairs).value <==> name in Names(pairs)
    ensures forall p | p in pairs :: p.0 in Collected(pairs).value && Collected(pairs).value[p.0] == p.1
  {
    if pairs != [] {
      var n := |pairs| - 1;
      var rest, last := pairs[..n], pairs[n];
      assert pairs == rest + [last];
      NamesAppend(rest, last);
      forall i, j | 0 <= i < j < |Names(rest)| ensures Names(rest)[i] != Names(rest)[j] {
        assert Names(pairs)[i] == Names(rest)[i] && Names(pairs)[j] == Names(rest)[j];
      }
      CollectedExactly(rest);
      forall i | 0 <= i < n ensures Names(rest)[i] != last.0 {
        assert Names(pairs)[i] == Names(rest)[i] && Names(pairs)[n] == last.0;
      }
      forall p | p in rest ensures p.0 in Names(rest) {
        var i :| 0 <= i < |rest| && rest[i] == p;
        assert Names(rest)[i] == p.0;
      }
    }
  }
}
