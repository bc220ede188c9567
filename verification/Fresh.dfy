/** Ids given by the database: there is always one that is not in use. */
module Fresh {
  lemma {:induction false} Bounded(ids: set<nat>) returns (bound: nat)
    ensures forall id :: id in ids ==> id < bound
  {
    if ids == {} {
      bound := 0;
    } else {
      var id :| id in ids;
      var rest := Bounded(ids - {id});
      bound := if id < rest then rest else id + 1;
      forall other | other in ids
        ensures other < bound
      {
        assert other == id || other in ids - {id};
      }
    }
  }

  lemma Unused<T>(rows: map<nat, T>) returns (id: nat)
    ensures id !in rows
  {
    id := Bounded(rows.Keys);
    assert id !in rows.Keys;
  }
}
