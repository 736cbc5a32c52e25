/**
 * Tables of records keyed by identifier, and the two queries the routers
 * ask of them: "the first record matching a filter" and "a fresh key".
 */
module Table {
  import opened Wrappers

  /** Record identifiers. The database issues opaque unique ids; naturals let the model compute a fresh one. */
  type Id = nat

  /** Every non-empty finite set of identifiers has a smallest element. */
  lemma {:induction false} LeastOf(s: set<Id>) returns (m: Id)
    requires s != {}
    ensures m in s
    ensures forall x :: x in s ==> m <= x
  {
    var y :| y in s;
    var rest := s - {y};
    if rest == {} {
      m := y;
      forall x | x in s
        ensures m <= x
      {
        assert x !in rest;
      }
    } else {
      var n := LeastOf(rest);
      m := if y <= n then y else n;
      forall x | x in s
        ensures m <= x
      {
        if x != y {
          assert x in rest;
        }
      }
    }
  }

  /** Every non-empty finite set of identifiers has a largest element. */
  lemma {:induction false} GreatestOf(s: set<Id>) returns (g: Id)
    requires s != {}
    ensures g in s
    ensures forall x :: x in s ==> x <= g
  {
    var y :| y in s;
    var rest := s - {y};
    if rest == {} {
      g := y;
      forall x | x in s
        ensures x <= g
      {
        assert x !in rest;
      }
    } else {
      var n := GreatestOf(rest);
      g := if n <= y then y else n;
      forall x | x in s
        ensures x <= g
      {
        if x != y {
          assert x in rest;
        }
      }
    }
  }

  /** The smallest identifier of a non-empty set. */
  function Least(s: set<Id>): (m: Id)
    requires s != {}
    ensures m in s
    ensures forall x :: x in s ==> m <= x
  {
    assert exists m :: m in s && forall x :: x in s ==> m <= x by {
      var w := LeastOf(s);
    }
    var m :| m in s && forall x :: x in s ==> m <= x;
    m
  }

  /** The largest identifier of a non-empty set. */
  function Greatest(s: set<Id>): (g: Id)
    requires s != {}
    ensures g in s
    ensures forall x :: x in s ==> x <= g
  {
    assert exists g :: g in s && forall x :: x in s ==> x <= g by {
      var w := GreatestOf(s);
    }
    var g :| g in s && forall x :: x in s ==> x <= g;
    g
  }

  /** The identifier the database gives a newly created row: one that no row of the table carries yet. */
  function Fresh<T>(m: map<Id, T>): (k: Id)
    ensures k !in m
    ensures forall j :: j in m ==> j < k
  {
    if m.Keys == {} then 0 else Greatest(m.Keys) + 1
  }

  /**
   * A `findFirst` query with no ordering: some row satisfying the filter, or
   * none when no row does. The database leaves the choice open; the model
   * fixes it to the least identifier so that the query is a function.
   */
  function FindFirst<T>(m: map<Id, T>, p: T -> bool): (r: Option<Id>)
    ensures r.Some? ==> r.value in m && p(m[r.value])
    ensures r.Some? ==> forall j :: j in m && p(m[j]) ==> r.value <= j
    ensures r.None? <==> forall j :: j in m ==> !p(m[j])
  {
    var hits := set k | k in m && p(m[k]);
    assert forall j :: j in m && p(m[j]) ==> j in hits;
    if hits == {} then None else Some(Least(hits))
  }

  /** A `findMany` query without ordering: the rows satisfying the filter, keyed by id. */
  function Select<T>(m: map<Id, T>, p: T -> bool): (r: map<Id, T>)
    ensures forall k :: k in r <==> k in m && p(m[k])
    ensures forall k :: k in r ==> r[k] == m[k]
  {
    map k | k in m && p(m[k]) :: m[k]
  }
}
