/** Identifiers, result types and one set lemma shared by every component. */
module Foundation {

  /** Row identifiers: the database draws fresh UUIDs, the model draws fresh numbers. */
  datatype Id = Uuid(bits: nat)

  datatype Option<+T> = None | Some(value: T)

  datatype Result<+T, +E> = Ok(value: T) | Err(error: E)

  /** Reads an optional count, absent counting as zero. */
  function OrZero(value: Option<nat>): (n: nat) {
    match value case Some(v) => v case None => 0
  }

  /** A subset has no more members. */
  lemma SubsetSize(a: set<Id>, b: set<Id>)
    requires a <= b
    ensures |a| <= |b|
  {
    assert b == a + (b - a);
  }
}

/** Sums over the values of a finite map, and the two re-indexing laws the budget proofs need. */
module MapSums {
  import opened Foundation

  ghost function Sum(m: map<Id, int>): int {
    if m.Keys == {} then 0 else
      var k :| k in m.Keys;
      m[k] + Sum(m - {k})
  }

  /** The sum does not depend on which entry is taken out first. */
  lemma {:induction false} SumRemove(m: map<Id, int>, k: Id)
    requires k in m
    ensures Sum(m) == m[k] + Sum(m - {k})
    decreases |m|
  {
    var first :| first in m.Keys && Sum(m) == m[first] + Sum(m - {first});
    if first != k {
      SumRemove(m - {first}, k);
      SumRemove(m - {k}, first);
      assert m - {first} - {k} == m - {k} - {first};
    }
  }

  lemma SumInsert(m: map<Id, int>, k: Id, v: int)
    requires k !in m
    ensures Sum(m[k := v]) == Sum(m) + v
  {
    SumRemove(m[k := v], k);
    assert m[k := v] - {k} == m;
  }

  /** Replacing one value shifts the sum by the difference. */
  lemma SumUpdate(m: map<Id, int>, k: Id, v: int)
    requires k in m
    ensures Sum(m[k := v]) == Sum(m) - m[k] + v
  {
    SumRemove(m, k);
    SumRemove(m[k := v], k);
    assert m[k := v] - {k} == m - {k};
  }

  /** The entries of `m` whose keys lie in `part`. */
  function Only(m: map<Id, int>, part: set<Id>): (r: map<Id, int>) {
    map k | k in m && k in part :: m[k]
  }

  /** A sum splits into the part inside and the part outside any set of keys. */
  lemma {:induction false} SumSplit(m: map<Id, int>, part: set<Id>)
    ensures Sum(m) == Sum(Only(m, part)) + Sum(m - part)
    decreases part
  {
    if k :| k in part {
      SumSplit(m, part - {k});
      if k in m {
        SumRemove(m - (part - {k}), k);
        assert m - (part - {k}) - {k} == m - part;
        SumInsert(Only(m, part - {k}), k, m[k]);
        assert Only(m, part) == Only(m, part - {k})[k := m[k]];
      } else {
        assert Only(m, part) == Only(m, part - {k});
        assert m - part == m - (part - {k});
      }
    } else {
      assert Only(m, part) == map[];
      assert m - part == m;
    }
  }

  lemma {:induction false} SumNonNegative(m: map<Id, int>)
    requires forall k :: k in m ==> m[k] >= 0
    ensures Sum(m) >= 0
    ensures forall k :: k in m ==> m[k] <= Sum(m)
    decreases |m|
  {
    forall k | k in m
      ensures 0 <= m[k] <= Sum(m)
    {
      SumRemove(m, k);
      SumNonNegative(m - {k});
    }
  }

  /** Summing two maps entry by entry. */
  lemma {:induction false} SumPointwise(a: map<Id, int>, b: map<Id, int>, c: map<Id, int>)
    requires a.Keys == b.Keys == c.Keys
    requires forall k :: k in a ==> c[k] == a[k] + b[k]
    ensures Sum(c) == Sum(a) + Sum(b)
    decreases |a|
  {
    if k :| k in a.Keys {
      SumRemove(a, k);
      SumRemove(b, k);
      SumRemove(c, k);
      SumPointwise(a - {k}, b - {k}, c - {k});
    } else {
      assert a == b == c == map[];
    }
  }

  /** Entries of `values` whose owner is `p`. */
  function Owned(values: map<Id, int>, owner: map<Id, Id>, p: Id): (m: map<Id, int>) {
    map k | k in values && k in owner && owner[k] == p :: values[k]
  }

  /** What each member of `group` owns in total. */
  ghost function Totals(values: map<Id, int>, owner: map<Id, Id>, group: set<Id>): (m: map<Id, int>) {
    map p | p in group :: Sum(Owned(values, owner, p))
  }

  /** One more entry raises exactly its owner's total. */
  lemma TotalsInsert(rest: map<Id, int>, k: Id, v: int, owner: map<Id, Id>, group: set<Id>)
    requires k !in rest && k in owner && owner[k] in group
    ensures Totals(rest[k := v], owner, group)
         == Totals(rest, owner, group)[owner[k] := Totals(rest, owner, group)[owner[k]] + v]
  {
    hide Sum;
    forall p | p in group
      ensures Sum(Owned(rest[k := v], owner, p))
           == Sum(Owned(rest, owner, p)) + if p == owner[k] then v else 0
    {
      if p == owner[k] {
        SumInsert(Owned(rest, owner, p), k, v);
        assert Owned(rest[k := v], owner, p) == Owned(rest, owner, p)[k := v];
      } else {
        assert Owned(rest[k := v], owner, p) == Owned(rest, owner, p);
      }
    }
  }

  /** Counting every entry once at its owner counts every entry exactly once: if all owners
      lie in `group`, the per-owner totals add up to the plain sum. */
  lemma {:induction false} SumByOwner(values: map<Id, int>, owner: map<Id, Id>, group: set<Id>)
    requires forall k :: k in values ==> k in owner && owner[k] in group
    ensures Sum(Totals(values, owner, group)) == Sum(values)
    decreases |values|
  {
    hide *;
    if values.Keys == {} {
      SumByOwnerEmpty(values, owner, group);
    } else {
      var k :| k in values.Keys;
      SumByOwner(values - {k}, owner, group);
      SumByOwnerStep(values - {k}, k, values[k], owner, group);
      assert values == (values - {k})[k := values[k]];
    }
  }

  lemma SumByOwnerEmpty(values: map<Id, int>, owner: map<Id, Id>, group: set<Id>)
    requires values.Keys == {}
    ensures Sum(Totals(values, owner, group)) == Sum(values) == 0
  {
    forall p | p in group ensures Totals(values, owner, group)[p] == 0 {
      SumZero(Owned(values, owner, p));
    }
    SumZero(Totals(values, owner, group));
  }

  lemma SumByOwnerStep(rest: map<Id, int>, k: Id, v: int, owner: map<Id, Id>, group: set<Id>)
    requires k !in rest && k in owner && owner[k] in group
    requires Sum(Totals(rest, owner, group)) == Sum(rest)
    ensures Sum(Totals(rest[k := v], owner, group)) == Sum(rest[k := v])
  {
    hide Sum;
    SumInsert(rest, k, v);
    TotalsInsert(rest, k, v, owner, group);
    var before := Totals(rest, owner, group);
    SumUpdate(before, owner[k], before[owner[k]] + v);
  }

  lemma {:induction false} SumZero(m: map<Id, int>)
    requires forall k :: k in m ==> m[k] == 0
    ensures Sum(m) == 0
    decreases |m|
  {
    if k :| k in m.Keys {
      SumRemove(m, k);
      SumZero(m - {k});
    }
  }
}
