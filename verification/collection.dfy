/**
 * The insert / update / delete logic that services/mockApi.ts repeats for
 * each of its seven id-keyed collections, written once over `Entity<T>`.
 */
module Collection {
  import opened Wrappers
  import opened Folds
  import opened Types

  /** The ids of a collection, in order. */
  function Ids<T>(s: seq<Entity<T>>): (r: seq<int>)
    ensures |r| == |s|
    ensures forall i :: 0 <= i < |s| ==> r[i] == s[i].id
  {
    seq(|s|, i requires 0 <= i < |s| => s[i].id)
  }

  /** The store's invariant: no two records of a collection share an id. */
  predicate UniqueIds<T>(s: seq<Entity<T>>) {
    forall i, j :: 0 <= i < j < |s| ==> s[i].id != s[j].id
  }

  /** `Math.max(0, ...list.map(x => x.id))`. */
  function MaxId<T>(s: seq<Entity<T>>): (r: nat)
    ensures forall e :: e in s ==> e.id <= r
    ensures r == 0 || exists e :: e in s && e.id == r
    decreases |s|
  {
    if |s| == 0 then 0
    else
      var m := MaxId(s[..|s| - 1]);
      assert forall e :: e in s[..|s| - 1] ==> e in s;
      if s[|s| - 1].id > m then s[|s| - 1].id else m
  }

  /** The id an insert assigns. */
  function NextId<T>(s: seq<Entity<T>>): nat {
    MaxId(s) + 1
  }

  /** The insert branch of every `save*`: fresh id, appended at the end. */
  function Insert<T>(s: seq<Entity<T>>, data: T): (r: seq<Entity<T>>)
    ensures |r| == |s| + 1
    ensures r[..|s|] == s
    ensures r[|s|] == Entity(NextId(s), data)
    ensures forall e :: e in s ==> e.id < r[|s|].id
  {
    s + [Entity(NextId(s), data)]
  }

  /** `list.findIndex(x => x.id === id)`. */
  function IndexOfId<T>(s: seq<Entity<T>>, id: nat): (r: int)
    ensures -1 <= r < |s|
    ensures r == -1 <==> forall i :: 0 <= i < |s| ==> s[i].id != id
    ensures 0 <= r ==> s[r].id == id && forall i :: 0 <= i < r ==> s[i].id != id
  {
    FindIndex(s, (e: Entity<T>) => e.id == id)
  }

  /** `list.find(x => x.id === id)`: the first record with that id. */
  function FindById<T>(s: seq<Entity<T>>, id: int): (r: Option<Entity<T>>)
    ensures r.None? <==> forall i :: 0 <= i < |s| ==> s[i].id != id
    ensures r.Some? ==> r.value in s && r.value.id == id
    ensures r.Some? ==> exists i :: 0 <= i < |s| && s[i] == r.value
                                 && forall j :: 0 <= j < i ==> s[j].id != id
  {
    var i := FindIndex(s, (e: Entity<T>) => e.id == id);
    if i == -1 then None else Some(s[i])
  }

  /**
   * The update branch: `list[list.findIndex(x => x.id === id)] = { ...data, id }`.
   * When no record has the id the source writes to index -1, a property that
   * the later JSON serialisation drops, so the persisted list is unchanged.
   */
  function Update<T>(s: seq<Entity<T>>, id: nat, data: T): (r: seq<Entity<T>>)
    ensures |r| == |s|
    ensures IndexOfId(s, id) == -1 ==> r == s
    ensures IndexOfId(s, id) >= 0 ==>
      r[IndexOfId(s, id)] == Entity(id, data) &&
      forall i :: 0 <= i < |s| && i != IndexOfId(s, id) ==> r[i] == s[i]
  {
    var i := IndexOfId(s, id);
    if i == -1 then s else s[i := Entity(id, data)]
  }

  /**
   * `save*(data, id?)`: `if (id)` updates, otherwise inserts. A missing id and
   * the id 0 are both falsy in the source, so both insert.
   */
  function Save<T>(s: seq<Entity<T>>, data: T, id: Option<nat>): (r: seq<Entity<T>>)
    ensures UniqueIds(s) ==> UniqueIds(r)
    ensures id.None? || id.value == 0 ==>
      && |r| == |s| + 1 && r[..|s|] == s
      && r[|s|].data == data && r[|s|].id !in Ids(s)
      && FindById(r, r[|s|].id) == Some(r[|s|])
    ensures id.Some? && id.value != 0 ==>
      && Ids(r) == Ids(s)
      && (id.value in Ids(s) ==> FindById(r, id.value) == Some(Entity(id.value, data)))
      && (id.value !in Ids(s) ==> r == s)
  {
    if id.Some? && id.value != 0 then
      SavedUpdateFound(s, id.value, data);
      Update(s, id.value, data)
    else
      SavedInsertFound(s, data);
      Insert(s, data)
  }

  /** `list.filter(x => x.id !== id)`. */
  function Delete<T>(s: seq<Entity<T>>, id: nat): (r: seq<Entity<T>>)
    ensures |r| <= |s|
    ensures forall e :: e in r ==> e in s && e.id != id
    ensures forall e :: e in s && e.id != id ==> e in r
    decreases |s|
  {
    if |s| == 0 then []
    else
      var last := s[|s| - 1];
      Delete(s[..|s| - 1], id) + (if last.id != id then [last] else [])
  }

  // ----- Properties of the collection operations -----

  /** Ids are assigned as max + 1: 1 for an empty list, beyond every existing id. */
  lemma NextIdFresh<T>(s: seq<Entity<T>>)
    ensures |s| == 0 ==> NextId(s) == 1
    ensures forall e :: e in s ==> e.id < NextId(s)
    ensures forall e :: e in s ==> e.id != NextId(s)
  {
  }

  /** Inserting keeps ids unique. */
  lemma InsertKeepsUniqueIds<T>(s: seq<Entity<T>>, data: T)
    requires UniqueIds(s)
    ensures UniqueIds(Insert(s, data))
  {
    var r := Insert(s, data);
    forall i, j | 0 <= i < j < |r|
      ensures r[i].id != r[j].id
    {
      if j == |s| {
        assert r[i] in s;
      }
    }
  }

  /** Updating keeps ids unique: the replaced record keeps the id it had. */
  lemma UpdateKeepsUniqueIds<T>(s: seq<Entity<T>>, id: nat, data: T)
    requires UniqueIds(s)
    ensures UniqueIds(Update(s, id, data))
    ensures Ids(Update(s, id, data)) == Ids(s)
  {
  }

  /** An inserted record gets a fresh id, and looking that id up finds it. */
  lemma SavedInsertFound<T>(s: seq<Entity<T>>, data: T)
    ensures UniqueIds(s) ==> UniqueIds(Insert(s, data))
    ensures NextId(s) !in Ids(s)
    ensures FindById(Insert(s, data), NextId(s)) == Some(Entity(NextId(s), data))
  {
    var r := Insert(s, data);
    if UniqueIds(s) {
      InsertKeepsUniqueIds(s, data);
    }
    forall i | 0 <= i < |s| ensures Ids(s)[i] != NextId(s) && r[i].id != NextId(s) {
      assert s[i] in s;
    }
  }

  /** An update keeps the ids, and looking the id up finds the new data. */
  lemma SavedUpdateFound<T>(s: seq<Entity<T>>, id: nat, data: T)
    ensures UniqueIds(s) ==> UniqueIds(Update(s, id, data))
    ensures Ids(Update(s, id, data)) == Ids(s)
    ensures id in Ids(s) ==> FindById(Update(s, id, data), id) == Some(Entity(id, data))
  {
    var r := Update(s, id, data);
    if id in Ids(s) {
      var i := IndexOfId(s, id);
      assert i != -1;
      assert forall j :: 0 <= j < i ==> r[j].id != id;
    }
  }

  /** Deleting keeps exactly the other records, in their original order. */
  lemma {:induction false} DeleteDistributes<T>(a: seq<Entity<T>>, b: seq<Entity<T>>, id: nat)
    ensures Delete(a + b, id) == Delete(a, id) + Delete(b, id)
    decreases |b|
  {
    if |b| == 0 {
      assert a + b == a;
    } else {
      var b' := b[..|b| - 1];
      assert (a + b)[..|a + b| - 1] == a + b';
      assert (a + b)[|a + b| - 1] == b[|b| - 1];
      DeleteDistributes(a, b', id);
    }
  }

  /** Deleting an id that no record has leaves the list as it was. */
  lemma {:induction false} DeleteAbsent<T>(s: seq<Entity<T>>, id: nat)
    requires forall e :: e in s ==> e.id != id
    ensures Delete(s, id) == s
    decreases |s|
  {
    if |s| > 0 {
      var s' := s[..|s| - 1];
      assert s == s' + [s[|s| - 1]];
      DeleteAbsent(s', id);
    }
  }

  /** Deleting twice is deleting once. */
  lemma DeleteIdempotent<T>(s: seq<Entity<T>>, id: nat)
    ensures Delete(Delete(s, id), id) == Delete(s, id)
  {
    DeleteAbsent(Delete(s, id), id);
  }

  /** Deleting keeps ids unique. */
  lemma {:induction false} DeleteKeepsUniqueIds<T>(s: seq<Entity<T>>, id: nat)
    requires UniqueIds(s)
    ensures UniqueIds(Delete(s, id))
    decreases |s|
  {
    if |s| > 0 {
      var s' := s[..|s| - 1];
      var last := s[|s| - 1];
      assert UniqueIds(s');
      DeleteKeepsUniqueIds(s', id);
      var d := Delete(s', id);
      forall e | e in d ensures e.id != last.id {
        assert e in s';
      }
    }
  }

  /** Deleting the record just inserted gives back the list before the insert. */
  lemma DeleteUndoesInsert<T>(s: seq<Entity<T>>, data: T)
    ensures Delete(Insert(s, data), NextId(s)) == s
  {
    var n := NextId(s);
    assert Insert(s, data) == s + [Entity(n, data)];
    DeleteDistributes(s, [Entity(n, data)], n);
    assert Delete([Entity(n, data)], n) == [] by {
      assert [Entity(n, data)][..0] == [];
    }
    DeleteAbsent(s, n);
  }

  /** Two updates of the same record: the later one wins. */
  lemma UpdateTwice<T>(s: seq<Entity<T>>, id: nat, d1: T, d2: T)
    ensures Update(Update(s, id, d1), id, d2) == Update(s, id, d2)
  {
    var i := IndexOfId(s, id);
    var s1 := Update(s, id, d1);
    assert IndexOfId(s1, id) == i by {
      if i >= 0 {
        assert forall j :: 0 <= j < i ==> s1[j] == s[j];
      }
    }
  }

  /**
   * Summing per parent record: if every child record names exactly one
   * parent (parents have unique ids and every child's key resolves), adding
   * up each parent's share of the children gives the total of all children.
   */
  function SumPerEntity<X, R>(es: seq<Entity<X>>, rs: seq<R>, key: R -> int, f: R -> real): real
    decreases |es|
  {
    if |es| == 0 then 0.0
    else SumPerEntity(es[..|es| - 1], rs, key, f) + Sum(Select(rs, key, es[|es| - 1].id), f)
  }

  lemma IdsSnoc<T>(s: seq<Entity<T>>, e: Entity<T>)
    ensures Ids(s + [e]) == Ids(s) + [e.id]
  {
  }

  /** With unique parent ids, one more child adds its value once if it names a parent, else not at all. */
  lemma {:induction false} SumPerEntitySnoc<X, R>(es: seq<Entity<X>>, rs: seq<R>, x: R,
                                                 key: R -> int, f: R -> real)
    requires UniqueIds(es)
    ensures SumPerEntity(es, rs + [x], key, f)
         == SumPerEntity(es, rs, key, f) + (if key(x) in Ids(es) then f(x) else 0.0)
    decreases |es|
  {
    if |es| > 0 {
      var es' := es[..|es| - 1];
      var e := es[|es| - 1];
      assert es == es' + [e];
      IdsSnoc(es', e);
      assert UniqueIds(es');
      SumPerEntitySnoc(es', rs, x, key, f);
      SumSelectSnoc(rs, x, key, e.id, f);
      if key(x) == e.id {
        assert key(x) !in Ids(es');
      }
    }
  }

  lemma {:induction false} SumPerEntityEmpty<X, R>(es: seq<Entity<X>>, rs: seq<R>,
                                                  key: R -> int, f: R -> real)
    requires |rs| == 0
    ensures SumPerEntity(es, rs, key, f) == 0.0
    decreases |es|
  {
    if |es| > 0 {
      SumPerEntityEmpty(es[..|es| - 1], rs, key, f);
    }
  }

  /**
   * Summing per parent covers every child exactly once when parents have
   * unique ids and every child's key names one of them.
   */
  lemma {:induction false} SumPerEntityTotal<X, R>(es: seq<Entity<X>>, rs: seq<R>,
                                                  key: R -> int, f: R -> real)
    requires UniqueIds(es)
    requires forall x :: x in rs ==> key(x) in Ids(es)
    ensures SumPerEntity(es, rs, key, f) == Sum(rs, f)
    decreases |rs|
  {
    if |rs| == 0 {
      SumPerEntityEmpty(es, rs, key, f);
    } else {
      var rs' := rs[..|rs| - 1];
      var x := rs[|rs| - 1];
      assert rs == rs' + [x];
      SumPerEntityTotal(es, rs', key, f);
      SumPerEntitySnoc(es, rs', x, key, f);
    }
  }
}
