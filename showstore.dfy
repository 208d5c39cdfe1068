/** The "shows" collection of the flat-file datastore, as the handlers use
    it. The datastore module itself is not part of this model: its three
    operations used here are defined by the contracts they are given. */
module ShowStore {
  import opened Wrappers
  import opened PyJson
  import opened Sequences

  /** A stored record: the dict the client sent, plus the id the store
      assigned to it. */
  datatype Show = Show(id: int, fields: map<string, Json>)

  /** The collection, in the order the store keeps it. */
  type Store = seq<Show>

  /** The record as a dict; the assigned id replaces any `id` key the body had. */
  function ShowToJson(s: Show): (r: Json)
    ensures r.JObject? && "id" in r.obj && r.obj["id"] == JInt(s.id)
    ensures forall k :: k in s.fields && k != "id" ==> k in r.obj && r.obj[k] == s.fields[k]
    ensures forall k :: k in r.obj ==> k == "id" || k in s.fields
  {
    JObject(s.fields["id" := JInt(s.id)])
  }

  function ShowsToJson(shows: seq<Show>): (r: seq<Json>)
    ensures |r| == |shows|
    ensures forall i :: 0 <= i < |shows| ==> r[i] == ShowToJson(shows[i])
  {
    seq(|shows|, i requires 0 <= i < |shows| => ShowToJson(shows[i]))
  }

  predicate HasId(store: Store, id: int)
  {
    exists i :: 0 <= i < |store| && store[i].id == id
  }

  /** The store's invariant: ids are unique within the collection. */
  predicate UniqueIds(store: Store)
  {
    forall i, j :: 0 <= i < j < |store| ==> store[i].id != store[j].id
  }

  /** `getById`: the record with that id, or `None`. */
  function GetById(store: Store, id: int): (r: Option<Show>)
    ensures r.None? <==> !HasId(store, id)
    ensures r.Some? ==> r.value in store && r.value.id == id
  {
    if store == [] then None
    else if store[0].id == id then Some(store[0])
    else
      var r := GetById(store[1..], id);
      assert HasId(store, id) ==> store[0].id == id || HasId(store[1..], id) by {
        if HasId(store, id) {
          var i :| 0 <= i < |store| && store[i].id == id;
          if i > 0 { assert store[1..][i - 1].id == id; }
        }
      }
      assert HasId(store[1..], id) ==> HasId(store, id) by {
        if HasId(store[1..], id) {
          var i :| 0 <= i < |store[1..]| && store[1..][i].id == id;
          assert store[i + 1].id == id;
        }
      }
      r
  }

  /** With unique ids the record found is the one at the id's position. */
  lemma {:induction false} GetByIdAt(store: Store, i: int)
    requires UniqueIds(store)
    requires 0 <= i < |store|
    ensures GetById(store, store[i].id) == Some(store[i])
  {
    if i > 0 {
      assert store[0].id != store[i].id;
      assert UniqueIds(store[1..]) by {
        forall a, b | 0 <= a < b < |store[1..]| ensures store[1..][a].id != store[1..][b].id {
          assert store[1..][a] == store[a + 1] && store[1..][b] == store[b + 1];
        }
      }
      GetByIdAt(store[1..], i - 1);
    }
  }

  /** `deleteById`: the collection without the records that have that id. */
  function DeleteById(store: Store, id: int): (r: Store)
    ensures !HasId(r, id)
    ensures forall s :: s in store && s.id != id ==> s in r
    ensures forall s :: s in r ==> s in store
    ensures !HasId(store, id) ==> r == store
  {
    if store == [] then []
    else
      var rest := DeleteById(store[1..], id);
      assert !HasId(store, id) ==> !HasId(store[1..], id) by {
        if HasId(store[1..], id) {
          var i :| 0 <= i < |store[1..]| && store[1..][i].id == id;
          assert store[i + 1].id == id;
        }
      }
      if store[0].id == id then rest
      else
        assert store == [store[0]] + store[1..];
        [store[0]] + rest
  }

  /** Deleting keeps the other records in their order. */
  lemma {:induction false} DeleteByIdIsSubsequence(store: Store, id: int)
    ensures IsSubsequence(DeleteById(store, id), store)
  {
    if store != [] {
      DeleteByIdIsSubsequence(store[1..], id);
    }
  }

  /** Deleting preserves the store's invariant. */
  lemma DeleteByIdKeepsUniqueIds(store: Store, id: int)
    requires UniqueIds(store)
    ensures UniqueIds(DeleteById(store, id))
  {
    DeleteByIdIsSubsequence(store, id);
    SubsequenceUniqueIds(DeleteById(store, id), store);
  }

  lemma {:induction false} SubsequenceUniqueIds(xs: Store, ys: Store)
    requires IsSubsequence(xs, ys)
    requires UniqueIds(ys)
    ensures UniqueIds(xs)
    decreases |ys|
  {
    if xs != [] {
      assert UniqueIds(ys[1..]) by {
        forall a, b | 0 <= a < b < |ys[1..]| ensures ys[1..][a].id != ys[1..][b].id {
          assert ys[1..][a] == ys[a + 1] && ys[1..][b] == ys[b + 1];
        }
      }
      if xs[0] == ys[0] && IsSubsequence(xs[1..], ys[1..]) {
        SubsequenceUniqueIds(xs[1..], ys[1..]);
        SubsequenceMembers(xs[1..], ys[1..]);
        forall j | 0 < j < |xs| ensures xs[0].id != xs[j].id {
          assert xs[j] == xs[1..][j - 1];
          assert xs[j] in xs[1..];
          var k :| 0 <= k < |ys[1..]| && ys[1..][k] == xs[j];
          assert ys[k + 1] == xs[j];
        }
        forall a, b | 0 <= a < b < |xs| ensures xs[a].id != xs[b].id {
          if a > 0 { assert xs[a] == xs[1..][a - 1] && xs[b] == xs[1..][b - 1]; }
        }
      } else {
        SubsequenceUniqueIds(xs, ys[1..]);
      }
    }
  }

  /** The id the store assigns to a new record: one more than the largest
      id in use, and at least 1. */
  function NextId(store: Store): (r: int)
    ensures r >= 1
    ensures forall i :: 0 <= i < |store| ==> store[i].id < r
  {
    if store == [] then 1
    else
      var rest := NextId(store[1..]);
      assert forall i :: 1 <= i < |store| ==> store[i] == store[1..][i - 1];
      if store[0].id + 1 > rest then store[0].id + 1 else rest
  }

  datatype Created = Created(record: Show, store: Store)

  /** `create`: the body is stored as a new record with a fresh id at the
      end of the collection. */
  function Create(store: Store, body: map<string, Json>): (r: Created)
    ensures r.store == store + [r.record]
    ensures r.record.fields == body
    ensures !HasId(store, r.record.id)
  {
    Created(Show(NextId(store), body), store + [Show(NextId(store), body)])
  }

  /** Creating preserves the store's invariant. */
  lemma CreateKeepsUniqueIds(store: Store, body: map<string, Json>)
    requires UniqueIds(store)
    ensures UniqueIds(Create(store, body).store)
  {
    var c := Create(store, body);
    forall i, j | 0 <= i < j < |c.store| ensures c.store[i].id != c.store[j].id {
      if j == |store| {
        assert c.store[i] == store[i];
      } else {
        assert c.store[i] == store[i] && c.store[j] == store[j];
      }
    }
  }

  /** A record read back after creation is the record created. */
  lemma GetAfterCreate(store: Store, body: map<string, Json>)
    requires UniqueIds(store)
    ensures GetById(Create(store, body).store, Create(store, body).record.id) == Some(Create(store, body).record)
  {
    var c := Create(store, body);
    CreateKeepsUniqueIds(store, body);
    assert c.store[|store|] == c.record;
    GetByIdAt(c.store, |store|);
  }
}
