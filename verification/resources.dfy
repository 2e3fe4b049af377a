/**
  The id-keyed collections of the session store: users, channels, groups,
  IMs and bots.

  Each collection is a dictionary from a resource's id to its attribute
  record. It is modelled as a list of (id, record) entries in the
  dictionary's iteration order: assigning to a present id replaces its record
  where it stands, assigning to a new id adds an entry at the end.
 */
module Resources {
  import opened Values

  type Collection = seq<(string, Record)>

  function IdSet(c: Collection): set<string> {
    set e | e in c :: e.0
  }

  /** No id occurs twice, as in a dictionary. */
  predicate DistinctIds(c: Collection) {
    forall i, j :: 0 <= i < j < |c| ==> c[i].0 != c[j].0
  }

  /** The id is only the key: no stored record repeats it. */
  predicate NoIdField(c: Collection) {
    forall e :: e in c ==> "id" !in e.1
  }

  /** A record without its `id` attribute. */
  function Strip(r: Record): (s: Record)
    ensures "id" !in s
    ensures forall k :: k in r && k != "id" ==> k in s && s[k] == r[k]
    ensures forall k :: k in s ==> k in r
  {
    r - {"id"}
  }

  lemma IdSetCons(c: Collection)
    requires c != []
    ensures IdSet(c) == {c[0].0} + IdSet(c[1..])
  {
    assert forall e :: e in c <==> e == c[0] || e in c[1..];
  }

  /** The record stored under an id, the first one if the list repeated it. */
  function Get(c: Collection, id: string): (r: Option<Record>)
    ensures r.Some? <==> id in IdSet(c)
    ensures r.Some? ==> (id, r.value) in c
  {
    if c == [] then None
    else
      IdSetCons(c);
      if c[0].0 == id then Some(c[0].1) else Get(c[1..], id)
  }

  /** `c[id] = rec`: replaces the record of a present id in place, or appends a new entry. */
  function Put(c: Collection, id: string, rec: Record): (r: Collection)
    ensures forall k :: Get(r, k) == if k == id then Some(rec) else Get(c, k)
    ensures IdSet(r) == IdSet(c) + {id}
    ensures DistinctIds(c) ==> DistinctIds(r)
    ensures NoIdField(c) && "id" !in rec ==> NoIdField(r)
    ensures (id, rec) in r
  {
    if c == [] then
      [(id, rec)]
    else if c[0].0 == id then
      IdSetCons(c);
      var r := [(id, rec)] + c[1..];
      IdSetCons(r);
      assert r[1..] == c[1..];
      assert forall e :: e in r <==> e == (id, rec) || e in c[1..];
      DistinctCons(c);
      DistinctConsBack(r);
      r
    else
      IdSetCons(c);
      var rest := Put(c[1..], id, rec);
      var r := [c[0]] + rest;
      IdSetCons(r);
      assert r[0] == c[0] && r[1..] == rest;
      assert forall e :: e in r <==> e == c[0] || e in rest;
      DistinctCons(c);
      DistinctConsBack(r);
      r
  }

  /** A collection with distinct ids is a head whose id its tail does not hold, on a tail with distinct ids. */
  lemma DistinctCons(c: Collection)
    requires c != []
    ensures DistinctIds(c) ==> c[0].0 !in IdSet(c[1..]) && DistinctIds(c[1..])
  {
    if DistinctIds(c) {
      forall i, j | 0 <= i < j < |c[1..]| ensures c[1..][i].0 != c[1..][j].0 {
        assert c[1..][i] == c[i + 1] && c[1..][j] == c[j + 1];
      }
      forall e | e in c[1..] ensures e.0 != c[0].0 {
        var i :| 0 <= i < |c[1..]| && c[1..][i] == e;
        assert c[1..][i] == c[i + 1];
      }
    }
  }

  /** The converse of DistinctCons. */
  lemma DistinctConsBack(c: Collection)
    requires c != []
    ensures c[0].0 !in IdSet(c[1..]) && DistinctIds(c[1..]) ==> DistinctIds(c)
  {
    if c[0].0 !in IdSet(c[1..]) && DistinctIds(c[1..]) {
      forall i, j | 0 <= i < j < |c| ensures c[i].0 != c[j].0 {
        assert c[j] == c[1..][j - 1];
        if i > 0 {
          assert c[i] == c[1..][i - 1];
        } else {
          assert c[j] in c[1..];
        }
      }
    }
  }

  /** `c[key]`: the record under a key, a KeyError when there is none. */
  function Lookup(c: Collection, key: Value): (r: Result<Record>)
    ensures r.Success? <==> key.Str? && key.s in IdSet(c)
    ensures r.Success? ==> Get(c, key.s) == Some(r.value)
    ensures r.Failure? && Hashable(key) ==> r.error == KeyError(key)
  {
    if !Hashable(key) then Failure(TypeError("unhashable type"))
    else if key.Str? && Get(c, key.s).Some? then Success(Get(c, key.s).value)
    else Failure(KeyError(key))
  }

  /**
    `c[key] = rec`. Ids are strings in this model: a key of any other kind is
    refused.
   */
  function Insert(c: Collection, key: Value, rec: Record): (r: Result<Collection>)
    ensures r.Success? <==> key.Str?
    ensures r.Success? ==> r.value == Put(c, key.s, rec)
  {
    if !Hashable(key) then Failure(TypeError("unhashable type"))
    else if !key.Str? then Failure(TypeError("resource ids are strings"))
    else Success(Put(c, key.s, rec))
  }

  /**
    `c[key][field] = v`: sets one attribute of a record that must already be
    there; a missing key is a KeyError, never an insertion.
   */
  function SetField(c: Collection, key: Value, field: string, v: Value): (r: Result<Collection>)
    ensures r.Success? <==> key.Str? && key.s in IdSet(c)
    ensures r.Failure? && Hashable(key) ==> r.error == KeyError(key)
    ensures r.Success? ==> IdSet(r.value) == IdSet(c)
    ensures r.Success? ==> forall k :: Get(r.value, k) == if k == key.s then Some(Get(c, k).value[field := v]) else Get(c, k)
    ensures r.Success? && DistinctIds(c) ==> DistinctIds(r.value)
    ensures r.Success? && NoIdField(c) && field != "id" ==> NoIdField(r.value)
  {
    var rec :- Lookup(c, key);
    assert NoIdField(c) ==> "id" !in rec by { assert (key.s, rec) in c; }
    Success(Put(c, key.s, rec[field := v]))
  }
}
