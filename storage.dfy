/** The `products` table seen as a map from primary key to record, and the
    queries the helpers run against it: `Product.query.all()` and
    `Product.query.filter_by(...).first()`. */
module Storage {
  import opened Wrappers
  import opened JsonValues
  import opened Model

  type Table = map<int, Product>

  /** The uniqueness invariant: no two rows share a name. */
  ghost predicate NamesUnique(t: Table) {
    forall i, j :: i in t && j in t && t[i].name == t[j].name ==> i == j
  }

  ghost predicate NameTaken(t: Table, name: string) {
    exists id :: id in t && t[id].name == name
  }

  /** Every primary key lies in `[1, hi)`: `hi` is the next key storage
      will hand out. */
  ghost predicate KeysBelow(t: Table, hi: int) {
    forall id :: id in t ==> 1 <= id < hi
  }

  /** The primary keys in `[lo, hi)`, in ascending order. */
  function KeysBetween(t: Table, lo: int, hi: int): (ids: seq<int>)
    ensures forall i :: 0 <= i < |ids| ==> ids[i] in t && lo <= ids[i] < hi
    ensures forall id :: id in t && lo <= id < hi ==> id in ids
    ensures forall i, j :: 0 <= i < j < |ids| ==> ids[i] < ids[j]
    decreases hi - lo
  {
    if lo >= hi then []
    else if lo in t then [lo] + KeysBetween(t, lo + 1, hi)
    else KeysBetween(t, lo + 1, hi)
  }

  /** All primary keys, in ascending order, each exactly once. */
  function SortedKeys(t: Table, hi: int): (ids: seq<int>)
    requires KeysBelow(t, hi)
    ensures forall i :: 0 <= i < |ids| ==> ids[i] in t
    ensures forall id :: id in t ==> id in ids
    ensures forall i, j :: 0 <= i < j < |ids| ==> ids[i] < ids[j]
  {
    KeysBetween(t, 1, hi)
  }

  /** `ids[k]` is named `name` and no id before it is. */
  ghost predicate FirstMatchAt(t: Table, ids: seq<int>, name: string, k: int)
    requires forall i :: 0 <= i < |ids| ==> ids[i] in t
  {
    0 <= k < |ids| && t[ids[k]].name == name && forall i :: 0 <= i < k ==> t[ids[i]].name != name
  }

  /** The first id in `ids` whose row is named `name`. */
  function FirstNamed(t: Table, ids: seq<int>, name: string): (r: Option<int>)
    requires forall i :: 0 <= i < |ids| ==> ids[i] in t
    ensures r.Some? ==> r.value in ids && r.value in t && t[r.value].name == name
    ensures r.Some? ==> exists k :: FirstMatchAt(t, ids, name, k) && ids[k] == r.value
    ensures r.None? ==> forall i :: 0 <= i < |ids| ==> t[ids[i]].name != name
  {
    if ids == [] then None
    else if t[ids[0]].name == name then
      assert FirstMatchAt(t, ids, name, 0);
      Some(ids[0])
    else
      var r := FirstNamed(t, ids[1..], name);
      assert r.Some? ==> exists k :: FirstMatchAt(t, ids, name, k) && ids[k] == r.value by {
        if r.Some? {
          var k :| FirstMatchAt(t, ids[1..], name, k) && ids[1..][k] == r.value;
          assert FirstMatchAt(t, ids, name, k + 1);
        }
      }
      r
  }

  /** In an ascending list of keys, the first key named `name` is the least. */
  lemma FirstInSortedIsLeast(t: Table, ids: seq<int>, name: string, k: int)
    requires forall i :: 0 <= i < |ids| ==> ids[i] in t
    requires forall i, j :: 0 <= i < j < |ids| ==> ids[i] < ids[j]
    requires forall id :: id in t ==> id in ids
    requires FirstMatchAt(t, ids, name, k)
    ensures forall id :: id in t && id < ids[k] ==> t[id].name != name
  {
    forall id | id in t && id < ids[k] ensures t[id].name != name {
      var m :| 0 <= m < |ids| && ids[m] == id;
    }
  }

  /** `Product.query.filter_by(name=name).first()`, in primary-key order. */
  function FindByName(t: Table, hi: int, name: string): (r: Option<int>)
    requires KeysBelow(t, hi)
    ensures r.Some? ==> r.value in t && t[r.value].name == name
    ensures r.None? <==> !NameTaken(t, name)
    ensures NamesUnique(t) ==> forall id :: id in t && t[id].name == name ==> r == Some(id)
    ensures r.Some? ==> forall id :: id in t && id < r.value ==> t[id].name != name
  {
    var ids := SortedKeys(t, hi);
    var r := FirstNamed(t, ids, name);
    assert r.Some? ==> forall id :: id in t && id < r.value ==> t[id].name != name by {
      if r.Some? {
        var k :| FirstMatchAt(t, ids, name, k) && ids[k] == r.value;
        FirstInSortedIsLeast(t, ids, name, k);
      }
    }
    assert r.None? ==> forall id :: id in t ==> t[id].name != name by {
      if r.None? {
        forall id | id in t ensures t[id].name != name {
          var i :| 0 <= i < |ids| && ids[i] == id;
        }
      }
    }
    r
  }

  /** `j` is the dump of some stored row. */
  ghost predicate IsStoredRow(t: Table, j: Json) {
    exists id :: id in t && j == Dump(id, t[id])
  }

  /** `products_schema.dump(Product.query.all())`, in primary-key order: each
      entry is the dump of a stored row. */
  function ListAll(t: Table, hi: int): (rows: seq<Json>)
    requires KeysBelow(t, hi)
  {
    var ids := SortedKeys(t, hi);
    seq(|ids|, i requires 0 <= i < |ids| => Dump(ids[i], t[ids[i]]))
  }

  /** The listing holds every stored row, each exactly once, and nothing else. */
  lemma ListAllIsComplete(t: Table, hi: int)
    requires KeysBelow(t, hi)
    ensures forall i :: 0 <= i < |ListAll(t, hi)| ==> IsStoredRow(t, ListAll(t, hi)[i])
    ensures forall id :: id in t ==> Dump(id, t[id]) in ListAll(t, hi)
    ensures forall i, j :: 0 <= i < j < |ListAll(t, hi)| ==> ListAll(t, hi)[i] != ListAll(t, hi)[j]
  {
    var ids := SortedKeys(t, hi);
    var rows := ListAll(t, hi);
    forall i | 0 <= i < |rows| ensures IsStoredRow(t, rows[i]) {
      assert ids[i] in t && rows[i] == Dump(ids[i], t[ids[i]]);
    }
    forall id | id in t ensures Dump(id, t[id]) in rows {
      var i :| 0 <= i < |ids| && ids[i] == id;
      assert rows[i] == Dump(id, t[id]);
    }
    forall i, j | 0 <= i < j < |rows| ensures rows[i] != rows[j] {
      if rows[i] == rows[j] {
        DumpInjective(ids[i], t[ids[i]], ids[j], t[ids[j]]);
      }
    }
  }

  /** Inserting a row under a new name keeps names unique. */
  lemma InsertKeepsNamesUnique(t: Table, id: int, p: Product)
    requires NamesUnique(t) && id !in t && !NameTaken(t, p.name)
    ensures NamesUnique(t[id := p])
  {
  }

  /** Overwriting a row keeps names unique when the name is unchanged or no
      row has the new one. */
  lemma ReplaceKeepsNamesUnique(t: Table, id: int, p: Product)
    requires NamesUnique(t) && id in t
    requires p.name == t[id].name || !NameTaken(t, p.name)
    ensures NamesUnique(t[id := p])
  {
  }

  lemma RemoveKeepsNamesUnique(t: Table, id: int)
    requires NamesUnique(t)
    ensures NamesUnique(t - {id})
  {
  }
}
