/** The CRUD rules of helpers.py over one `products` table: `read_items`,
    `create_item`, `update_item` and `delete_item`. */
module Helpers {
  import opened Wrappers
  import opened JsonValues
  import opened PyText
  import opened Model
  import opened Responses
  import opened Storage

  /** The record `create_item` builds from loaded data: every stored field
      comes from the input and the input's `id`, if any, is not used. */
  function NewProduct(d: Loaded): (p: Product)
    requires d.description.Some?
    ensures Load(Dump(0, p)).Success? && Load(Dump(0, p)).value == d.(id := Some(0))
  {
    Product(d.name, d.description, d.productCode, d.brand, d.price)
  }

  /** A create request whose body holds exactly the five record fields is
      answered with that body plus the new id. */
  lemma CreatedRecordEchoesInput(m: map<string, Json>, id: int)
    requires m.Keys == {"name", "description", "product_code", "brand", "price"}
    requires Load(Obj(m)).Success?
    ensures Load(Obj(m)).value.description.Some?
    ensures Dump(id, NewProduct(Load(Obj(m)).value)) == Obj(m["id" := Num(id as real)])
  {
    var d := Load(Obj(m)).value;
    assert "description" in m;
    var expected := m["id" := Num(id as real)];
    var dumped := Dump(id, NewProduct(d)).members;
    assert dumped.Keys == expected.Keys;
    forall k | k in dumped ensures dumped[k] == expected[k] {
    }
    assert dumped == expected;
  }

  /** One `setattr(product, attr, val)` of the update loop. */
  datatype Assignment =
    | SetId(id: int)
    | SetName(name: string)
    | SetDescription(description: string)
    | SetProductCode(productCode: string)
    | SetBrand(brand: string)
    | SetPrice(price: real)

  /** `data.items()` for loaded data: one entry per field the input had, in
      schema order. */
  function Items(d: Loaded): (items: seq<Assignment>) {
    (if d.id.Some? then [SetId(d.id.value)] else [])
    + [SetName(d.name)]
    + (if d.description.Some? then [SetDescription(d.description.value)] else [])
    + [SetProductCode(d.productCode), SetBrand(d.brand), SetPrice(d.price)]
  }

  function SetAttr(p: Product, a: Assignment): (q: Product) {
    match a
    case SetId(_) => p
    case SetName(v) => p.(name := v)
    case SetDescription(v) => p.(description := Some(v))
    case SetProductCode(v) => p.(productCode := v)
    case SetBrand(v) => p.(brand := v)
    case SetPrice(v) => p.(price := v)
  }

  /** The record the loop leaves after applying `items` in order from `p`,
      skipping `id`. */
  function Replay(p: Product, items: seq<Assignment>): (q: Product)
    decreases |items|
  {
    if items == [] then p
    else Replay(if items[0].SetId? then p else SetAttr(p, items[0]), items[1..])
  }

  /** What an update does to the targeted record: every loaded field but
      `id` replaces the stored one; a description the input lacks is kept. */
  function Overwrite(p: Product, d: Loaded): (q: Product) {
    Product(d.name, if d.description.Some? then d.description else p.description, d.productCode, d.brand, d.price)
  }

  /** Replaying `data.items()` performs exactly the overwrite. */
  lemma ReplayItems(p: Product, d: Loaded)
    ensures Replay(p, Items(d)) == Overwrite(p, d)
  {
    var tail := [SetProductCode(d.productCode), SetBrand(d.brand), SetPrice(d.price)];
    var q := p.(name := d.name);
    if d.description.Some? {
      q := q.(description := d.description);
    }
    assert Replay(q, tail) == Overwrite(p, d) by {
      var q1 := q.(productCode := d.productCode);
      var q2 := q1.(brand := d.brand);
      var q3 := q2.(price := d.price);
      assert tail[1..] == [SetBrand(d.brand), SetPrice(d.price)];
      assert Replay(q, tail) == Replay(q1, tail[1..]);
      assert tail[1..][1..] == [SetPrice(d.price)];
      assert Replay(q1, tail[1..]) == Replay(q2, [SetPrice(d.price)]);
      assert [SetPrice(d.price)][1..] == [];
      assert Replay(q2, [SetPrice(d.price)]) == q3;
    }
    var middle := [SetName(d.name)] + (if d.description.Some? then [SetDescription(d.description.value)] else []);
    assert Replay(p, middle + tail) == Replay(q, tail) by {
      assert (middle + tail)[1..] == middle[1..] + tail;
      if d.description.Some? {
        assert (middle[1..] + tail)[1..] == tail;
      } else {
        assert middle[1..] + tail == tail;
      }
    }
    if d.id.Some? {
      assert Items(d) == [SetId(d.id.value)] + (middle + tail);
      assert Items(d)[1..] == middle + tail;
    } else {
      assert Items(d) == middle + tail;
    }
  }

  /** The `for attr, val in data.items()` loop of `update_item`. */
  method ApplyLoaded(p: Product, d: Loaded) returns (q: Product)
    ensures q == Overwrite(p, d)
  {
    var items := Items(d);
    q := p;
    for i := 0 to |items|
      invariant Replay(q, items[i..]) == Replay(p, items)
    {
      assert items[i..][1..] == items[i + 1..];
      var item := items[i];
      if item.SetId? {
        continue;
      }
      q := SetAttr(q, item);
    }
    assert items[|items|..] == [];
    ReplayItems(p, d);
  }

  /** An update request holding every schema field is answered with exactly
      that body. */
  lemma UpdatedRecordEchoesInput(m: map<string, Json>, p: Product)
    requires m.Keys == SchemaKeys
    requires Load(Obj(m)).Success?
    ensures Load(Obj(m)).value.id.Some?
    ensures Dump(Load(Obj(m)).value.id.value, Overwrite(p, Load(Obj(m)).value)) == Obj(m)
  {
    var d := Load(Obj(m)).value;
    assert "id" in m && "description" in m;
    var dumped := Dump(d.id.value, Overwrite(p, d)).members;
    forall k | k in dumped ensures dumped[k] == m[k] {
    }
    assert dumped == m;
  }

  /** `filter_by_inputs('name')`: the row whose name is the stripped argument. */
  function FilterByName(t: Table, hi: int, arg: string): (r: Reply)
    requires KeysBelow(t, hi)
    ensures !NameTaken(t, Strip(arg)) ==> r == GenerateFailureResponse(BadRequest, "Product does not exist")
    ensures NamesUnique(t) ==> forall id :: id in t && t[id].name == Strip(arg) ==> r == GenerateSuccessResponse(OK, Dump(id, t[id]))
    ensures r.code == 200 || r.code == 400
  {
    match FindByName(t, hi, Strip(arg))
    case None => GenerateFailureResponse(BadRequest, "Product does not exist")
    case Some(id) => GenerateSuccessResponse(OK, Dump(id, t[id]))
  }

  /** The products table with its primary-key counter. */
  class ProductTable {
    var rows: Table
    var nextId: int

    /** Keys are below the counter, and no two rows share a name. */
    ghost predicate Valid()
      reads this
    {
      nextId >= 1 && KeysBelow(rows, nextId) && NamesUnique(rows)
    }

    constructor ()
      ensures Valid() && rows == map[] && nextId == 1
    {
      rows := map[];
      nextId := 1;
    }

    /** `read_items(args)`. */
    function ReadItems(args: map<string, string>): (r: Reply)
      reads this
      requires Valid()
      ensures |args| > 0 && "name" !in args ==> r == GenerateFailureResponse(BadRequest, "Invalid data provided")
      ensures "name" in args && !NameTaken(rows, Strip(args["name"])) ==> r == GenerateFailureResponse(BadRequest, "Product does not exist")
      ensures "name" in args ==> forall id :: id in rows && rows[id].name == Strip(args["name"]) ==> r == GenerateSuccessResponse(OK, Dump(id, rows[id]))
      ensures |args| == 0 ==> r == GenerateSuccessResponse(OK, Arr(ListAll(rows, nextId)))
    {
      if |args| > 0 then
        if "name" in args then FilterByName(rows, nextId, args["name"])
        else GenerateFailureResponse(BadRequest, "Invalid data provided")
      else
        GenerateSuccessResponse(OK, Arr(ListAll(rows, nextId)))
    }

    /** Adds `p` under the next primary key, which no row has yet. */
    method Insert(p: Product) returns (id: int)
      requires Valid() && !NameTaken(rows, p.name)
      modifies this
      ensures Valid()
      ensures id == old(nextId) && id !in old(rows)
      ensures rows == old(rows)[id := p] && nextId == old(nextId) + 1
    {
      id := nextId;
      InsertKeepsNamesUnique(rows, id, p);
      rows := rows[id := p];
      nextId := nextId + 1;
    }

    /** `create_item(json_data)`. */
    method CreateItem(body: Json) returns (r: Reply)
      requires Valid()
      modifies this
      ensures Valid()
      ensures r.code != 201 ==> rows == old(rows) && nextId == old(nextId)
      ensures !Truthy(body) ==> r == GenerateFailureResponse(BadRequest, "No input data provided")
      ensures Truthy(body) ==> match Load(body) {
        case Failure(e) => r == GenerateFailureResponse(InternalServerError, ValidationMessage(e))
        case Success(d) =>
          if NameTaken(old(rows), d.name) then
            r == GenerateFailureResponse(BadRequest, "Product already exists")
          else if d.description.None? then
            r == GenerateFailureResponse(InternalServerError, "'description'")
          else
            && old(nextId) !in old(rows)
            && rows == old(rows)[old(nextId) := NewProduct(d)]
            && nextId == old(nextId) + 1
            && r == GenerateSuccessResponse(Created, Dump(old(nextId), NewProduct(d)))
      }
    {
      if !Truthy(body) {
        return GenerateFailureResponse(BadRequest, "No input data provided");
      }
      var loaded := Load(body);
      if loaded.Failure? {
        return GenerateFailureResponse(InternalServerError, ValidationMessage(loaded.error));
      }
      var d := loaded.value;
      var existing := FindByName(rows, nextId, d.name);
      if existing.Some? {
        return GenerateFailureResponse(BadRequest, "Product already exists");
      }
      if d.description.None? {
        // `data['description']` raises KeyError('description').
        return GenerateFailureResponse(InternalServerError, "'description'");
      }
      var product := NewProduct(d);
      var id := Insert(product);
      r := GenerateSuccessResponse(Created, Dump(id, product));
    }

    /** Commits `p` as the new record under the existing key `id`. */
    method Store(id: int, p: Product)
      requires Valid() && id in rows
      requires p.name == rows[id].name || !NameTaken(rows, p.name)
      modifies this
      ensures Valid() && nextId == old(nextId)
      ensures rows == old(rows)[id := p]
    {
      ReplaceKeepsNamesUnique(rows, id, p);
      rows := rows[id := p];
    }

    /** `update_item(json_data)`. */
    method UpdateItem(body: Json) returns (r: Reply)
      requires Valid()
      modifies this
      ensures Valid() && nextId == old(nextId)
      ensures r.code != 200 ==> rows == old(rows)
      ensures !Truthy(body) ==> r.code == 500
      ensures match Load(body) {
        case Failure(e) => r == GenerateFailureResponse(InternalServerError, ValidationMessage(e))
        case Success(d) =>
          if d.id.None? then
            r == GenerateFailureResponse(BadRequest, "Invalid data provided")
          else if d.id.value !in old(rows) then
            r == GenerateFailureResponse(BadRequest, "Product does not exist")
          else if d.name != old(rows)[d.id.value].name && NameTaken(old(rows), d.name) then
            r == GenerateFailureResponse(BadRequest, "Product already exists")
          else
            && rows == old(rows)[d.id.value := Overwrite(old(rows)[d.id.value], d)]
            && r == GenerateSuccessResponse(OK, Dump(d.id.value, rows[d.id.value]))
      }
    {
      if !Truthy(body) {
        // The source builds this reply and drops it: empty input goes on to `load`.
        var dropped := GenerateFailureResponse(BadRequest, "No input data provided");
        FalsyInputFails(body);
      }
      var loaded := Load(body);
      if loaded.Failure? {
        return GenerateFailureResponse(InternalServerError, ValidationMessage(loaded.error));
      }
      var d := loaded.value;
      if d.id.None? {
        return GenerateFailureResponse(BadRequest, "Invalid data provided");
      }
      var id := d.id.value;
      if id !in rows {
        return GenerateFailureResponse(BadRequest, "Product does not exist");
      }
      var product := rows[id];
      if d.name != product.name {
        var other := FindByName(rows, nextId, d.name);
        if other.Some? {
          return GenerateFailureResponse(BadRequest, "Product already exists");
        }
      }
      var updated := ApplyLoaded(product, d);
      Store(id, updated);
      var reread := rows[id];
      r := GenerateSuccessResponse(OK, Dump(id, reread));
    }

    /** `delete_item(args)`. The success payload is the number of rows the
        delete removed. */
    method DeleteItem(args: map<string, string>) returns (r: Reply)
      requires Valid()
      modifies this
      ensures Valid() && nextId == old(nextId)
      ensures r.code != 200 ==> rows == old(rows)
      ensures "id" !in args ==> r == GenerateFailureResponse(BadRequest, "No input data provided")
      ensures "id" in args ==> match ParseInt(Strip(args["id"])) {
        case None => r == GenerateFailureResponse(BadRequest, "Invalid data provided")
        case Some(id) =>
          if id in old(rows) then
            rows == old(rows) - {id} && r == GenerateSuccessResponse(OK, Num(1.0))
          else
            r == GenerateFailureResponse(BadRequest, "Product does not exist")
      }
    {
      if |args| > 0 && "id" in args {
        var parsed := ParseInt(Strip(args["id"]));
        if parsed.None? {
          return GenerateFailureResponse(BadRequest, "Invalid data provided");
        }
        var id := parsed.value;
        var deleted := if id in rows then 1 else 0;
        RemoveKeepsNamesUnique(rows, id);
        rows := rows - {id};
        if deleted == 0 {
          return GenerateFailureResponse(BadRequest, "Product does not exist");
        }
        r := GenerateSuccessResponse(OK, Num(deleted as real));
      } else {
        r := GenerateFailureResponse(BadRequest, "No input data provided");
      }
    }
  }
}
