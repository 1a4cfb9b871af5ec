/** The Product record and the schema that validates request bodies
    (Model.py). */
module Model {
  import opened Wrappers
  import opened JsonValues

  /** A stored product. The storage-assigned `id` is not part of the record:
      the table keys records by it. `description` is the one nullable
      column; the other four can never be null. */
  datatype Product = Product(
    name: string,
    description: Option<string>,
    productCode: string,
    brand: string,
    price: real)

  /** The primitive kind a schema field accepts. */
  datatype Kind = Integer | Text | Float

  datatype FieldSpec = FieldSpec(key: string, kind: Kind, required: bool)

  /** The declared schema: `id` and `description` optional, the rest required. */
  const Schema: seq<FieldSpec> := [
    FieldSpec("id", Integer, false),
    FieldSpec("name", Text, true),
    FieldSpec("description", Text, false),
    FieldSpec("product_code", Text, true),
    FieldSpec("brand", Text, true),
    FieldSpec("price", Float, true)
  ]

  /** The keys the schema declares: those of `Schema`, as `SchemaKeysAgree` shows. */
  const SchemaKeys: set<string> := {"id", "name", "description", "product_code", "brand", "price"}

  lemma SchemaKeysAgree()
    ensures forall f :: f in Schema ==> f.key in SchemaKeys
    ensures forall k :: k in SchemaKeys ==> exists i :: 0 <= i < |Schema| && Schema[i].key == k
  {
    forall k | k in SchemaKeys ensures exists i :: 0 <= i < |Schema| && Schema[i].key == k {
      if k == "id" { assert Schema[0].key == k; }
      else if k == "name" { assert Schema[1].key == k; }
      else if k == "description" { assert Schema[2].key == k; }
      else if k == "product_code" { assert Schema[3].key == k; }
      else if k == "brand" { assert Schema[4].key == k; }
      else { assert Schema[5].key == k; }
    }
  }

  predicate IsIntegral(x: real) {
    x.Floor as real == x
  }

  /** Whether a value is acceptable for a field of the given kind. `null` is
      acceptable for none of them: no field allows it. */
  predicate HasKind(v: Json, k: Kind) {
    match k
    case Integer => v.Num? && IsIntegral(v.x)
    case Text => v.Str?
    case Float => v.Num?
  }

  /** An object conforms when every required field is present, every
      present schema field has its kind, and it has no key outside the schema
      (marshmallow 3 raises on unknown fields by default). */
  predicate Conforms(m: map<string, Json>) {
    && (forall f :: f in Schema ==> (f.required ==> f.key in m) && (f.key in m ==> HasKind(m[f.key], f.kind)))
    && m.Keys <= SchemaKeys
  }

  /** The data `load` hands back: the required fields always, the optional
      ones only when the input had them. */
  datatype Loaded = Loaded(
    id: Option<int>,
    name: string,
    description: Option<string>,
    productCode: string,
    brand: string,
    price: real)

  datatype LoadError = InvalidInputType | MissingField(key: string) | InvalidValue(key: string) | UnknownField

  /** The text of the `ValidationError` for the first field that fails. */
  function ValidationMessage(e: LoadError): (msg: string) {
    match e
    case InvalidInputType => "{'_schema': ['Invalid input type.']}"
    case MissingField(key) => "{'" + key + "': ['Missing data for required field.']}"
    case InvalidValue(key) => "{'" + key + "': ['Invalid value.']}"
    case UnknownField => "{'_schema': ['Unknown field.']}"
  }

  function RequiredText(m: map<string, Json>, key: string): (r: Result<string, LoadError>) {
    if key !in m then Failure(MissingField(key))
    else if m[key].Str? then Success(m[key].s)
    else Failure(InvalidValue(key))
  }

  function OptionalText(m: map<string, Json>, key: string): (r: Result<Option<string>, LoadError>) {
    if key !in m then Success(None)
    else if m[key].Str? then Success(Some(m[key].s))
    else Failure(InvalidValue(key))
  }

  function RequiredFloat(m: map<string, Json>, key: string): (r: Result<real, LoadError>) {
    if key !in m then Failure(MissingField(key))
    else if m[key].Num? then Success(m[key].x)
    else Failure(InvalidValue(key))
  }

  function OptionalInteger(m: map<string, Json>, key: string): (r: Result<Option<int>, LoadError>) {
    if key !in m then Success(None)
    else if m[key].Num? && IsIntegral(m[key].x) then Success(Some(m[key].x.Floor))
    else Failure(InvalidValue(key))
  }

  /** `ProductSchema().load(json_data)`: validation against the schema, with
      `Failure` for the `ValidationError` it raises. */
  function Load(j: Json): (r: Result<Loaded, LoadError>)
    ensures r.Success? <==> j.Obj? && Conforms(j.members)
    ensures r.Success? ==> LoadedFrom(r.value, j.members)
  {
    match j
    case Obj(m) =>
      var id :- OptionalInteger(m, "id");
      var name :- RequiredText(m, "name");
      var description :- OptionalText(m, "description");
      var productCode :- RequiredText(m, "product_code");
      var brand :- RequiredText(m, "brand");
      var price :- RequiredFloat(m, "price");
      if !(m.Keys <= SchemaKeys) then Failure(UnknownField) else
      assert Conforms(m) by {
        forall f | f in Schema
          ensures (f.required ==> f.key in m) && (f.key in m ==> HasKind(m[f.key], f.kind))
        {
          assert f == Schema[0] || f == Schema[1] || f == Schema[2] || f == Schema[3] || f == Schema[4] || f == Schema[5];
        }
      }
      Success(Loaded(id, name, description, productCode, brand, price))
    case _ => Failure(InvalidInputType)
  }

  /** Every loaded value is the one the object holds under that key. */
  predicate LoadedFrom(d: Loaded, m: map<string, Json>) {
    && (d.id.Some? <==> "id" in m)
    && (d.id.Some? ==> m["id"] == Num(d.id.value as real))
    && "name" in m && m["name"] == Str(d.name)
    && (d.description.Some? <==> "description" in m)
    && (d.description.Some? ==> m["description"] == Str(d.description.value))
    && "product_code" in m && m["product_code"] == Str(d.productCode)
    && "brand" in m && m["brand"] == Str(d.brand)
    && "price" in m && m["price"] == Num(d.price)
  }

  /** An object holding only schema keys, each with its kind, and every
      required one, loads. */
  lemma WellTypedFieldsLoad(m: map<string, Json>)
    requires m.Keys <= SchemaKeys
    requires "name" in m && m["name"].Str? && "product_code" in m && m["product_code"].Str?
    requires "brand" in m && m["brand"].Str? && "price" in m && m["price"].Num?
    requires "description" in m ==> m["description"].Str?
    requires "id" in m ==> m["id"].Num? && IsIntegral(m["id"].x)
    ensures Load(Obj(m)).Success?
  {
  }

  /** An object lacking any required field does not load. */
  lemma MissingRequiredFieldFails(m: map<string, Json>, f: FieldSpec)
    requires f in Schema && f.required && f.key !in m
    ensures Load(Obj(m)).Failure?
  {
  }

  /** A key outside the schema makes the load fail. */
  lemma UnknownKeyFails(m: map<string, Json>, k: string)
    requires k in m && k !in SchemaKeys
    ensures Load(Obj(m)).Failure?
  {
  }

  /** `id` and `description` may be left out: dropping them from a payload
      that loads still loads, with the same required fields. */
  lemma OptionalFieldsMayBeAbsent(m: map<string, Json>)
    requires Load(Obj(m)).Success?
    ensures Load(Obj(m - {"id", "description"})).Success?
    ensures Load(Obj(m - {"id", "description"})).value == Load(Obj(m)).value.(id := None, description := None)
  {
    var n := m - {"id", "description"};
    assert "name" in n && "product_code" in n && "brand" in n && "price" in n;
    assert "id" !in n && "description" !in n;
  }

  /** Falsy input (`None`, `{}`, `[]`, `""`, `0`, `false`) never loads. */
  lemma FalsyInputFails(j: Json)
    requires !Truthy(j)
    ensures Load(j).Failure?
  {
    if j.Obj? {
      MissingRequiredFieldFails(j.members, Schema[1]);
    }
  }

  /** The six schema fields of the row stored under `id`, with `null` for a
      missing description. */
  function DumpFields(id: int, p: Product): (m: map<string, Json>) {
    map[
      "id" := Num(id as real),
      "name" := Str(p.name),
      "description" := (if p.description.Some? then Str(p.description.value) else Null),
      "product_code" := Str(p.productCode),
      "brand" := Str(p.brand),
      "price" := Num(p.price)
    ]
  }

  /** A dump has exactly the schema keys. */
  lemma DumpFieldsKeys(id: int, p: Product)
    ensures DumpFields(id, p).Keys == SchemaKeys
  {
  }

  /** A dump with a description loads back to the record and its id. */
  lemma DumpFieldsLoad(id: int, p: Product)
    requires p.description.Some?
    ensures Load(Obj(DumpFields(id, p))) == Success(Loaded(Some(id), p.name, p.description, p.productCode, p.brand, p.price))
  {
    DumpFieldsKeys(id, p);
    WellTypedFieldsLoad(DumpFields(id, p));
  }

  /** A dump without a description holds `null` there, which fails to load;
      the other five fields load back to the record and its id. */
  lemma DumpFieldsNullDescription(id: int, p: Product)
    requires p.description.None?
    ensures DumpFields(id, p)["description"] == Null
    ensures Load(Obj(DumpFields(id, p))) == Failure(InvalidValue("description"))
    ensures Load(Obj(DumpFields(id, p) - {"description"})) == Success(Loaded(Some(id), p.name, None, p.productCode, p.brand, p.price))
  {
    var n := DumpFields(id, p) - {"description"};
    DumpFieldsKeys(id, p);
    assert "id" in n && "name" in n && "product_code" in n && "brand" in n && "price" in n && "description" !in n;
    WellTypedFieldsLoad(n);
  }

  /** `product_schema.dump(product)` for the row stored under `id`: the six
      schema fields, with `null` for a missing description. */
  function Dump(id: int, p: Product): (j: Json)
    ensures j.Obj? && j.members.Keys == SchemaKeys
    ensures p.description.Some? ==> Load(j) == Success(Loaded(Some(id), p.name, p.description, p.productCode, p.brand, p.price))
    ensures p.description.None? ==> j.members["description"] == Null
    ensures p.description.None? ==> Load(j) == Failure(InvalidValue("description"))
    ensures p.description.None? ==> Load(Obj(j.members - {"description"})) == Success(Loaded(Some(id), p.name, None, p.productCode, p.brand, p.price))
  {
    DumpFieldsKeys(id, p);
    if p.description.Some? then
      DumpFieldsLoad(id, p);
      Obj(DumpFields(id, p))
    else
      DumpFieldsNullDescription(id, p);
      Obj(DumpFields(id, p))
  }

  /** Distinct ids or distinct records give distinct dumps. */
  lemma DumpInjective(id1: int, p1: Product, id2: int, p2: Product)
    requires Dump(id1, p1) == Dump(id2, p2)
    ensures id1 == id2 && p1 == p2
  {
    var m1, m2 := Dump(id1, p1).members, Dump(id2, p2).members;
    assert m1["id"] == m2["id"] && m1["name"] == m2["name"] && m1["description"] == m2["description"];
    assert m1["product_code"] == m2["product_code"] && m1["brand"] == m2["brand"] && m1["price"] == m2["price"];
  }
}
