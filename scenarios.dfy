/** The request sequences of test/test_helper.py, run against a fresh table. */
module Scenarios {
  import opened Wrappers
  import opened JsonValues
  import opened PyText
  import opened Model
  import opened Responses
  import opened Storage
  import opened Helpers

  /** The body every test posts to create its product. */
  function CreateBody(): (body: map<string, Json>) {
    map[
      "name" := Str("test product"),
      "description" := Str("test product description"),
      "brand" := Str("test brand"),
      "product_code" := Str("test product code"),
      "price" := Num(1.0)
    ]
  }

  /** The body of the successful update of the product stored under `id`. */
  function UpdateBody(id: int): (body: map<string, Json>) {
    map[
      "id" := Num(id as real),
      "name" := Str("test product update"),
      "description" := Str("test product description update"),
      "brand" := Str("test brand update"),
      "product_code" := Str("test product code update"),
      "price" := Num(2.0)
    ]
  }

  /** The create test's body whose keys all miss the schema's by a suffix. */
  function MisspelledBody(): (body: map<string, Json>) {
    map[
      "nameabcd" := Str("test product"),
      "descriptiondi" := Str("test product description"),
      "brandab" := Str("test brand"),
      "product_codecd" := Str("test product code"),
      "pricedf" := Num(1.0)
    ]
  }

  /** The update test's body for the row stored under `id`, each key
      misspelled with a trailing `2`. */
  function MisspelledUpdateBody(id: int): (body: map<string, Json>) {
    map[
      "id2" := Num(id as real),
      "name2" := Str("test product update"),
      "description2" := Str("test product description update"),
      "brand2" := Str("test brand update"),
      "product_code2" := Str("test product code update"),
      "price2" := Num(2.0)
    ]
  }

  /** A nonempty body none of whose keys is a schema key. */
  predicate IsMisspelled(m: map<string, Json>) {
    m != map[] && forall k :: k in m ==> k !in SchemaKeys
  }

  /** A create body of the tests' form: the five record fields, passing
      validation, with a name that stripping leaves as it is. */
  predicate IsCreateBody(m: map<string, Json>) {
    && m.Keys == {"name", "description", "product_code", "brand", "price"}
    && Load(Obj(m)).Success?
    && Trimmed(Load(Obj(m)).value.name)
  }

  /** An update body of the tests' form for the row stored under `id`: all
      six schema fields, passing validation, renaming the product from
      `current` to a name that stripping leaves as it is. */
  predicate IsRenamingUpdate(m: map<string, Json>, id: int, current: string) {
    && m.Keys == SchemaKeys
    && Load(Obj(m)).Success?
    && Load(Obj(m)).value.id == Some(id)
    && Load(Obj(m)).value.name != current
    && Trimmed(Load(Obj(m)).value.name)
  }

  /** The bodies of test/test_helper.py have those forms. */
  lemma CreateBodyQualifies()
    ensures IsCreateBody(CreateBody())
    ensures Load(Obj(CreateBody())).value.name == "test product"
  {
    var m := CreateBody();
    assert m["name"] == Str("test product") && m["description"].Str?;
    assert m["product_code"].Str? && m["brand"].Str? && m["price"].Num? && "id" !in m;
    WellTypedFieldsLoad(m);
    assert Trimmed("test product");
  }

  lemma UpdateBodyQualifies()
    ensures IsRenamingUpdate(UpdateBody(1), 1, "test product")
  {
    var m := UpdateBody(1);
    assert m["id"] == Num(1.0) && IsIntegral(1.0);
    assert m["name"] == Str("test product update") && m["description"].Str?;
    assert m["product_code"].Str? && m["brand"].Str? && m["price"].Num?;
    WellTypedFieldsLoad(m);
    assert Trimmed("test product update");
  }

  /** The `setUp` of the tests: a fresh table and the create request, which
      stores the body's record under id 1. */
  method SetUp(body: map<string, Json>) returns (table: ProductTable, created: Reply)
    requires IsCreateBody(body)
    ensures fresh(table) && table.Valid()
    ensures Load(Obj(body)).value.description.Some?
    ensures table.rows == map[1 := NewProduct(Load(Obj(body)).value)] && table.nextId == 2
    ensures created == GenerateSuccessResponse(Created, Obj(body["id" := Num(1.0)]))
  {
    table := new ProductTable();
    CreatedRecordEchoesInput(body, 1);
    assert Truthy(Obj(body)) by {
      assert "name" in body;
    }
    created := table.CreateItem(Obj(body));
  }

  /** `TestProductCreate.test_create_item_success` and
      `TestProductRead.test_read_by_name`: on a fresh table the create reply
      echoes the body plus id 1, and reading the name back returns the same
      data. */
  method CreateThenRead(body: map<string, Json>) returns (created: Reply, readBack: Reply)
    requires IsCreateBody(body)
    ensures created == GenerateSuccessResponse(Created, Obj(body["id" := Num(1.0)]))
    ensures readBack == GenerateSuccessResponse(OK, Obj(body["id" := Num(1.0)]))
  {
    var d := Load(Obj(body)).value;
    var table;
    table, created := SetUp(body);
    CreatedRecordEchoesInput(body, 1);
    assert 1 in table.rows && table.rows[1].name == d.name;
    readBack := table.ReadItems(map["name" := d.name]);
  }

  /** `TestProductCreate.test_create_already_exist`: the same body posted
      twice is refused the second time. */
  method CreateTwice(body: map<string, Json>) returns (duplicate: Reply)
    requires IsCreateBody(body)
    ensures duplicate == GenerateFailureResponse(BadRequest, "Product already exists")
  {
    var table, created := SetUp(body);
    assert 1 in table.rows && table.rows[1].name == Load(Obj(body)).value.name;
    duplicate := table.CreateItem(Obj(body));
  }

  /** The misspelled body of the create failure test has that form. */
  lemma MisspelledBodyQualifies()
    ensures IsMisspelled(MisspelledBody())
  {
    var m := MisspelledBody();
    assert "nameabcd" in m;
    assert m.Keys == {"nameabcd", "descriptiondi", "brandab", "product_codecd", "pricedf"};
  }

  /** So has the update failure test's, whatever id it targets. */
  lemma MisspelledUpdateBodyQualifies(id: int)
    ensures IsMisspelled(MisspelledUpdateBody(id))
  {
    var m := MisspelledUpdateBody(id);
    assert "name2" in m;
    assert m.Keys == {"id2", "name2", "description2", "brand2", "product_code2", "price2"};
  }

  /** `TestProductCreate.test_create_item_failure` and
      `TestProductUpdate.test_update_failure`: on any table, a body whose keys
      all miss the schema's fails validation and is answered 500 by both
      create and update, and neither changes the rows. */
  method MisspelledKeys(table: ProductTable, body: map<string, Json>) returns (created: Reply, updated: Reply)
    requires table.Valid() && IsMisspelled(body)
    modifies table
    ensures created.code == 500 && updated.code == 500
    ensures table.rows == old(table.rows)
  {
    assert "name" !in body;
    MissingRequiredFieldFails(body, Schema[1]);
    assert Truthy(Obj(body));
    created := table.CreateItem(Obj(body));
    updated := table.UpdateItem(Obj(body));
  }

  /** `TestProductUpdate.test_update_success`: after the create, a full
      update body that renames the product is echoed back, and the new name
      reads back the same data. */
  method CreateThenUpdate(body: map<string, Json>, change: map<string, Json>) returns (updated: Reply, readUpdated: Reply)
    requires IsCreateBody(body)
    requires IsRenamingUpdate(change, 1, Load(Obj(body)).value.name)
    ensures updated == GenerateSuccessResponse(OK, Obj(change))
    ensures readUpdated == GenerateSuccessResponse(OK, Obj(change))
  {
    var d := Load(Obj(change)).value;
    var table, created := SetUp(body);
    assert !NameTaken(table.rows, d.name);
    assert Truthy(Obj(change)) by {
      assert "id" in change;
    }
    UpdatedRecordEchoesInput(change, table.rows[1]);
    updated := table.UpdateItem(Obj(change));
    assert 1 in table.rows && table.rows[1].name == d.name;
    readUpdated := table.ReadItems(map["name" := d.name]);
  }

  /** `TestProductDelete.test_delete_success`: deleting by `str(id)` succeeds
      and the name no longer reads. */
  method CreateThenDelete(body: map<string, Json>) returns (deleted: Reply, gone: Reply)
    requires IsCreateBody(body)
    ensures deleted.code == 200
    ensures gone == GenerateFailureResponse(BadRequest, "Product does not exist")
  {
    var name := Load(Obj(body)).value.name;
    var table, created := SetUp(body);
    ParseShowInt(1);
    ShowIntTrimmed(1);
    deleted := table.DeleteItem(map["id" := ShowInt(1)]);
    assert table.rows == map[];
    gone := table.ReadItems(map["name" := name]);
  }

  /** `TestProductDelete.test_delete_failure`: `id=test` is not an integer. */
  method DeleteWord() returns (badDelete: Reply)
    ensures badDelete == GenerateFailureResponse(BadRequest, "Invalid data provided")
  {
    var table := new ProductTable();
    var args := map["id" := "test"];
    assert Strip(args["id"]) == "test" by {
      assert Trimmed("test");
    }
    ParseRejectsWord();
    badDelete := table.DeleteItem(args);
  }
}
