# Products CRUD helpers, modelled in Dafny

This project models the CRUD core of a small Flask service for a single
`products` table: the helpers in `helpers.py` that create, read, update and
delete rows, and the `Product` record and `ProductSchema` validator in
`Model.py`.

Every helper returns a `(body, status)` pair. The body is either the success
envelope `{"status": "success", "data": ...}` or the failure envelope
`{"message": ...}`. The status is one of 200, 201, 400 or 500.

## How the model is built

- `wrappers.dfy` holds `Option` and `Result`.
- `json.dfy` holds decoded JSON values and Python truthiness: `not json_data`.
- `pytext.dfy` models `str.strip()`, `int(str)` on a stripped string, and `str(int)`.
- `model.dfy` holds:
  - the `Product` record, where only `description` may be null;
  - the schema;
  - `Load`, for `ProductSchema().load`, producing either the loaded fields or the first `ValidationError`;
  - `Dump`, for `product_schema.dump`.
- `responses.dfy` holds the two envelope builders and `Classify`, which reads a reply back as a client would.
- `storage.dfy` holds the table:
  - it is a map from primary key to record;
  - `filter_by(name=...).first()` and `query.all()` run over it in primary-key order;
  - the name-uniqueness invariant is defined here.
- `helpers.dfy` holds the class `ProductTable`:
  - its fields are `rows` and the next primary key `nextId`;
  - its invariant `Valid()` says every key is in `[1, nextId)` and no two rows share a name;
  - `ReadItems` is a function of the table, and `CreateItem`, `UpdateItem` and `DeleteItem` are methods that change it;
  - the `for attr, val in data.items()` loop of `update_item` is the method `ApplyLoaded`, proved equal to `Overwrite`.
- `scenarios.dfy` replays the request sequences of `test/test_helper.py` on a fresh table.

The behaviours of the source kept as written:

- **Empty update.** `update_item` builds a 400 for empty input and never returns it. Empty input therefore reaches the schema load and is answered with a 500.
- **Create needs a description.** `create_item` reads `data['description']` unconditionally. A body without `description` validates, then fails with `KeyError`, which is answered with a 500 whose message is `'description'`.
- **Strict delete id.** `delete_item` trims the `id` argument and parses it as a decimal integer literal. Anything else is a 400.
- **Every rejection is a no-op on the table.**
  - `CreateItem` and `UpdateItem`: each path that does not answer 201 or 200 leaves `rows` as it was.
  - `DeleteItem`: every path that does not answer 200 leaves `rows` as it was.
- **Every success changes exactly one row.** The rows become `old(rows)[id := record]` or `old(rows) - {id}`. The class invariant keeps names unique.

## Model

| member | source | states |
|---|---|---|
| Model.Load | Model.py:26-32 | load succeeds exactly when the input is an object in which every required field is present, every present schema field has its kind and no key lies outside the schema; the loaded values are the ones the object holds |
| Model.WellTypedFieldsLoad | Model.py:27-32 | an object holding only schema keys, every required one among them, each with its declared kind, loads |
| Model.UnknownKeyFails | Model.py:26-32 | an object holding a key outside the schema fails validation |
| Model.SchemaKeysAgree | Model.py:27-32 | the set of schema keys is exactly the keys of the six declared fields |
| Model.MissingRequiredFieldFails | Model.py:28-32 | a payload lacking any of `name`, `product_code`, `brand`, `price` fails validation |
| Model.OptionalFieldsMayBeAbsent | Model.py:27-29 | `id` and `description` are optional: removing them from a payload that loads still loads, with the other fields unchanged |
| Model.FalsyInputFails | helpers.py:78-81 | input for which `not json_data` holds never loads, so an empty update ends in the validation failure |
| Model.Dump | Model.py:9-32 | a dump has exactly the six schema keys and loads back to the record and its id; with a null description it holds `null` there, fails to load, and without that key loads back to the record's other values and its id |
| Model.DumpFieldsKeys | Model.py:26-32 | the dumped fields are exactly the schema keys |
| Model.DumpFieldsLoad | Model.py:9-32 | the dumped fields of a record with a description load back to the record and its id |
| Model.DumpFieldsNullDescription | Model.py:13 | a null description is dumped as `null`, which fails to load, while the other five fields load back to the record's values and its id |
| Model.DumpInjective | Model.py:9-32 | different ids or different records never dump to the same value |
| PyText.StripLeft | helpers.py:142 | the result is a suffix of the input, the dropped prefix is whitespace, and the result does not start with whitespace |
| PyText.StripRight | helpers.py:142 | the result is a prefix of the input, the dropped suffix is whitespace, and the result does not end with whitespace |
| PyText.Strip | helpers.py:50 | the result is the input with whitespace removed from each end and nothing else, has no surrounding whitespace, and is the input itself when the input has none |
| PyText.StripEndsTrimmed | helpers.py:50 | stripping both ends leaves no whitespace at either end, and leaves a string without any as it was |
| PyText.PrefixOfSuffix | helpers.py:50 | a prefix of a suffix of a string is a slice of it |
| PyText.StripBothEnds | helpers.py:50 | stripping the left end and then the right end cuts the input between whitespace only |
| PyText.SpaceAfterCut | helpers.py:50 | trailing whitespace of a suffix is trailing whitespace of the whole string |
| PyText.SameTrimmedCut | helpers.py:50 | two cuts of a string that drop only whitespace and leave no surrounding whitespace are equal |
| PyText.StripIsUnique | helpers.py:50 | any string with no surrounding whitespace obtained by removing whitespace from the ends of the input is its strip |
| PyText.StripIdempotent | helpers.py:50 | stripping twice is stripping once |
| PyText.ParseInt | helpers.py:141-144 | `int(s)` succeeds exactly on an optional sign followed by one or more decimal digits, and the sign fixes the sign of the result |
| PyText.ParseIntValue | helpers.py:142 | `int` of a sign and a digit string is the decimal value of the digits, negated exactly when the sign is `-` |
| PyText.LeadingZeroIgnored | helpers.py:142 | a leading zero does not change the value of a digit string |
| PyText.ParseIntExamples | helpers.py:142 | `int("+7")` and `int("007")` are 7 and `int("-0")` is 0 |
| PyText.ShowNatIsDigits | test/test_helper.py:230 | `str(n)` of a natural number is all digits and denotes `n` |
| PyText.ParseShowInt | test/test_helper.py:230 | `int(str(n)) == n` for every integer |
| PyText.ShowIntTrimmed | test/test_helper.py:230 | `str(n)` has no surrounding whitespace, so the delete request's strip leaves it unchanged |
| PyText.ParseRejectsWord | test/test_helper.py:240-243 | `int("test")` raises `ValueError` |
| Responses.StatusOf | helpers.py:5 | each status code read back names exactly the `http.client` status with that value |
| Responses.GenerateSuccessResponse | helpers.py:15-23 | the reply carries the status's value and reads back as a success with exactly the given data |
| Responses.GenerateFailureResponse | helpers.py:26-34 | the reply carries the status's value and reads back as a failure with exactly the given message |
| Responses.EnvelopesAreDistinct | helpers.py:15-34 | no success reply equals any failure reply |
| Storage.KeysBetween | helpers.py:64 | the keys of the table in a range, each once, in ascending order, and all of them |
| Storage.SortedKeys | helpers.py:64 | every primary key exactly once, in ascending order |
| Storage.FirstNamed | helpers.py:50 | a result is the key at the first position of the list whose row has the name, no earlier key's row has it, and there is none exactly when no row in the list has it |
| Storage.FirstInSortedIsLeast | helpers.py:50 | in a complete ascending list of keys, the first match has no key below it with that name |
| Storage.FindByName | helpers.py:50 | `filter_by(name=...).first()`: a result is the least key whose row has that name; there is no result exactly when no row has the name; under unique names the result is the one row that has it |
| Storage.ListAllIsComplete | helpers.py:64-66 | the listing holds the dump of every stored row, nothing else, and no entry twice |
| Storage.InsertKeepsNamesUnique | helpers.py:117-126 | inserting a row under a fresh key and an unused name keeps names unique |
| Storage.ReplaceKeepsNamesUnique | helpers.py:88-97 | overwriting a row keeps names unique when its name is kept or no row has the new name |
| Storage.RemoveKeepsNamesUnique | helpers.py:145-149 | removing a row keeps names unique |
| Helpers.NewProduct | helpers.py:120-124 | the constructed record holds exactly the loaded name, description, product code, brand and price, and never the input's id |
| Helpers.CreatedRecordEchoesInput | helpers.py:120-128 | a create body holding the five record fields is dumped back as that body plus the new id |
| Helpers.ReplayItems | helpers.py:92-96 | setting each loaded attribute except `id`, in order, is overwriting the record with the loaded fields and keeping the description the input lacks |
| Helpers.ApplyLoaded | helpers.py:92-96 | the `setattr` loop leaves exactly the overwritten record |
| Helpers.UpdatedRecordEchoesInput | helpers.py:92-100 | an update body holding all six schema fields is dumped back as exactly that body |
| Helpers.FilterByName | helpers.py:44-55 | no row named by the stripped argument gives 400 "Product does not exist"; under unique names the row with that name gives 200 and its dump |
| Helpers.ProductTable.constructor | Model.py:9-16 | an empty table with the key counter at 1 satisfies the invariant |
| Helpers.ProductTable.ReadItems | helpers.py:37-68 | no arguments gives 200 and the listing of all rows; arguments without `name` give 400 "Invalid data provided"; with `name`, the lookup by the stripped name |
| Helpers.ProductTable.CreateItem | helpers.py:105-130 | falsy input gives 400; a validation error gives 500; a taken name gives 400 "Product already exists"; a missing description gives 500; otherwise 201, the dump of the new row, and exactly one row added under a fresh key; the table is unchanged unless 201, and the invariant holds |
| Helpers.ProductTable.Insert | helpers.py:125-126 | adding a record with an unused name stores it under the next key, which no row had, advances the counter and keeps the invariant |
| Helpers.ProductTable.Store | helpers.py:96-97 | committing a record with the kept name or an unused name replaces exactly that row and keeps the invariant |
| Helpers.ProductTable.UpdateItem | helpers.py:71-102 | falsy input gives 500; a validation error gives 500; no id gives 400 "Invalid data provided"; an unknown id gives 400 "Product does not exist"; a rename to a taken name gives 400 "Product already exists"; otherwise 200, exactly one row overwritten and the re-read row's dump; the table is unchanged unless 200, and the invariant holds |
| Helpers.ProductTable.DeleteItem | helpers.py:133-154 | no `id` gives 400 "No input data provided"; an `id` that is not an integer after stripping gives 400 "Invalid data provided"; an unknown id gives 400 "Product does not exist"; otherwise 200 and exactly that row removed; the table is unchanged unless 200, and the invariant holds |
| Scenarios.CreateBodyQualifies | test/test_helper.py:80-86 | the test's create body holds the five record fields, passes validation, and its name needs no stripping |
| Scenarios.SetUp | test/test_helper.py:16-33 | on a fresh table, creating a body of that form stores its record under id 1 and answers 201 with the body plus id 1 |
| Scenarios.CreateThenRead | test/test_helper.py:44-52 | for any create body of the tests' form: create answers 201 with the body plus id 1, and reading the name answers 200 with the same data |
| Scenarios.CreateTwice | test/test_helper.py:112-127 | creating the same body twice answers the second time with 400 "Product already exists" |
| Scenarios.MisspelledKeys | test/test_helper.py:97-194 | on any table, any nonempty body whose keys all miss the schema's is answered 500 by both create and update, and the rows stay as they were |
| Scenarios.MisspelledBodyQualifies | test/test_helper.py:103-108 | the create failure test's body is nonempty and none of its keys is a schema key |
| Scenarios.MisspelledUpdateBodyQualifies | test/test_helper.py:185-191 | the update failure test's body, for any id, is nonempty and none of its keys is a schema key |
| Scenarios.CreateThenUpdate | test/test_helper.py:163-177 | after the create, any update body holding all six fields that targets id 1 and renames the product is answered 200 with exactly that body, and reading the new name answers the same |
| Scenarios.UpdateBodyQualifies | test/test_helper.py:163-171 | the test's update body holds every schema field, passes validation, targets id 1 and renames the product |
| Scenarios.CreateThenDelete | test/test_helper.py:224-233 | after the create, deleting by `str(1)` answers 200 and the name then reads as 400 "Product does not exist" |
| Scenarios.DeleteWord | test/test_helper.py:235-243 | deleting with `id=test` answers 400 "Invalid data provided" |

## Left out

- The Flask handlers in `Resources/Product.py` are routing only: they pass `request.args` or the decoded JSON body to a helper. They are not modelled.
- The SQLAlchemy session is not modelled. Reads and writes act directly on the map, and `add`/`commit` are the map update.
- Storage failures are not modelled. No query or commit ever raises, so the only 500s are the ones validation and the `description` lookup cause.
- Primary keys come from a counter, `nextId`, chosen by the model: each insert takes the counter's value and advances it, so a key is never reused. A database such as SQLite may instead reuse a key (the largest key plus one after the top row was deleted); that choice is not modelled.
- Row order is primary-key order. The source's `query.all()` and `.first()` follow whatever order the database returns, so each is modelled as ascending key.
- Concurrency is not modelled. The window between the name check and the write, where two requests can race, lies outside a sequential model.
- Logging is not modelled.
- Model.Load: marshmallow's coercions are not modelled. Numeric strings are rejected rather than converted. `fields.Integer` rejects a non-integral number rather than truncating it. Booleans count as neither text nor numbers.
- Model.Load: `null` is rejected for every field, which is marshmallow's default. So `data['id'] is None` in `update_item` cannot arise and folds into the missing-`id` case.
- Model.Load: keys outside the schema are rejected (`UnknownField`), as marshmallow 3 does by default; the error text stands for marshmallow's and is not its exact rendering.
- Model.ValidationMessage: the text of `str(e)` for a `ValidationError` is a representative message naming the first failing field. It is not marshmallow's exact rendering of all errors.
- Python's `int` and `float` both become one `Num(real)`. `price` is stored and echoed, never computed on, so float rounding is not modelled.
- Column length limits (`String(100)` and the others) are not modelled. Whether they are enforced depends on the database engine.
- PyText.ParseInt: digit separators (`1_000`) and non-ASCII decimal digits, which Python's `int()` also accepts, are not modelled.
- PyText.ParseInt: CPython's limit of 4300 digits for `int(str)` (Python 3.11 and later) is not modelled. Past it `int()` raises `ValueError` and the source answers 400 "Invalid data provided", where the model looks the id up.
- Helpers.ProductTable.DeleteItem: the success data is modelled as the deleted-row count `1`. The source dumps that integer through the schema, and what marshmallow makes of it is not modelled.
