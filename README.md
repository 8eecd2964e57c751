# DataMapper

A model of the DataMapper of herbs2pg. The DataMapper adapts between a flat
table row, keyed by snake_case column names, and an entity whose fields are
declared in camelCase.

- `Naming` reads an entity field name as its table column.
  Each upper-case letter becomes `_` followed by the letter in lower case.
  Every other character, digits included, stays as it is.
- `Schema` holds the entity description the mapper consumes.
  That is a title and a list of declared fields, in order, each with its type descriptor.
- `DataMapping.DataMapper` is the adapter, modelled as a class.
  It is built by `GetFrom(entity, ids)`, which installs one accessor per declared field.
  It keeps the current row in a mutable `tableData` slot.
  `Load` replaces that row wholesale.
  `Get(f)` stands for the dynamic property `mapper[f]`.
  `Data()` is the entity-style snapshot.
  `GetTableIDs()` gives the identifier columns.
  Stored values are an opaque type parameter `V`, so nothing is ever coerced.
- `Scenarios` restates each assertion of the test suite as a method or lemma over
  a small universe of stored values (`StoredValue`). It adds one scenario of its own,
  `ReloadScenario`, which follows from `Load` replacing the row wholesale.

The DataMapper implementation (`src/dataMapper`) is not part of this model.
Its behaviour is taken from test/dataMapper.js, which requires it and
pins it down by assertions. `GetFrom` accepts, and `ToTableField` converts, names
the entity does not declare, because the test at test/dataMapper.js:67-77 relies on both:

- `GetFrom` accepts identifier names that the entity does not declare. The test at
  test/dataMapper.js:67-77 builds a mapper with `['idField']` over an entity
  without that field and reads `['id_field']` back.
- `ToTableField` is total. It converts any string, declared or not.
  `getTableIDs` depends on converting the undeclared `idField`.

Decisions where the tests say nothing:

- "Upper-case" means the ASCII letters `A`–`Z`.
- A leading upper-case letter is converted like any other (`Id` becomes `_id`).
  No test exercises this case.
- Reading a declared field before any load, or from a row that lacks its column,
  gives `None`, the absent value.
- `Data()` leaves out declared fields whose column the row lacks. It does not list
  them with an undefined value.
- `Naming.FromTableField`, which maps a column name back to a field name, has no
  counterpart in the program: the program goes from table to entity through the
  declared fields. It is a proof tool for `Naming.ToTableFieldInjective`, the fact
  that distinct underscore-free fields never share a column.

## Model

| member | source | states |
|---|---|---|
| `Naming.ToTableField` | test/dataMapper.js:55-65 | the column name has no upper-case letter, and it is one character longer than the field name for each upper-case letter in it |
| `Naming.ToTableFieldAppend` | test/dataMapper.js:55-65 | the conversion works character by character: converting a concatenation is concatenating the conversions |
| `Naming.ToTableFieldIdentity` | test/dataMapper.js:108-109 | a name is its own column if and only if it has no upper-case letter (`id`, `name`, `field1`) |
| `Naming.ToTableFieldIdempotent` | test/dataMapper.js:55-65 | converting a column name again leaves it unchanged |
| `Naming.HumpConverts` | test/dataMapper.js:110-121 | a name made of an upper-case letter between two runs without upper case converts to the first run, `_`, the letter in lower case, then the second run |
| `Naming.FromToTableField` | test/dataMapper.js:40-53 | for a field name without underscores, mapping its column back gives the field name (a round trip) |
| `Naming.ToTableFieldInjective` | test/dataMapper.js:40-53 | two underscore-free field names with the same column are the same name |
| `Naming.ToTableFields` | test/dataMapper.js:67-77 | converting a list of names keeps its length and order, and converts element by element |
| `DataMapping.DataMapper.GetFrom` | test/dataMapper.js:17-26 | a new mapper is bound to the entity and the identifier list as given; it installs one accessor per declared field, reading that field's column; no row is loaded yet |
| `DataMapping.DataMapper.Load` | test/dataMapper.js:28-38 | the current row becomes exactly the loaded row, with no renaming, filtering or merging with an earlier row |
| `DataMapping.DataMapper.Get` | test/dataMapper.js:40-53 | a field has a value if and only if a row is loaded, the entity declares the field, and the row holds the field's column; the value is the one stored under that column, unchanged |
| `DataMapping.DataMapper.Data` | test/dataMapper.js:17-26 | the snapshot is absent exactly when no row is loaded; otherwise it holds exactly the fields that have a value, each with that value |
| `DataMapping.DataMapper.GetTableIDs` | test/dataMapper.js:67-77 | the identifier columns are the identifier names converted one by one, in the order given |
| `DataMapping.DataMapper.IdFieldReadsIdColumn` | test/dataMapper.js:67-77 | a declared identifier field reads the row at the column `GetTableIDs` reports for it |
| `DataMapping.DataMapper.DistinctFieldsDistinctColumns` | test/dataMapper.js:40-53 | two distinct declared field names without underscores have distinct columns, so their reads never collide |
| `Scenarios.CreateScenario` | test/dataMapper.js:17-26 | a freshly built mapper has no snapshot and no row |
| `Scenarios.LoadScenario` | test/dataMapper.js:28-38 | after loading `{id: 1, field1: true, field_name: false}` the row reads back exactly as given |
| `Scenarios.ConvertScenario` | test/dataMapper.js:40-53 | after that load, `id` reads 1, `field1` reads true and `fieldName` reads false |
| `Scenarios.SimpleReadsId` | test/dataMapper.js:49 | `id` reads 1 from the loaded row |
| `Scenarios.SimpleReadsField1` | test/dataMapper.js:50 | `field1` reads true from the loaded row |
| `Scenarios.SimpleReadsFieldName` | test/dataMapper.js:51 | `fieldName` reads false from the `field_name` column |
| `Scenarios.ColumnFieldName` | test/dataMapper.js:55-65 | `fieldName` converts to `field_name` |
| `Scenarios.ColumnField1` | test/dataMapper.js:50 | `field1` converts to itself |
| `Scenarios.ColumnIdField` | test/dataMapper.js:70-76 | `idField` converts to `id_field` |
| `Scenarios.TableIdScenario` | test/dataMapper.js:67-77 | a mapper built with `['idField']` reports `['id_field']`, although the entity does not declare `idField` |
| `Scenarios.ReloadScenario` | test/dataMapper.js:28-38 | not an assertion of the suite (it loads only once) but a consequence of `Load` replacing the row wholesale: after a second load only the second row can be observed, and a column missing from it reads as absent even though the first row held it |
| `Scenarios.ColumnId` | test/dataMapper.js:108 | `id` converts to itself |
| `Scenarios.ColumnName` | test/dataMapper.js:109 | `name` converts to itself |
| `Scenarios.ColumnNumberTest` | test/dataMapper.js:110 | `numberTest` converts to `number_test` |
| `Scenarios.ColumnStringTest` | test/dataMapper.js:111 | `stringTest` converts to `string_test` |
| `Scenarios.ColumnBooleanTest` | test/dataMapper.js:112 | `booleanTest` converts to `boolean_test` |
| `Scenarios.ColumnDateTest` | test/dataMapper.js:113 | `dateTest` converts to `date_test` |
| `Scenarios.ColumnObjectTest` | test/dataMapper.js:114 | `objectTest` converts to `object_test` |
| `Scenarios.ColumnNumbersTest` | test/dataMapper.js:117 | `numbersTest` converts to `numbers_test` |
| `Scenarios.ColumnStringsTest` | test/dataMapper.js:118 | `stringsTest` converts to `strings_test` |
| `Scenarios.ColumnBooleansTest` | test/dataMapper.js:119 | `booleansTest` converts to `booleans_test` |
| `Scenarios.ColumnDatesTest` | test/dataMapper.js:120 | `datesTest` converts to `dates_test` |
| `Scenarios.ColumnObjectsTest` | test/dataMapper.js:121 | `objectsTest` converts to `objects_test` |
| `Scenarios.SampleColumn` | test/dataMapper.js:107-123 | every sample's entity field converts to that sample's column |
| `Scenarios.SampleInRow` | test/dataMapper.js:127-128 | the loaded row holds every sample's value under that sample's column |
| `Scenarios.ComplexReads` | test/dataMapper.js:131-133 | over the loaded row, every sample field reads the sample's value |
| `Scenarios.ComplexScenario` | test/dataMapper.js:104-135 | numbers, strings, booleans, dates, objects and sequences of each come back unchanged under their entity field names |

## Left out

- The entity-declaration library (`entity`, `field` from `gotu`) is not modelled: it is a foreign library. An entity is a title plus an ordered list of field names with type descriptors.
- Validation metadata on a field (test/dataMapper.js:85-87) is left out. The mapper never reads it.
- JavaScript value kinds are not modelled: `Date` identity and the deep equality of objects and arrays. Values are an opaque type parameter, and the scenarios use a plain datatype in which a date is a number.
- The mocha harness (`describe`, `it`, `assert`) is left out. So is the `map`/`reduce` that builds the sample row (test/dataMapper.js:127); the row is written out as a map literal instead.
- The commented-out `Array` field types (test/dataMapper.js:93-94, 100, 115-116, 122) are left out. They are unfinished and have no behaviour.
- The object shape of the mapper is left out. In JavaScript each declared field is a property of the mapper; here it is read through `Get`.
- Concurrent `load` calls are left out. The model is sequential.
