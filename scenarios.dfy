/**
 * The behaviour the test suite asserts, over a small universe of stored
 * values: two entities, the rows loaded into them, and what the mapper
 * then exposes.
 */
module Scenarios {
  import opened Wrappers
  import opened Naming
  import opened Schema
  import opened DataMapping

  /** Values a storage layer may hand over; the mapper never looks inside them. */
  datatype StoredValue =
    | Num(n: int)
    | Bool(b: bool)
    | Str(s: string)
    | Date(stamp: int)
    | Obj(props: seq<(string, StoredValue)>)
    | Arr(items: seq<StoredValue>)

  /** The entity of the "Simple Entity" tests. */
  function SimpleEntity(): Entity {
    Entity("A entity", [
      Field("id", Scalar(Number)),
      Field("field1", Scalar(Boolean)),
      Field("fieldName", Scalar(Boolean))
    ])
  }

  function SimpleRow(): map<string, StoredValue> {
    map["id" := Num(1), "field1" := Bool(true), "field_name" := Bool(false)]
  }

  /** A fresh mapper exposes no snapshot and no row. */
  method CreateScenario() returns (data: Option<map<string, StoredValue>>, table: Option<map<string, StoredValue>>)
    ensures data == None && table == None
  {
    var m := new DataMapper<StoredValue>.GetFrom(SimpleEntity());
    data := m.Data();
    table := m.tableData;
  }

  /** After a load the row is kept exactly as given. */
  method LoadScenario() returns (table: Option<map<string, StoredValue>>)
    ensures table == Some(map["id" := Num(1), "field1" := Bool(true), "field_name" := Bool(false)])
  {
    var m := new DataMapper<StoredValue>.GetFrom(SimpleEntity());
    m.Load(SimpleRow());
    table := m.tableData;
  }

  /** Each declared field reads its own column. */
  method ConvertScenario() returns (id: Option<StoredValue>, field1: Option<StoredValue>, fieldName: Option<StoredValue>)
    ensures id == Some(Num(1)) && field1 == Some(Bool(true)) && fieldName == Some(Bool(false))
  {
    var m := new DataMapper<StoredValue>.GetFrom(SimpleEntity());
    m.Load(SimpleRow());
    SimpleReadsId(m);
    SimpleReadsField1(m);
    SimpleReadsFieldName(m);
    id := m.Get("id");
    field1 := m.Get("field1");
    fieldName := m.Get("fieldName");
  }

  lemma SimpleReadsId(m: DataMapper<StoredValue>)
    requires m.Valid() && m.entity == SimpleEntity() && m.tableData == Some(SimpleRow())
    ensures m.Get("id") == Some(Num(1))
  {
    assert Declares(m.entity, "id") by { assert m.entity.fields[0].name == "id"; }
    ColumnId();
  }

  lemma SimpleReadsField1(m: DataMapper<StoredValue>)
    requires m.Valid() && m.entity == SimpleEntity() && m.tableData == Some(SimpleRow())
    ensures m.Get("field1") == Some(Bool(true))
  {
    assert Declares(m.entity, "field1") by { assert m.entity.fields[1].name == "field1"; }
    ColumnField1();
  }

  lemma SimpleReadsFieldName(m: DataMapper<StoredValue>)
    requires m.Valid() && m.entity == SimpleEntity() && m.tableData == Some(SimpleRow())
    ensures m.Get("fieldName") == Some(Bool(false))
  {
    assert Declares(m.entity, "fieldName") by { assert m.entity.fields[2].name == "fieldName"; }
    ColumnFieldName();
  }

  /**
   * A camel hump converts, given the name split around its one upper-case letter.
   * `lower`, `name` and `column` are passed in as literals so that the caller's
   * proof does not have to unfold `ToTableField` and `ToLower` on the pieces.
   */
  lemma HumpSample(head: string, c: char, tail: string, lower: char, name: string, column: string)
    requires NoUpper(head) && NoUpper(tail) && IsUpper(c) && ToLower(c) == lower
    requires name == head + [c] + tail && column == head + ['_', lower] + tail
    ensures ToTableField(name) == column
  {
    HumpConverts(head, c, tail);
  }

  lemma ColumnField1() ensures ToTableField("field1") == "field1" {
    assert NoUpper("field1");
    ToTableFieldIdentity("field1");
  }

  lemma ColumnFieldName() ensures ToTableField("fieldName") == "field_name" {
    HumpSample("field", 'N', "ame", 'n', "fieldName", "field_name");
  }

  lemma ColumnIdField() ensures ToTableField("idField") == "id_field" {
    HumpSample("id", 'F', "ield", 'f', "idField", "id_field");
  }

  /** The identifier list is converted even for a name the entity does not declare. */
  method TableIdScenario() returns (ids: seq<string>)
    ensures ids == ["id_field"]
  {
    var m := new DataMapper<StoredValue>.GetFrom(SimpleEntity(), ["idField"]);
    ColumnIdField();
    ids := m.GetTableIDs();
    assert ids == [ids[0]];
  }

  /** A second load leaves only the second row observable. */
  method ReloadScenario() returns (id: Option<StoredValue>, fieldName: Option<StoredValue>)
    ensures id == Some(Num(2)) && fieldName == None
  {
    var m := new DataMapper<StoredValue>.GetFrom(SimpleEntity());
    m.Load(SimpleRow());
    m.Load(map["id" := Num(2)]);
    assert SimpleEntity().fields[0].name == "id";
    ColumnId();
    id := m.Get("id");
    ColumnFieldName();
    fieldName := m.Get("fieldName");
  }

  /**
   * One row of the "Complex Entity - Multiple Types" test's sample table:
   * the column, the entity field with its declared type, the stored value.
   */
  datatype Sample = Sample(column: string, field: string, desc: TypeDesc, value: StoredValue)

  const SampleCount := 12

  function ComplexSample(j: nat): Sample
    requires j < SampleCount
  {
    match j
    case 0 => Sample("id", "id", Scalar(Number), Num(1))
    case 1 => Sample("name", "name", Scalar(Text), Str("clare"))
    case 2 => Sample("number_test", "numberTest", Scalar(Number), Num(1))
    case 3 => Sample("string_test", "stringTest", Scalar(Text), Str("s1"))
    case 4 => Sample("boolean_test", "booleanTest", Scalar(Boolean), Bool(true))
    case 5 => Sample("date_test", "dateTest", Scalar(Temporal), Date(0))
    case 6 => Sample("object_test", "objectTest", Scalar(Structured), Obj([("x", Num(1))]))
    case 7 => Sample("numbers_test", "numbersTest", SequenceOf(Number), Arr([Num(1), Num(2)]))
    case 8 => Sample("strings_test", "stringsTest", SequenceOf(Text), Arr([Str("s1"), Str("s2")]))
    case 9 => Sample("booleans_test", "booleansTest", SequenceOf(Boolean), Arr([Bool(true), Bool(false)]))
    case 10 => Sample("dates_test", "datesTest", SequenceOf(Temporal), Arr([Date(0), Date(1)]))
    case _ => Sample("objects_test", "objectsTest", SequenceOf(Structured), Arr([Obj([("x", Num(1))]), Obj([("y", Num(2))])]))
  }

  /** The entity of that test: one field per sample, in the sample order. */
  function ComplexEntity(): Entity {
    Entity("A entity", seq(SampleCount, j requires 0 <= j < SampleCount => Field(ComplexSample(j).field, ComplexSample(j).desc)))
  }

  /** The row the test loads: every sample's value under its column. */
  function ComplexRow(): map<string, StoredValue> {
    map[
      "id" := Num(1),
      "name" := Str("clare"),
      "number_test" := Num(1),
      "string_test" := Str("s1"),
      "boolean_test" := Bool(true),
      "date_test" := Date(0),
      "object_test" := Obj([("x", Num(1))]),
      "numbers_test" := Arr([Num(1), Num(2)]),
      "strings_test" := Arr([Str("s1"), Str("s2")]),
      "booleans_test" := Arr([Bool(true), Bool(false)]),
      "dates_test" := Arr([Date(0), Date(1)]),
      "objects_test" := Arr([Obj([("x", Num(1))]), Obj([("y", Num(2))])])
    ]
  }

  lemma ColumnId() ensures ToTableField("id") == "id" {
    assert NoUpper("id");
    ToTableFieldIdentity("id");
  }

  lemma ColumnName() ensures ToTableField("name") == "name" {
    assert NoUpper("name");
    ToTableFieldIdentity("name");
  }

  lemma ColumnNumberTest() ensures ToTableField("numberTest") == "number_test" {
    HumpSample("number", 'T', "est", 't', "numberTest", "number_test");
  }

  lemma ColumnStringTest() ensures ToTableField("stringTest") == "string_test" {
    HumpSample("string", 'T', "est", 't', "stringTest", "string_test");
  }

  lemma ColumnBooleanTest() ensures ToTableField("booleanTest") == "boolean_test" {
    HumpSample("boolean", 'T', "est", 't', "booleanTest", "boolean_test");
  }

  lemma ColumnDateTest() ensures ToTableField("dateTest") == "date_test" {
    HumpSample("date", 'T', "est", 't', "dateTest", "date_test");
  }

  lemma ColumnObjectTest() ensures ToTableField("objectTest") == "object_test" {
    HumpSample("object", 'T', "est", 't', "objectTest", "object_test");
  }

  lemma ColumnNumbersTest() ensures ToTableField("numbersTest") == "numbers_test" {
    HumpSample("numbers", 'T', "est", 't', "numbersTest", "numbers_test");
  }

  lemma ColumnStringsTest() ensures ToTableField("stringsTest") == "strings_test" {
    HumpSample("strings", 'T', "est", 't', "stringsTest", "strings_test");
  }

  lemma ColumnBooleansTest() ensures ToTableField("booleansTest") == "booleans_test" {
    HumpSample("booleans", 'T', "est", 't', "booleansTest", "booleans_test");
  }

  lemma ColumnDatesTest() ensures ToTableField("datesTest") == "dates_test" {
    HumpSample("dates", 'T', "est", 't', "datesTest", "dates_test");
  }

  lemma ColumnObjectsTest() ensures ToTableField("objectsTest") == "objects_test" {
    HumpSample("objects", 'T', "est", 't', "objectsTest", "objects_test");
  }

  /** Every sample field converts to its sample column. */
  lemma SampleColumn(j: nat)
    requires j < SampleCount
    ensures ToTableField(ComplexSample(j).field) == ComplexSample(j).column
  {
    match j
    case 0 => ColumnId();
    case 1 => ColumnName();
    case 2 => ColumnNumberTest();
    case 3 => ColumnStringTest();
    case 4 => ColumnBooleanTest();
    case 5 => ColumnDateTest();
    case 6 => ColumnObjectTest();
    case 7 => ColumnNumbersTest();
    case 8 => ColumnStringsTest();
    case 9 => ColumnBooleansTest();
    case 10 => ColumnDatesTest();
    case _ => ColumnObjectsTest();
  }

  /** The loaded row holds every sample's value under the sample's column. */
  lemma SampleInRow(j: nat)
    requires j < SampleCount
    ensures ComplexSample(j).column in ComplexRow()
    ensures ComplexRow()[ComplexSample(j).column] == ComplexSample(j).value
  {
  }

  /** The mapper over the loaded row reads each sample field as the sample's value. */
  lemma ComplexReads(m: DataMapper<StoredValue>, j: nat)
    requires m.Valid() && m.entity == ComplexEntity() && m.tableData == Some(ComplexRow())
    requires j < SampleCount
    ensures m.Get(ComplexSample(j).field) == Some(ComplexSample(j).value)
  {
    SampleColumn(j);
    SampleInRow(j);
    assert Declares(m.entity, ComplexSample(j).field) by {
      assert m.entity.fields[j].name == ComplexSample(j).field;
    }
  }

  /** Every sample value comes back unchanged under its entity field name. */
  method ComplexScenario() returns (values: seq<Option<StoredValue>>)
    ensures |values| == SampleCount
    ensures forall j :: 0 <= j < SampleCount ==> values[j] == Some(ComplexSample(j).value)
  {
    var m := new DataMapper<StoredValue>.GetFrom(ComplexEntity());
    m.Load(ComplexRow());
    values := seq(SampleCount, j requires 0 <= j < SampleCount reads m => m.Get(ComplexSample(j).field));
    forall j | 0 <= j < SampleCount
      ensures values[j] == Some(ComplexSample(j).value)
    {
      ComplexReads(m, j);
    }
  }
}
