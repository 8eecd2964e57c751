/**
 * The adapter between a flat table row keyed by column names and an
 * entity whose fields are declared by name. It keeps one current row,
 * replaced wholesale by each load, and reads every declared field from the
 * row's column for that field, without converting the value.
 */
module DataMapping {
  import opened Wrappers
  import opened Naming
  import opened Schema

  class DataMapper<V> {
    /** The entity description the mapper is bound to. */
    const entity: Entity
    /** The entity field names designated as identifiers, in the caller's order. */
    const idFields: seq<string>
    /** The accessors installed at construction: declared field name to table column. */
    const accessors: map<string, string>
    /** The most recently loaded row; None until the first load. */
    var tableData: Option<map<string, V>>

    /** One accessor per declared field, each reading that field's column. */
    ghost predicate Valid() {
      && (forall f :: f in accessors <==> Declares(entity, f))
      && (forall f :: f in accessors ==> accessors[f] == ToTableField(f))
    }

    /**
     * Binds a mapper to `entity`. Identifier names are taken as given:
     * a name the entity does not declare is still accepted.
     */
    constructor GetFrom(entity: Entity, idFields: seq<string> := [])
      ensures Valid()
      ensures this.entity == entity && this.idFields == idFields
      ensures tableData == None
    {
      var installed: map<string, string> := map[];
      var i := 0;
      while i < |entity.fields|
        invariant 0 <= i <= |entity.fields|
        invariant forall f :: f in installed <==> exists j :: 0 <= j < i && entity.fields[j].name == f
        invariant forall f :: f in installed ==> installed[f] == ToTableField(f)
      {
        var name := entity.fields[i].name;
        installed := installed[name := ToTableField(name)];
        i := i + 1;
      }
      this.entity := entity;
      this.idFields := idFields;
      this.accessors := installed;
      this.tableData := None;
    }

    /** Replaces the current row by `row`; nothing of the previous row remains. */
    method Load(row: map<string, V>)
      modifies this
      ensures tableData == Some(row)
    {
      tableData := Some(row);
    }

    /**
     * The value of entity field `field`: the current row's value under the
     * field's column, unchanged. None before any load, for a name the
     * entity does not declare, and when the row lacks the column.
     */
    function Get(field: string): (r: Option<V>)
      reads this
      requires Valid()
      ensures r.Some? <==> tableData.Some? && Declares(entity, field) && ToTableField(field) in tableData.value
      ensures r.Some? ==> r.value == tableData.value[ToTableField(field)]
    {
      match tableData
      case None => None
      case Some(row) => if field in accessors then Lookup(row, accessors[field]) else None
    }

    /**
     * The entity-style snapshot of the current row: None before any load,
     * afterwards every declared field whose column the row holds, with
     * the value the field reads.
     */
    function Data(): (d: Option<map<string, V>>)
      reads this
      requires Valid()
      ensures d.None? <==> tableData.None?
      ensures d.Some? ==> forall f :: f in d.value <==> Get(f).Some?
      ensures d.Some? ==> forall f :: f in d.value ==> Get(f) == Some(d.value[f])
    {
      match tableData
      case None => None
      case Some(row) => Some(map f | f in accessors && accessors[f] in row :: row[accessors[f]])
    }

    /** The columns of the identifier fields, in the order they were given. */
    function GetTableIDs(): (r: seq<string>)
      ensures |r| == |idFields|
      ensures forall i :: 0 <= i < |r| ==> r[i] == ToTableField(idFields[i])
    {
      ToTableFields(idFields)
    }

    /** A declared identifier field reads the column that GetTableIDs reports for it. */
    lemma IdFieldReadsIdColumn(i: nat)
      requires Valid() && tableData.Some?
      requires i < |idFields| && Declares(entity, idFields[i])
      ensures Get(idFields[i]) == Lookup(tableData.value, GetTableIDs()[i])
    {
    }

    /** Two distinct declared fields without underscores read two distinct columns. */
    lemma DistinctFieldsDistinctColumns(f: string, g: string)
      requires Valid()
      requires Declares(entity, f) && Declares(entity, g) && f != g
      requires NoUnderscore(f) && NoUnderscore(g)
      ensures f in accessors && g in accessors && accessors[f] != accessors[g]
    {
      if accessors[f] == accessors[g] {
        ToTableFieldInjective(f, g);
      }
    }
  }
}
