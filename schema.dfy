/**
 * The shape of an entity description that the mapper consumes: a title and
 * the declared fields in declaration order, each with its type descriptor.
 */
module Schema {

  /** The scalar kinds a field can be declared with. */
  datatype ScalarKind = Number | Boolean | Text | Temporal | Structured

  /** A field's declared type: one scalar kind, or an ordered sequence of one. */
  datatype TypeDesc = Scalar(kind: ScalarKind) | SequenceOf(element: ScalarKind)

  datatype Field = Field(name: string, desc: TypeDesc)

  datatype Entity = Entity(title: string, fields: seq<Field>)

  /** True when `f` is declared by `e`. */
  predicate Declares(e: Entity, f: string) {
    exists i :: 0 <= i < |e.fields| && e.fields[i].name == f
  }
}
