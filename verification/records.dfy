/** The slice of the StreamSets record model the processor touches: a root
    field, the type tags its guards test, and the per-record errors. */
module Records {
  import opened Wrappers

  /** A record field. `StringField(None)` is a STRING field whose value is
      null. Every type the processor does not distinguish (numbers, dates,
      byte arrays, ...) is an `OtherField` named by its type tag. */
  datatype Field =
    | StringField(text: Option<string>)
    | MapField(entries: map<string, Field>)
    | ListMapField(entries: map<string, Field>)
    | ListField(items: seq<Field>)
    | OtherField(typeName: string)
  {
    function Type(): FieldType {
      match this
      case StringField(_) => StringType
      case MapField(_) => MapType
      case ListMapField(_) => ListMapType
      case ListField(_) => ListType
      case OtherField(name) => OtherType(name)
    }

    /** `getType().isOneOf(Field.Type.MAP, Field.Type.LIST_MAP)` */
    predicate IsMapLike() {
      MapField? || ListMapField?
    }
  }

  datatype FieldType = StringType | MapType | ListMapType | ListType | OtherType(name: string)

  /** The output record: the entries of its root map. */
  type Fields = map<string, Field>

  /** `record.get("/" + name)` for a flat field name: the entry of a map-like
      root, and nothing for any other root. */
  function FieldAt(root: Field, name: string): (r: Option<Field>)
    ensures r.Some? <==> root.IsMapLike() && name in root.entries
    ensures r.Some? ==> r.value == root.entries[name]
  {
    if root.IsMapLike() && name in root.entries then Some(root.entries[name]) else None
  }

  /** The exceptions that abort the processing of one record. */
  datatype ProcessError =
    | InvalidInputType(actual: FieldType) // HEADERDETAILP_02
    | NullStringValue                     // trim() of a null STRING value
    | HeaderLineOutOfRange(lineNumber: int) // headers.get(lineNumber - 1)
    | NoSuchGroup(group: nat)             // matcher.group(g) beyond groupCount()
}
