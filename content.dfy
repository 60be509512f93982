/** The content side: an image's typed properties and the values written into them. */
module Content {
  import opened Wrappers
  import opened Attributes

  type Byte = b: int | 0 <= b < 256

  /** The declared CLR type of a property, as far as the handler distinguishes types. */
  datatype TypeTag =
    | StringType        // string
    | StringArrayType   // string[]
    | StringListType    // IList<string>
    | BoolType          // bool
    | DoubleType        // double
    | XhtmlStringType   // XhtmlString
    | BlobType          // Blob
    | OtherType         // any other type: never written by the handler

  /** A value `PropertyInfo.SetValue` stores. `NullValue` is C#'s null (a string property set
      from `FirstOrDefault()` of an empty sequence). */
  datatype Value =
    | NullValue
    | StringValue(text: string)
    | StringArrayValue(items: seq<string>)
    | StringListValue(items: seq<string>)
    | BoolValue(flag: bool)
    | DoubleValue(number: real)
    | XhtmlValue(html: string)
    | BlobValue(data: seq<Byte>)

  /** One property of an image content type: its name, declared type and the (at most one)
      attribute of each kind it carries. */
  datatype Property = Property(
    name: string,
    propertyType: TypeTag,
    vision: Option<VisionAttribute>,
    thumbnail: Option<SmartThumbnailAttribute>)

  /** The current values of an image's properties; a missing name is an unset property. */
  type Fields = map<string, Value>

  /** A property still waiting for enrichment: unset, or set to null. */
  predicate IsEmpty(fields: Fields, p: Property) {
    p.name !in fields || fields[p.name] == NullValue
  }

  /** Whether a property of declared type `t` can hold `v` (`SetValue` would not throw). */
  predicate Fits(v: Value, t: TypeTag) {
    match v
    case NullValue => t in {StringType, StringArrayType, StringListType, XhtmlStringType, BlobType}
    case StringValue(_) => t == StringType
    case StringArrayValue(_) => t == StringArrayType
    case StringListValue(_) => t == StringListType
    case BoolValue(_) => t == BoolType
    case DoubleValue(_) => t == DoubleType
    case XhtmlValue(_) => t == XhtmlStringType
    case BlobValue(_) => t == BlobType
  }

  /** The properties of one CLR type have pairwise distinct names. */
  predicate DistinctNames(ps: seq<Property>) {
    forall i, j :: 0 <= i < j < |ps| ==> ps[i].name != ps[j].name
  }
}
