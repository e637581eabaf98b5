/** The slice of Go's reflect package the decode hooks look at: the kind of a
    type, and the dynamic values a hook receives and returns. */
module Reflect {
  /** reflect.Kind, for the kinds the hooks distinguish; every other kind is
      Other. */
  datatype Kind =
    | Bool
    | Int | Int8 | Int16 | Int32 | Int64
    | Uint | Uint8 | Uint16 | Uint32 | Uint64
    | Float32 | Float64 | Complex64 | Complex128
    | String | Struct | Ptr | Slice | Map
    | Other

  /** A dynamic value: a string, a bool, an integer of the given integer kind,
      or a value of some other kind whose contents the hooks never inspect. */
  datatype Value =
    | Str(s: string)
    | Boolean(b: bool)
    | Integer(kind: Kind, i: int)
    | Opaque(kind: Kind)

  function KindOf(v: Value): (k: Kind)
    ensures k == String <==> v.Str?
  {
    match v
    case Str(_) => String
    case Boolean(_) => Bool
    case Integer(k, _) => if k == String then Other else k
    case Opaque(k) => if k == String then Other else k
  }
}
