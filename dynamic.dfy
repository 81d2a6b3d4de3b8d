/** The weakly typed values (`interface{}`) that the catalog returns in its
    metadata and property maps, and the two ways the provider turns them
    into text. */
module Dynamic {
  import opened Strings
  import opened Framework

  /** A decoded `interface{}` value. Floating-point and other values carry
      the text Go's formatter gives them, since that formatting is not part
      of this model: `fixed6` is `%.6f`, `general` is `%v`. */
  datatype Dyn =
    | DNil
    | DString(s: string)
    | DInt(i: int)                           // int, int32 or int64
    | DFloat(fixed6: string, general: string) // float32 or float64
    | DBool(b: bool)
    | DOther(general: string)

  function BoolText(b: bool): string
  {
    if b then "true" else "false"
  }

  /** The text `convertMapToStringMapSorted` keeps for one value, or `None`
      when it drops the key: nil and empty strings are dropped, integers are
      rendered in decimal, floats with six decimals, booleans as
      `true`/`false`, anything else by `%v` unless that is empty. */
  function Coerce(v: Dyn): Option<string>
  {
    match v
    case DNil => None
    case DString(s) => if s != "" then Some(s) else None
    case DInt(i) => Some(Decimal(i))
    case DFloat(fixed6, _) => Some(fixed6)
    case DBool(b) => Some(BoolText(b))
    case DOther(general) => if general != "" then Some(general) else None
  }

  /** The text the glossary conversion gives a value: a string verbatim,
      anything else as `%v` prints it (`<nil>` for nil). */
  function DefaultText(v: Dyn): string
  {
    match v
    case DNil => "<nil>"
    case DString(s) => s
    case DInt(i) => Decimal(i)
    case DFloat(_, general) => general
    case DBool(b) => BoolText(b)
    case DOther(general) => general
  }

  /** What `Coerce` keeps is never empty, and integers and booleans come back
      as text that reads back as the same value. */
  lemma CoerceFacts(v: Dyn)
    ensures Coerce(v).Some? && !v.DFloat? ==> Coerce(v).value != ""
    ensures v.DNil? || v == DString("") ==> Coerce(v).None?
    ensures v.DInt? ==> Coerce(v) == Some(Decimal(v.i)) && ParseDecimal(Coerce(v).value) == v.i
    ensures v.DBool? ==> Coerce(v) == Some(if v.b then "true" else "false")
  {
    if v.DInt? {
      DecimalRoundTrip(v.i);
    }
  }
}
