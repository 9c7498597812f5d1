/**
  The dynamic values that the service passes through Go's `any`: label and
  attribute lists, log fields and error details. The four types that the
  attribute converters recognise by a type switch get their own variant;
  every other dynamic type is `Other`, carrying the text Go's `%v` verb
  renders for it.
 */
module GoValues {

  /** Go's `int64`. */
  newtype Int64 = x: int | -0x8000_0000_0000_0000 <= x < 0x8000_0000_0000_0000

  /** Go's `int` on a 64-bit platform. */
  newtype GoInt = x: int | -0x8000_0000_0000_0000 <= x < 0x8000_0000_0000_0000

  datatype Any =
    | Str(s: string)
    | I64(i: Int64)
    | Int(n: GoInt)
    | Bool(b: bool)
    | Nil
    | Other(text: string)

  /** The dynamic types the attribute converters keep as they are. */
  predicate Typed(v: Any)
  {
    v.Str? || v.I64? || v.Int? || v.Bool?
  }

  /**
    `fmt.Sprintf("%v", v)` for the values the converters stringify: their
    default branch only ever sees a nil or a value of another type.
   */
  function Sprint(v: Any): string
    requires !Typed(v)
  {
    match v
    case Nil => "<nil>"
    case Other(text) => text
  }
}
