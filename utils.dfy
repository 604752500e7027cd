/** `is_empty`: the emptiness test used on configuration values. */
module Utils {
  import opened Text

  /** The values `is_empty` is called with; in Python a bool is also an int. */
  datatype Value = NoneValue | Str(s: string) | Int(i: int) | Bool(b: bool) | OtherValue

  /** None, a blank string, and an int (or bool) equal to 0 are empty; anything else is not. */
  function IsEmpty(v: Value): (r: bool)
    ensures v.NoneValue? ==> r
    ensures v.Str? ==> (r <==> forall k :: 0 <= k < |v.s| ==> IsSpace(v.s[k]))
    ensures v.Int? ==> (r <==> v.i == 0)
    ensures v.Bool? ==> (r <==> !v.b)
    ensures v.OtherValue? ==> !r
  {
    match v
    case NoneValue => true
    case Str(s) => StripShape(s); Strip(s) == ""
    case Int(i) => i == 0
    case Bool(b) => (if b then 1 else 0) == 0
    case OtherValue => false
  }
}
