/**
 * The few pieces of the .NET runtime that the adapter's decisions depend on:
 * nullable references, `string.IsNullOrWhiteSpace`, and the value types that
 * the adapter only copies from one object to another.
 */
module DotNet {

  /** A C# reference or nullable value; `None` stands for `null`. */
  datatype Option<+T> = None | Some(value: T)

  /** `System.DateTime` (and `DateTimeOffset`), as its tick count. */
  datatype DateTime = DateTime(ticks: int)

  /** `System.TimeSpan`, as its tick count. */
  datatype TimeSpan = TimeSpan(ticks: int)

  /** A `System.Double`, carried through untouched as its IEEE-754 bit pattern. */
  datatype Double = Double(bits: bv64)

  /** `System.Exception`, reduced to what telemetry reads from it. */
  datatype Exception = Exception(message: string, typeName: string, stackTrace: Option<string>)

  /**
   * `char.IsWhiteSpace`: the Unicode space, line and paragraph separators
   * (categories Zs, Zl, Zp) together with the control characters
   * U+0009..U+000D and U+0085.
   */
  predicate IsWhiteSpace(c: char)
  {
    || c == ' '
    || ('\t' <= c <= '\r')
    || c == '\U{85}'
    || c == '\U{A0}'
    || c == '\U{1680}'
    || ('\U{2000}' <= c <= '\U{200A}')
    || c == '\U{2028}'
    || c == '\U{2029}'
    || c == '\U{202F}'
    || c == '\U{205F}'
    || c == '\U{3000}'
  }

  /** True when every character of `s` is white space (vacuously for ""). */
  function AllWhiteSpace(s: string): (b: bool)
    ensures b <==> forall i | 0 <= i < |s| :: IsWhiteSpace(s[i])
    decreases |s|
  {
    |s| == 0 || (IsWhiteSpace(s[0]) && AllWhiteSpace(s[1..]))
  }

  /** `string.IsNullOrWhiteSpace`: null, empty, or nothing but white space. */
  function IsNullOrWhiteSpace(s: Option<string>): (b: bool)
    ensures s == None ==> b
    ensures s == Some("") ==> b
    ensures s.Some? ==> (b <==> forall i | 0 <= i < |s.value| :: IsWhiteSpace(s.value[i]))
  {
    s.None? || AllWhiteSpace(s.value)
  }
}
