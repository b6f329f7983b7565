/** The small part of the Java platform that the shop resource relies on:
    character classification and case mapping of `Character`, the way string
    concatenation renders a null reference, and the exceptions the resource
    can raise. */
module JavaLang {

  /** A Java reference that may be null. */
  datatype Option<T> = None | Some(value: T)

  /** A thrown exception: its class name and what `getMessage()` returns. */
  datatype Throwable = Throwable(className: string, message: Option<string>)

  /** What dereferencing a null reference throws (the message text is not modelled). */
  const NullPointer: Throwable := Throwable("java.lang.NullPointerException", None)

  /** What reading index 0 of an empty `char[]` throws. */
  const EmptyArrayIndex: Throwable :=
    Throwable("java.lang.ArrayIndexOutOfBoundsException", Some("Index 0 out of bounds for length 0"))

  /** How `"..." + s` renders a possibly-null string operand. */
  function StringValueOf(s: Option<string>): string {
    match s
    case None => "null"
    case Some(v) => v
  }

  /** `Character.isWhitespace(char)` as of Java 9 (Unicode 6.3 and later): the
      Unicode space, line and paragraph separators except the three no-break
      spaces, plus the controls U+0009..U+000D and U+001C..U+001F. */
  function IsWhitespace(c: char): (r: bool)
    ensures c as int < 0x80 ==> (r <==> c as int in {0x09, 0x0A, 0x0B, 0x0C, 0x0D, 0x1C, 0x1D, 0x1E, 0x1F, 0x20})
    ensures c as int in {0xA0, 0x2007, 0x202F} ==> !r
    ensures c as int in {0x2028, 0x2029} ==> r
  {
    var n := c as int;
    (0x09 <= n <= 0x0D) || (0x1C <= n <= 0x20) || n == 0x1680
    || (0x2000 <= n <= 0x2006) || (0x2008 <= n <= 0x200A)
    || n == 0x2028 || n == 0x2029 || n == 0x205F || n == 0x3000
  }

  /** `Character.toUpperCase(char)` on the Basic Latin and Latin-1 blocks; every
      other character is left as it is. */
  function ToUpperCase(c: char): (r: char)
    ensures 'a' <= c <= 'z' ==> r as int == c as int - 32
    ensures !('a' <= c <= 'z') && c as int < 0x80 ==> r == c
    ensures 0xE0 <= c as int <= 0xFE && c as int != 0xF7 ==> r as int == c as int - 0x20
    ensures c as int in {0xDF, 0xF7} ==> r == c
    ensures c as int == 0xFF ==> r as int == 0x178
    ensures c as int == 0xB5 ==> r as int == 0x39C
  {
    var n := c as int;
    if 0x61 <= n <= 0x7A || (0xE0 <= n <= 0xFE && n != 0xF7) then (n - 0x20) as char
    else if n == 0xFF then 0x178 as char  // y with diaeresis
    else if n == 0xB5 then 0x39C as char  // micro sign becomes Greek capital mu
    else c
  }

  /** Upper-casing never turns a whitespace character into a non-whitespace one
      or the other way round. */
  lemma ToUpperCasePreservesWhitespace(c: char)
    ensures IsWhitespace(ToUpperCase(c)) == IsWhitespace(c)
  {
  }

  /** Upper-casing an upper-cased character changes nothing. */
  lemma ToUpperCaseIdempotent(c: char)
    ensures ToUpperCase(ToUpperCase(c)) == ToUpperCase(c)
  {
  }
}
