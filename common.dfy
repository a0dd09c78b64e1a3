/** Values shared by every module: Java's nullable references as `Option`,
    thrown exceptions as the `Err` side of a `Result`, and the two different
    meanings of a "blank" string found in the Java runtime. */
module Common {

  /** A Java reference that may be null. */
  datatype Option<+T> = None | Some(value: T)

  /** The outcome of a call that either returns a value or throws. Usable with `:-`,
      which gives the short-circuit of a chain of reactive stages. */
  datatype Result<+T, +E> = Ok(value: T) | Err(error: E) {
    predicate IsFailure() { Err? }

    function PropagateFailure<U>(): Result<U, E>
      requires Err?
    {
      Err(error)
    }

    function Extract(): T
      requires Ok?
    {
      value
    }
  }

  /** A byte of a message payload (`byte[]`). */
  newtype Byte = b: int | 0 <= b < 256

  /** Text of a nullable string as Java's `+` concatenation renders it ("null" for null). */
  function JavaText(s: Option<string>): (t: string)
    ensures s.Some? ==> t == s.value
    ensures s.None? ==> t == "null"
  {
    match s
    case Some(v) => v
    case None => "null"
  }

  /** `Character.isWhitespace`: the Unicode space, line and paragraph separators except the
      non-breaking ones (U+00A0, U+2007, U+202F), plus the ASCII controls U+0009..U+000D
      and U+001C..U+001F. */
  predicate IsJavaWhitespace(c: char) {
    var n := c as int;
    (9 <= n <= 13) || (28 <= n <= 32)
    || n == 0x1680 || (0x2000 <= n <= 0x2006) || (0x2008 <= n <= 0x200A)
    || n == 0x2028 || n == 0x2029 || n == 0x205F || n == 0x3000
  }

  /** `String.isBlank`: empty, or whitespace code points only. */
  predicate IsBlank(s: string) {
    forall i :: 0 <= i < |s| ==> IsJavaWhitespace(s[i])
  }

  /** Leading part of `String.trim`: drop every leading character `<= U+0020`. */
  function TrimStart(s: string): (r: string)
    ensures |r| <= |s|
    ensures r == s[|s| - |r|..]
    ensures r != [] ==> r[0] > ' '
    ensures forall i :: 0 <= i < |s| - |r| ==> s[i] <= ' '
  {
    if |s| > 0 && s[0] <= ' ' then TrimStart(s[1..]) else s
  }

  /** Trailing part of `String.trim`: drop every trailing character `<= U+0020`. */
  function TrimEnd(s: string): (r: string)
    ensures |r| <= |s|
    ensures r == s[..|r|]
    ensures r != [] ==> r[|r| - 1] > ' '
    ensures forall i :: |r| <= i < |s| ==> s[i] <= ' '
  {
    if |s| > 0 && s[|s| - 1] <= ' ' then TrimEnd(s[..|s| - 1]) else s
  }

  /** `String.trim`, which Hibernate Validator's `@NotBlank` check uses. */
  function Trim(s: string): string {
    TrimEnd(TrimStart(s))
  }

  /** `trim()` leaves nothing exactly when every character is `<= U+0020`. */
  lemma TrimEmptyIff(s: string)
    ensures Trim(s) == [] <==> forall i :: 0 <= i < |s| ==> s[i] <= ' '
  {
    var a := TrimStart(s);
    if Trim(s) == [] {
      assert a == [];
    } else {
      var k := |s| - |a|;
      assert a != [] && a[0] > ' ';
      assert s[k] == a[0];
    }
  }

  /** The two notions of "blank" differ: NUL is trimmed but is not whitespace, and the
      ideographic space is whitespace but is not trimmed. */
  lemma BlankNotionsDiffer()
    ensures Trim("\0") == [] && !IsBlank("\0")
    ensures IsBlank("\U{3000}") && Trim("\U{3000}") != []
  {
    assert !IsJavaWhitespace("\0"[0]);
    assert "\U{3000}"[0] > ' ';
    TrimEmptyIff("\U{3000}");
  }

  /** On plain ASCII spaces, tabs and line breaks both notions agree. */
  lemma BlankNotionsAgreeOnAsciiSpace(s: string)
    requires forall i :: 0 <= i < |s| ==> s[i] in {' ', '\t', '\n', '\r'}
    ensures IsBlank(s) && Trim(s) == []
  {
    TrimEmptyIff(s);
  }
}
