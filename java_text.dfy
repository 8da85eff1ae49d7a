/**
 * Character classes of java.util.regex (without flags) and the
 * "lower-case the first character" idiom that the generator applies to
 * class names, type names and setter suffixes.
 */
module JavaText {

  /** `\s`: space, tab, newline, vertical tab (0x0B), form feed (0x0C), carriage return. */
  predicate IsSpace(c: char) {
    c == ' ' || c == '\t' || c == '\n' || c == '\r' || c as int == 0x0B || c as int == 0x0C
  }

  /** `\w`: ASCII letters, digits and the underscore. */
  predicate IsWordChar(c: char) {
    ('a' <= c <= 'z') || ('A' <= c <= 'Z') || ('0' <= c <= '9') || c == '_'
  }

  predicate IsUpper(c: char) {
    'A' <= c <= 'Z'
  }

  predicate IsLower(c: char) {
    'a' <= c <= 'z'
  }

  /**
   * `String.toLowerCase` on a one-character string, for the ASCII
   * characters that the generator's capture groups can contain.
   */
  function LowerChar(c: char): (r: char)
    ensures IsUpper(c) ==> IsLower(r) && r as int - c as int == 'a' as int - 'A' as int
    ensures !IsUpper(c) ==> r == c
    ensures !IsUpper(r)
  {
    if IsUpper(c) then (c as int - 'A' as int + 'a' as int) as char else c
  }

  /**
   * `s.substring(0, 1).toLowerCase() + s.substring(1)`: only the first
   * character changes.  The source calls it on regex captures that are never
   * empty (`substring(0, 1)` would throw on an empty string).
   */
  function LowerFirst(s: string): (r: string)
    requires |s| > 0
    ensures |r| == |s|
    ensures r[0] == LowerChar(s[0])
    // The next two follow from the clause above and LowerChar's contract.
    ensures !IsUpper(r[0])
    ensures IsUpper(s[0]) ==> IsLower(r[0])
    ensures forall k :: 1 <= k < |s| ==> r[k] == s[k]
    ensures r == s <==> !IsUpper(s[0])
  {
    [LowerChar(s[0])] + s[1..]
  }

  /** Lower-casing the first character twice is the same as once. */
  lemma LowerFirstIdempotent(s: string)
    requires |s| > 0
    ensures LowerFirst(LowerFirst(s)) == LowerFirst(s)
  {
  }

  /** Two names lower-case to the same id only if they agree after the first character. */
  lemma LowerFirstDeterminesTail(s: string, t: string)
    requires |s| > 0 && |t| > 0
    requires LowerFirst(s) == LowerFirst(t)
    ensures |s| == |t| && s[1..] == t[1..]
  {
    assert LowerFirst(s)[1..] == s[1..];
    assert LowerFirst(t)[1..] == t[1..];
  }

  /** The names the generator's tests expect. */
  lemma LowerFirstExamples()
    ensures LowerFirst("Clazz") == "clazz"
    ensures LowerFirst("AnObject") == "anObject"
    ensures LowerFirst("Foo") == "foo"
    ensures LowerFirst("List2") == "list2"
    ensures LowerFirst("bar") == "bar"
  {
  }
}
