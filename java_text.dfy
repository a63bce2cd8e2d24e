/** The two java.lang.String predicates the service relies on. */
module JavaText {

  /** Character.isWhitespace: the ASCII controls 9-13 and 28-31, and every Unicode space,
      line or paragraph separator except the three no-break spaces. */
  predicate IsWhitespace(c: char) {
    var n := c as int;
    (0x09 <= n <= 0x0D) || (0x1C <= n <= 0x20) || n == 0x1680
    || (0x2000 <= n <= 0x2006) || (0x2008 <= n <= 0x200A)
    || n == 0x2028 || n == 0x2029 || n == 0x205F || n == 0x3000
  }

  /** String.isBlank: empty or whitespace only. */
  predicate IsBlank(s: string) {
    forall i :: 0 <= i < |s| ==> IsWhitespace(s[i])
  }

  /** Character.toUpperCase, for the characters whose upper case is an ASCII letter. */
  function ToUpper(c: char): char {
    if 'a' <= c <= 'z' then (c as int - 32) as char
    else if c == '\U{0131}' then 'I'   // dotless i
    else if c == '\U{017F}' then 'S'   // long s
    else c
  }

  /** Character.toLowerCase, for the characters whose lower case is an ASCII letter. */
  function ToLower(c: char): char {
    if 'A' <= c <= 'Z' then (c as int + 32) as char
    else if c == '\U{0130}' then 'i'   // dotted capital I
    else if c == '\U{212A}' then 'k'   // Kelvin sign
    else c
  }

  /** The per-character test of String.equalsIgnoreCase. */
  predicate CharEqualsIgnoreCase(a: char, b: char) {
    a == b || ToUpper(a) == ToUpper(b) || ToLower(ToUpper(a)) == ToLower(ToUpper(b))
  }

  /** String.equalsIgnoreCase. Exact whenever one side is ASCII, as every literal the
      service compares against is; for two non-ASCII characters it only knows equality
      and the four mappings above. */
  predicate EqualsIgnoreCase(s: string, t: string) {
    |s| == |t| && forall i :: 0 <= i < |s| ==> CharEqualsIgnoreCase(s[i], t[i])
  }

  /** The product-type check of the third-party payment is not met by the upper-case
      English value the product record's comment documents, nor by a null type. */
  lemma ActiveIsNotActivo()
    ensures !EqualsIgnoreCase("ACTIVE", "activo")
    ensures EqualsIgnoreCase("ACTIVO", "activo") && EqualsIgnoreCase("Activo", "activo")
  {
    assert !CharEqualsIgnoreCase("ACTIVE"[5], "activo"[5]);
    assert forall i :: 0 <= i < 6 ==> CharEqualsIgnoreCase("ACTIVO"[i], "activo"[i]);
    assert forall i :: 0 <= i < 6 ==> CharEqualsIgnoreCase("Activo"[i], "activo"[i]);
  }
}
