/**
 * The two `java.lang` string operations the generator relies on when it turns
 * a `Field.Required` constant into a boolean: `String.toLowerCase` and
 * `Boolean.valueOf(String)`. Only the ASCII range is modelled; the enum
 * constant names these are applied to are ASCII.
 */
module JavaLang {

  /** `Character.toLowerCase` restricted to ASCII letters. */
  function ToLowerChar(c: char): char {
    if 'A' <= c <= 'Z' then (c as int - 'A' as int + 'a' as int) as char else c
  }

  /** `String.toLowerCase`, character by character. */
  function ToLowerCase(s: string): (r: string)
    ensures |r| == |s|
    ensures forall i :: 0 <= i < |s| ==> r[i] == ToLowerChar(s[i])
  {
    if |s| == 0 then [] else [ToLowerChar(s[0])] + ToLowerCase(s[1..])
  }

  /** `String.equalsIgnoreCase` on ASCII text. */
  predicate EqualsIgnoreCase(a: string, b: string) {
    ToLowerCase(a) == ToLowerCase(b)
  }

  /** `Boolean.valueOf(String)`: true exactly for "true" in any letter case. */
  predicate BooleanValueOf(s: string) {
    EqualsIgnoreCase("true", s)
  }
}
