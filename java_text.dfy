/**
 * The Java and Apache Commons Lang string tests that the application handler relies on:
 * `Character.isWhitespace`, `StringUtils.isBlank`, `String.equalsIgnoreCase` and
 * `Boolean.parseBoolean`.
 */
module JavaText {
  import opened Wrappers

  /** `java.lang.Character.isWhitespace`: the Unicode space, line and paragraph separators
      except the three no-break spaces, plus the ASCII controls TAB to CR and FS to US.
      The set is that of Java 9 and later (Unicode 6.3 and later), where U+180E is no
      longer a space separator. */
  predicate JavaWhitespace(c: char) {
    || ('\t' <= c <= '\r')
    || ('\U{1C}' <= c <= '\U{1F}')
    || c == ' '
    || c == '\U{1680}'
    || ('\U{2000}' <= c <= '\U{2006}')
    || ('\U{2008}' <= c <= '\U{200A}')
    || c == '\U{2028}' || c == '\U{2029}'
    || c == '\U{205F}' || c == '\U{3000}'
  }

  /** `StringUtils.isBlank` on a non-null string: every character is whitespace. */
  predicate IsBlank(s: string) {
    forall i | 0 <= i < |s| :: JavaWhitespace(s[i])
  }

  /** `StringUtils.isBlank` on a possibly-null string: null is blank. */
  predicate IsBlankValue(v: Option<string>) {
    v.None? || IsBlank(v.value)
  }

  /** `Character.toUpperCase` restricted to ASCII letters. */
  function ToUpperAscii(c: char): char {
    if 'a' <= c <= 'z' then (c as int - 32) as char else c
  }

  /** `Character.toLowerCase` restricted to ASCII letters. */
  function ToLowerAscii(c: char): char {
    if 'A' <= c <= 'Z' then (c as int + 32) as char else c
  }

  /** The per-character test of `String.regionMatches(true, ...)`: equal, equal after
      upper-casing, or equal after upper- then lower-casing. */
  predicate CharEqualsIgnoreCase(a: char, b: char) {
    a == b
    || ToUpperAscii(a) == ToUpperAscii(b)
    || ToLowerAscii(ToUpperAscii(a)) == ToLowerAscii(ToUpperAscii(b))
  }

  /** `String.equalsIgnoreCase`: same length and pairwise equal ignoring case. */
  predicate EqualsIgnoreCase(a: string, b: string) {
    |a| == |b| && forall i | 0 <= i < |a| :: CharEqualsIgnoreCase(a[i], b[i])
  }

  /** `String.toLowerCase` restricted to ASCII letters. */
  function LowerAscii(s: string): string {
    seq(|s|, i requires 0 <= i < |s| => ToLowerAscii(s[i]))
  }

  /** Lower-casing a lower-cased string changes nothing more. */
  lemma LowerAsciiIdempotent(s: string)
    ensures LowerAscii(LowerAscii(s)) == LowerAscii(s)
  {
  }

  /** `Boolean.parseBoolean` on a non-null string: true exactly when the string is "true"
      in any mix of upper and lower case; no trimming is done. */
  function ParseBoolean(s: string): (r: bool)
    ensures r <==> LowerAscii(s) == "true"
  {
    var ok := EqualsIgnoreCase(s, "true");
    assert ok ==> LowerAscii(s) == "true" by {
      if ok {
        forall i | 0 <= i < 4 ensures LowerAscii(s)[i] == "true"[i] {
          assert CharEqualsIgnoreCase(s[i], "true"[i]);
        }
      }
    }
    assert LowerAscii(s) == "true" ==> ok by {
      if LowerAscii(s) == "true" {
        forall i | 0 <= i < 4 ensures CharEqualsIgnoreCase(s[i], "true"[i]) {
          assert ToLowerAscii(s[i]) == "true"[i];
        }
      }
    }
    ok
  }
}
