/**
 * The slice of the URI and string helpers that the extension-host window relies on:
 * a URI record whose scheme is inspected, the scheme names it compares against,
 * and the "empty or all whitespace" test used on schemes.
 */
module Uris {

  /** The components of a parsed URI. Only `scheme` is ever inspected by the window API. */
  datatype Uri = Uri(scheme: string, authority: string, path: string, query: string, fragment: string)

  /** The internal scheme whose URIs run editor commands. */
  const Command: string := "command"
  const Http: string := "http"
  const Https: string := "https"

  /**
   * The characters that ECMAScript's String.prototype.trim removes: the WhiteSpace
   * code points (tab, vertical tab, form feed, space, no-break space, byte order mark
   * and the Unicode Zs category) and the LineTerminator code points.
   */
  predicate IsWhitespace(c: char)
  {
    || c == '\t' || c == '\n' || c == '\U{000B}' || c == '\U{000C}' || c == '\r'
    || c == ' ' || c == '\U{00A0}' || c == '\U{1680}'
    || ('\U{2000}' <= c <= '\U{200A}')
    || c == '\U{2028}' || c == '\U{2029}' || c == '\U{202F}' || c == '\U{205F}'
    || c == '\U{3000}' || c == '\U{FEFF}'
  }

  /** A string that is empty or whose trimmed form is empty. */
  predicate IsFalsyOrWhitespace(s: string)
  {
    forall i | 0 <= i < |s| :: IsWhitespace(s[i])
  }

  /** A scheme made of at least one non-whitespace character passes the emptiness test. */
  lemma NonBlankScheme(s: string, i: nat)
    requires i < |s| && !IsWhitespace(s[i])
    ensures !IsFalsyOrWhitespace(s)
  {
  }
}
