/** Character classes of ECMAScript regular expressions. All their members are in the Basic Multilingual Plane. */
module Characters {
  /** A line terminator: `[\r\n\u2028\u2029]`. */
  predicate IsLineEnd(c: char) { c in {'\n', '\r', '\U{2028}', '\U{2029}'} }

  /** White space: `\s`. */
  predicate IsSpace(c: char) {
    || IsLineEnd(c) || c in {'\t', '\U{0B}', '\U{0C}', ' ', '\U{A0}', '\U{1680}', '\U{202F}', '\U{205F}', '\U{3000}', '\U{FEFF}'}
    || '\U{2000}' <= c <= '\U{200A}'
  }

  predicate IsLetter(c: char) { 'a' <= c <= 'z' || 'A' <= c <= 'Z' }

  predicate IsDigit(c: char) { '0' <= c <= '9' }
}
