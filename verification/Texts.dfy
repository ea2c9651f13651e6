/** Bytes, and the identifiers that routes and cursors accept. */
module Texts {

  type Byte = n: int | 0 <= n < 256

  predicate IdStart(c: char) {
    'A' <= c <= 'Z' || 'a' <= c <= 'z' || '0' <= c <= '9'
  }

  /** A letter or digit, then letters, digits, dots, underscores, colons and hyphens. */
  predicate Identifier(id: string, limit: nat) {
    1 <= |id| <= limit && IdStart(id[0]) && forall i :: 0 <= i < |id| ==> IdStart(id[i]) || id[i] in "._:-"
  }
}
