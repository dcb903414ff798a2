/** Opaque identifiers that come from a provider. Strings stand for their UTF-8 encodings. */
module References {

  predicate IsSpace(c: char) { c == ' ' || '\t' <= c <= '\r' }

  predicate Blank(s: string) { forall c :: c in s ==> IsSpace(c) }

  predicate IsControl(c: char) { c < ' ' || c == 127 as char }

  predicate ValidReference(s: string) {
    !Blank(s) && |s| <= 1024 && forall c :: c in s ==> !IsControl(c)
  }
}
