/** The text form of a version-4 UUID, as `str(uuid.uuid4())` produces it. */
module Uuids {

  predicate IsLowerHex(c: char) {
    '0' <= c <= '9' || 'a' <= c <= 'f'
  }

  /** 8-4-4-4-12 lower-case hex digits, version nibble 4, variant nibble 8, 9, a or b. */
  predicate IsUuid(s: string) {
    && |s| == 36
    && (forall i :: 0 <= i < |s| ==>
          if i == 8 || i == 13 || i == 18 || i == 23 then s[i] == '-' else IsLowerHex(s[i]))
    && s[14] == '4'
    && s[19] in "89ab"
  }

  /** A UUID text is a non-empty single path component. */
  lemma UuidIsPlainName(s: string)
    requires IsUuid(s)
    ensures s != "" && '/' !in s
  {
  }
}
