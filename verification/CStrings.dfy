/** Zero-terminated strings. */
module CStrings {
  const NUL: char := '\0'

  ghost predicate NoNul(t: string) {
    forall i :: 0 <= i < |t| ==> t[i] != NUL
  }
}
