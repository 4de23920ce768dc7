/** The session identifier, also the workflow id and the name of the per-VM state directory. */
module SessionId {

  const ALPHABET := "0123456789ABCDEFGHJKMNPQRSTVWXYZ"

  // ^s_[0-9A-HJKMNP-TV-Z]{26}$
  predicate Valid(s: string) {
    |s| == 28 && s[..2] == "s_" && forall i :: 2 <= i < |s| ==> s[i] in ALPHABET
  }

  // "s_" and 26 characters of Crockford's base32: digits, and capital letters but I, L, O and U.
  lemma ValidIs(s: string)
    ensures Valid(s) <==>
      && |s| == 28 && s[0] == 's' && s[1] == '_'
      && forall i :: 2 <= i < 28 ==> '0' <= s[i] <= '9' || ('A' <= s[i] <= 'Z' && s[i] !in "ILOU")
  {
    forall c: char ensures c in ALPHABET <==> '0' <= c <= '9' || ('A' <= c <= 'Z' && c !in "ILOU") { InAlphabet(c); }
    hide ALPHABET;
  }

  lemma InAlphabet(c: char)
    ensures c in ALPHABET <==> '0' <= c <= '9' || ('A' <= c <= 'Z' && c !in "ILOU")
  {}

  // The tap device name: a truncation, not unique on its own.
  function TapName(id: string): string
    requires Valid(id)
  {
    "tap" + id[2..14]
  }

  // It fits the kernel's fifteen characters, and starts with the session's.
  lemma TapNameIs(id: string)
    requires Valid(id)
    ensures |TapName(id)| == 15 && TapName(id)[..3] == "tap" && TapName(id)[3..] == id[2..14]
  {}
}
