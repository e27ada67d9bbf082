/** The characters the protocol admits in passwords and network names. */
module OpcText {
  predicate Letter(c: char) {
    'A' <= c <= 'Z' || 'a' <= c <= 'z' || '0' <= c <= '9' ||
    c in {'.', '-', '_', '+', '/', ':', '=', '~', '@'}
  }

  /** By code: plus, minus to colon, equals, at-sign to Z, underscore, a to z, tilde. */
  lemma LetterIs(c: char)
    ensures var n := c as int;
            Letter(c) <==>
              n == 43 || 45 <= n <= 58 || n == 61 || 64 <= n <= 90 || n == 95 || 97 <= n <= 122 || n == 126
  {
  }

  predicate InCharset(s: string) {
    forall i :: 0 <= i < |s| ==> Letter(s[i])
  }

  /** valid_opc_charset */
  method ValidCharset(s: string) returns (ok: bool)
    ensures ok == InCharset(s)
  {
    for i := 0 to |s|
      invariant forall k :: 0 <= k < i ==> Letter(s[k])
    {
      if !Letter(s[i]) { return false; }
    }
    return true;
  }
}
