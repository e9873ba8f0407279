/** The X-Request-Id format every write request must satisfy. */
module RequestIds {
  predicate HexOrDash(c: char) {
    '0' <= c <= '9' || 'a' <= c <= 'f' || 'A' <= c <= 'F' || c == '-'
  }

  predicate Accepted(rid: string) { 16 <= |rid| <= 64 && forall i :: 0 <= i < |rid| ==> HexOrDash(rid[i]) }

  const ALPHABET := "0123456789abcdefABCDEF-"

  lemma InAlphabet(c: char)
    requires HexOrDash(c)
    ensures c in ALPHABET
  {
    var i := if c <= '-' then 22
             else if c <= '9' then c as int - '0' as int
             else if c <= 'F' then c as int - 'A' as int + 16 else c as int - 'a' as int + 10;
    assert ALPHABET[i] == c;
  }

  lemma AlphabetIs(c: char)
    ensures HexOrDash(c) <==> c in ALPHABET
  {
    if HexOrDash(c) { InAlphabet(c); }
  }

  method IsValidRequestId(rid: string) returns (ok: bool)
    ensures ok <==> Accepted(rid)
    ensures ok <==> 16 <= |rid| <= 64 && forall i :: 0 <= i < |rid| ==> rid[i] in ALPHABET
  {
    forall i | 0 <= i < |rid| ensures HexOrDash(rid[i]) <==> rid[i] in ALPHABET { AlphabetIs(rid[i]); }
    if |rid| < 16 || |rid| > 64 {
      return false;
    }
    for i := 0 to |rid|
      invariant forall j :: 0 <= j < i ==> HexOrDash(rid[j])
    {
      var c := rid[i];
      var hex := ('0' <= c && c <= '9') || ('a' <= c && c <= 'f') || ('A' <= c && c <= 'F');
      if !hex && c != '-' {
        return false;
      }
    }
    return true;
  }
}
