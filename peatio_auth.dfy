/** The request signer of peatio_auth.py: the same nonce and payload as the
    Altmarkets signer, encoded as UTF-8, with a fifth `User-Agent` header
    and no state kept between calls. `Constants.USER_AGENT` comes from
    peatio_constants.py, which is not part of this model; it is a
    parameter. */
module PeatioAuthentication {
  import opened Wrappers
  import opened Text
  import opened Encoding
  import opened AltmarketsAuthentication

  const PeatioHeaderNames: set<string> := HeaderNames + {"User-Agent"}

  datatype PeatioAuth = PeatioAuth(apiKey: string, secretKey: string)
  {
    /** `generate_signature(auth_payload)` */
    function GenerateSignature(payload: string, hmac: Hmac): string
    {
      hmac(Utf8(secretKey), Utf8(payload))
    }

    /** `get_headers` for one clock reading. */
    function GetHeaders(micros: int, hmac: Hmac, userAgent: string): (h: map<string, string>)
      ensures h.Keys == PeatioHeaderNames
      ensures h["X-Auth-Apikey"] == apiKey && h["Content-Type"] == ContentType && h["User-Agent"] == userAgent
    {
      var nonce := Nonce(micros);
      map["X-Auth-Apikey" := apiKey, "X-Auth-Nonce" := nonce,
          "X-Auth-Signature" := GenerateSignature(nonce + apiKey, hmac),
          "Content-Type" := ContentType, "User-Agent" := userAgent]
    }

    /** What the exchange checks: the signature header is the HS256, over
        UTF-8, of the nonce header followed by the key header. */
    predicate Authentic(h: map<string, string>, hmac: Hmac)
    {
      "X-Auth-Apikey" in h && "X-Auth-Nonce" in h && "X-Auth-Signature" in h &&
      h["X-Auth-Signature"] == GenerateSignature(h["X-Auth-Nonce"] + h["X-Auth-Apikey"], hmac)
    }
  }

  /** Every header set is accepted and carries the nonce of its clock
      reading; unlike the Altmarkets signer this one never raises. */
  lemma PeatioHeadersAuthentic(auth: PeatioAuth, micros: int, hmac: Hmac, userAgent: string)
    ensures var h := auth.GetHeaders(micros, hmac, userAgent);
            auth.Authentic(h, hmac) && ParseInt(h["X-Auth-Nonce"]) == Some(NonceMillis(micros))
  {
    NonceReadsBack(micros);
  }

  /** With ASCII keys the two signers agree: the Altmarkets headers are the
      Peatio headers without `User-Agent`. */
  lemma SignersAgreeOnAscii(apiKey: string, secretKey: string, micros: int, hmac: Hmac, userAgent: string)
    requires IsAscii(apiKey) && IsAscii(secretKey)
    ensures Headers(apiKey, secretKey, micros, hmac) ==
            Some(PeatioAuth(apiKey, secretKey).GetHeaders(micros, hmac, userAgent) - {"User-Agent"})
  {
    var nonce := Nonce(micros);
    NonceReadsBack(micros);
    assert IsAscii(nonce + apiKey) by {
      forall i | 0 <= i < |nonce + apiKey| ensures (nonce + apiKey)[i] as int < 0x80 {
        if i >= |nonce| { assert (nonce + apiKey)[i] == apiKey[i - |nonce|]; }
      }
    }
    Utf8OfAscii(secretKey);
    Utf8OfAscii(nonce + apiKey);
    var a, p := Headers(apiKey, secretKey, micros, hmac), PeatioAuth(apiKey, secretKey).GetHeaders(micros, hmac, userAgent);
    assert a.Some?;
    assert a.value == p - {"User-Agent"};
  }
}
