/** The request signer of altmarkets_auth.py: a millisecond nonce from the
    clock, signed together with the API key by HMAC-SHA256 under the secret
    key, and sent as the four authentication headers. The clock and the
    HMAC are inputs of the model. */
module AltmarketsAuthentication {
  import opened Wrappers
  import opened Text
  import opened Encoding

  /** `hmac.new(key, msg=msg, digestmod=hashlib.sha256).hexdigest()` */
  type Hmac = (seq<byte>, seq<byte>) -> string

  /** `int(((now - epoch) // timedelta(microseconds=1)) // 1000)` for a clock
      reading of `micros` microseconds since the epoch: the milliseconds,
      rounded down (Python's `//` floors, as Dafny's `/` does for a positive
      divisor). */
  function NonceMillis(micros: int): (r: int)
    ensures r * 1000 <= micros < r * 1000 + 1000
  {
    micros / 1000
  }

  /** `str(posix_timestamp_millis)` */
  function Nonce(micros: int): string
  {
    IntToDecimal(NonceMillis(micros))
  }

  /** The nonce is the decimal text of the milliseconds, and plain ASCII. */
  lemma NonceReadsBack(micros: int)
    ensures ParseInt(Nonce(micros)) == Some(NonceMillis(micros))
    ensures IsAscii(Nonce(micros))
  {
    IntToDecimalRoundTrip(NonceMillis(micros));
    var n := Nonce(micros);
    assert forall i :: 0 <= i < |n| ==> IsDigit(n[i]) || n[i] == '-';
  }

  /** A later clock reading never gives a smaller nonce, and readings within
      the same millisecond give the same one. */
  lemma NonceMonotone(micros1: int, micros2: int)
    requires micros1 <= micros2
    ensures NonceMillis(micros1) <= NonceMillis(micros2)
    ensures micros1 / 1000 == micros2 / 1000 ==> Nonce(micros1) == Nonce(micros2)
  {
  }

  /** The HS256 signature of `nonce + api_key` under the secret key, both
      encoded as Latin-1; `None` where an encoding raises. */
  function Signature(apiKey: string, secretKey: string, nonce: string, hmac: Hmac): (r: Option<string>)
    ensures r.Some? <==> IsLatin1(secretKey) && IsLatin1(nonce + apiKey)
  {
    match (Latin1(secretKey), Latin1(nonce + apiKey))
    case (Some(key), Some(msg)) => Some(hmac(key, msg))
    case _ => None
  }

  const ContentType := "application/json"

  const HeaderNames: set<string> := {"X-Auth-Apikey", "X-Auth-Nonce", "X-Auth-Signature", "Content-Type"}

  /** What `get_headers` returns for one clock reading, `None` where it raises. */
  function Headers(apiKey: string, secretKey: string, micros: int, hmac: Hmac): Option<map<string, string>>
  {
    match Signature(apiKey, secretKey, Nonce(micros), hmac)
    case None => None
    case Some(sig) =>
      Some(map["X-Auth-Apikey" := apiKey, "X-Auth-Nonce" := Nonce(micros), "X-Auth-Signature" := sig,
               "Content-Type" := ContentType])
  }

  /** What the exchange checks: the signature header is the HS256 of the
      nonce header followed by the key header. */
  predicate Authentic(h: map<string, string>, secretKey: string, hmac: Hmac)
  {
    "X-Auth-Apikey" in h && "X-Auth-Nonce" in h && "X-Auth-Signature" in h &&
    Signature(h["X-Auth-Apikey"], secretKey, h["X-Auth-Nonce"], hmac) == Some(h["X-Auth-Signature"])
  }

  /** Headers are produced exactly when both keys are Latin-1 text, whatever
      the clock says; they are then the four named headers, they carry the
      key and the nonce of that reading, and the exchange accepts them. */
  lemma HeadersAuthentic(apiKey: string, secretKey: string, micros: int, hmac: Hmac)
    ensures var h := Headers(apiKey, secretKey, micros, hmac);
            (h.Some? <==> IsLatin1(apiKey) && IsLatin1(secretKey)) &&
            (h.Some? ==> h.value.Keys == HeaderNames && h.value["X-Auth-Apikey"] == apiKey &&
                         ParseInt(h.value["X-Auth-Nonce"]) == Some(NonceMillis(micros)) &&
                         h.value["Content-Type"] == ContentType && Authentic(h.value, secretKey, hmac))
  {
    NonceReadsBack(micros);
    Latin1Append(Nonce(micros), apiKey);
    assert IsLatin1(Nonce(micros));
  }

  /** Two requests signed within the same millisecond carry the same headers. */
  lemma HeadersRepeatWithinMillisecond(apiKey: string, secretKey: string, micros1: int, micros2: int, hmac: Hmac)
    requires micros1 / 1000 == micros2 / 1000
    ensures Headers(apiKey, secretKey, micros1, hmac) == Headers(apiKey, secretKey, micros2, hmac)
  {
  }

  class AltmarketsAuth {
    const apiKey: string
    const secretKey: string
    var signature: Option<string>
    var nonce: Option<string>

    constructor (apiKey: string, secretKey: string)
      ensures this.apiKey == apiKey && this.secretKey == secretKey && signature.None? && nonce.None?
    {
      this.apiKey := apiKey;
      this.secretKey := secretKey;
      signature := None;
      nonce := None;
    }

    /** `generate_signature`: the nonce is stored first, then the signature;
        it returns true, or `None` where the Latin-1 encoding raises, which
        leaves the new nonce beside the old signature. */
    method GenerateSignature(micros: int, hmac: Hmac) returns (r: Option<bool>)
      modifies this
      ensures nonce == Some(Nonce(micros))
      ensures r.Some? <==> Signature(apiKey, secretKey, Nonce(micros), hmac).Some?
      ensures r.Some? ==> r.value && signature == Signature(apiKey, secretKey, Nonce(micros), hmac)
      ensures r.None? ==> signature == old(signature)
    {
      nonce := Some(Nonce(micros));
      var sig := Signature(apiKey, secretKey, nonce.value, hmac);
      if sig.Some? {
        signature := sig;
        r := Some(true);
      } else {
        r := None;
      }
    }

    /** `get_headers`: a fresh signature, then the four headers. */
    method GetHeaders(micros: int, hmac: Hmac) returns (r: Option<map<string, string>>)
      modifies this
      ensures r == Headers(apiKey, secretKey, micros, hmac)
      ensures nonce == Some(Nonce(micros))
      ensures r.Some? ==> signature == Some(r.value["X-Auth-Signature"])
      ensures r.None? ==> signature == old(signature)
    {
      var ok := GenerateSignature(micros, hmac);
      if ok.None? {
        r := None;
      } else {
        r := Some(map["X-Auth-Apikey" := apiKey, "X-Auth-Nonce" := nonce.value,
                      "X-Auth-Signature" := signature.value, "Content-Type" := ContentType]);
      }
    }
  }
}
