/** The check that a webhook delivery was signed with the shared secret. The HMAC-SHA256
    digest is a parameter: `hmacHex(secret, body)` stands for the lower-case hex digest
    of the body under the secret, about which nothing is assumed. */
module Signature {
  import opened Common
  import opened Utf8

  const SignaturePrefix := "sha256="

  /** The signature header a genuine delivery carries. */
  function Expected(body: string, secret: string, hmacHex: (string, string) -> string): string {
    SignaturePrefix + hmacHex(secret, body)
  }

  /** `crypto.timingSafeEqual`: throws when the buffers differ in length, otherwise says
      whether they are equal. */
  function TimingSafeEqual(a: seq<byte>, b: seq<byte>): (r: Attempt<bool>)
    ensures r.Throws? <==> |a| != |b|
    ensures r.Done? ==> (r.value <==> a == b)
  {
    if |a| != |b| then Throws else Done(a == b)
  }

  /** `verifySignature(signature, body, secret)`: false when any of the three is missing
      or empty; otherwise the constant-time comparison of the UTF-8 bytes of the
      signature with those of `"sha256=" + digest`, which throws on a length mismatch. */
  function VerifySignature(signature: Option<string>, body: Option<string>, secret: Option<string>,
                           hmacHex: (string, string) -> string): (r: Attempt<bool>)
    ensures !Truthy(signature) || !Truthy(body) || !Truthy(secret) ==> r == Done(false)
    ensures r == Done(true) <==>
              Truthy(signature) && Truthy(body) && Truthy(secret)
              && signature.value == Expected(body.value, secret.value, hmacHex)
    ensures r.Throws? <==>
              Truthy(signature) && Truthy(body) && Truthy(secret)
              && |Encode(signature.value)| != |Encode(Expected(body.value, secret.value, hmacHex))|
  {
    if !Truthy(signature) || !Truthy(body) || !Truthy(secret) then Done(false)
    else
      var digest := Expected(body.value, secret.value, hmacHex);
      var r := TimingSafeEqual(Encode(signature.value), Encode(digest));
      assert r == Done(true) ==> signature.value == digest by {
        if r == Done(true) {
          EncodeInjective(signature.value, digest);
        }
      }
      r
  }
}
