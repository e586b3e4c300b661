/** The two cryptographic primitives the client calls through `hashlib` and
    `hmac`. Their internals are not modelled: each is a parameter of the
    operations that use it, and all the model knows of a digest is what
    `hexdigest()` promises, 64 lowercase hexadecimal characters. */
module Digest {
  import opened Text

  /** The `hexdigest()` of a SHA-256 computation. */
  type HexDigest = s: string | |s| == 64 && IsLowerHex(s)
    witness seq(64, _ => '0')

  /** `hashlib.sha256(text.encode()).hexdigest()`. */
  type Sha256 = string -> HexDigest

  /** `hmac.new(key.encode("utf-8"), message.encode("utf-8"), hashlib.sha256).hexdigest()`,
      as a function of the key and the message. */
  type HmacSha256 = (string, string) -> HexDigest

  /** A digest never contains the field separator of the signed string. */
  lemma HexHasNoColon(s: string)
    requires IsLowerHex(s)
    ensures ':' !in s
  {
  }
}
