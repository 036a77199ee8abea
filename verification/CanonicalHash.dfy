// The canonical hash: canonical JSON, in UTF-8, through SHA-256, as hexadecimal
// text.  Elsewhere the hash is a parameter; this is what stands behind it.
module CanonicalHash {
  import opened JsonText
  import opened CanonicalJson
  import opened Utf8
  import Sha256
  import Protocol

  /** The octets that are hashed. */
  function Bytes(f: NumberFormat, compare: Compare, v: JsValue): seq<Octet> {
    Encode(Serialize(f, compare, v))
  }

  function HashOf(f: NumberFormat, compare: Compare, v: JsValue): Protocol.Digest
    requires |Bytes(f, compare, v)| < Sha256.LIMIT
  {
    Protocol.Sha256(Sha256.HexText(Sha256.Digest(Bytes(f, compare, v))))
  }

  /** `canonicalHash`. */
  method ComputeHash(f: NumberFormat, compare: Compare, v: JsValue) returns (r: Protocol.Digest)
    requires |Bytes(f, compare, v)| < Sha256.LIMIT
    ensures r == HashOf(f, compare, v)
  {
    var bytes := Utf8Bytes(Serialize(f, compare, v));
    var digest := Sha256.Sha256Words(bytes);
    r := Protocol.Sha256(Sha256.HexText(digest));
  }

  /** SHA-256 does not happen to map these two inputs to one digest. */
  predicate NoCollision(a: seq<Octet>, b: seq<Octet>)
    requires |a| < Sha256.LIMIT && |b| < Sha256.LIMIT
  {
    Sha256.Digest(a) == Sha256.Digest(b) ==> a == b
  }

  /**
   * Comparing hashes in place of values is sound: but for a collision of SHA-256 itself, two values have the same
   * canonical hash exactly when they are the same up to the order of object members.
   */
  lemma HashTellsMeaning(f: NumberFormat, compare: Compare, v: JsValue, w: JsValue)
    requires IsFaithful(f) && IsTotalOrder(compare) && IsProper(v) && IsProper(w)
    requires |Bytes(f, compare, v)| < Sha256.LIMIT && |Bytes(f, compare, w)| < Sha256.LIMIT
    requires NoCollision(Bytes(f, compare, v), Bytes(f, compare, w))
    ensures HashOf(f, compare, v) == HashOf(f, compare, w) <==> MeaningOf(v) == MeaningOf(w)
  {
    hide Serialize, Encode, Sha256.Digest, Sha256.HexText, MeaningOf, IsProper, IsFaithful, IsTotalOrder;
    CanonicalIsExact(f, compare, v, w);
    EncodeIsInjective(Serialize(f, compare, v), Serialize(f, compare, w));
    Sha256.TextsTellApart(Sha256.Digest(Bytes(f, compare, v)), Sha256.Digest(Bytes(f, compare, w)));
  }
}
