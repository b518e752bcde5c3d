/**
 * Security mode 5 of EN 13757-7 / OMS Specification Volume 2 as the decoder
 * uses it: the initialization vector built from link-layer metadata, the
 * AES-128-CBC collaborator, and the 0x2F verification marker and padding.
 */
module Security {
  import opened Frame

  /** Value of the two-byte verification marker and of the padding byte. */
  const Filler: bv8 := 0x2F
  const AesBlock: nat := 16
  const IvLen: nat := 16

  /**
   * The initialization vector: manufacturer, identification number, version,
   * device type, then the TPL access number in each of the last eight bytes.
   */
  function DeriveIv(dll: DllHeader, acc: bv8): (iv: seq<bv8>)
    requires dll.Valid()
    ensures |iv| == IvLen
    ensures iv[..2] == dll.manufacturer && iv[2..6] == dll.id
    ensures iv[6] == dll.version && iv[7] == dll.deviceType
    ensures forall i :: 8 <= i < IvLen ==> iv[i] == acc
  {
    var m, id := dll.manufacturer, dll.id;
    [m[0], m[1], id[0], id[1], id[2], id[3], dll.version, dll.deviceType,
     acc, acc, acc, acc, acc, acc, acc, acc]
  }

  /** The metadata read back from an IV: the inverse of DeriveIv. */
  function IvMetadata(iv: seq<bv8>): (r: (DllHeader, bv8))
    requires |iv| == IvLen
    ensures r.0.Valid()
  {
    (DllHeader(iv[..2], iv[2..6], iv[6], iv[7]), iv[8])
  }

  /** Every IV is determined by, and determines, its metadata. */
  lemma IvRoundTrip(dll: DllHeader, acc: bv8)
    requires dll.Valid()
    ensures IvMetadata(DeriveIv(dll, acc)) == (dll, acc)
  {
  }

  /** Telegrams with different metadata never share an IV. */
  lemma IvInjective(d1: DllHeader, a1: bv8, d2: DllHeader, a2: bv8)
    requires d1.Valid() && d2.Valid()
    requires DeriveIv(d1, a1) == DeriveIv(d2, a2)
    ensures d1 == d2 && a1 == a2
  {
  }

  /**
   * Outcome of one CBC decryption: the plaintext and the IV as the primitive
   * leaves it (CBC implementations overwrite their IV argument with the last
   * ciphertext block), or the primitive's error code.
   */
  datatype CbcResult = CbcOk(plain: seq<bv8>, ivOut: seq<bv8>) | CbcError(code: int)

  /**
   * The AES-128 collaborator: key schedule set-up for decryption, and CBC
   * decryption of whole blocks given key, IV and ciphertext. Neither is
   * specified beyond `Conforms`.
   */
  datatype Aes128 = Aes128(
    setKeyDec: seq<bv8> -> bool,
    cryptCbcDecrypt: (seq<bv8>, seq<bv8>, seq<bv8>) -> CbcResult)

  /**
   * What the decoder relies on: on whole blocks and a 16-byte IV, a successful
   * decryption returns as many bytes as it was given and a 16-byte IV.
   */
  ghost predicate Conforms(aes: Aes128)
  {
    forall key, iv, data ::
      |iv| == IvLen && |data| % AesBlock == 0 && aes.cryptCbcDecrypt(key, iv, data).CbcOk? ==>
        |aes.cryptCbcDecrypt(key, iv, data).plain| == |data| &&
        |aes.cryptCbcDecrypt(key, iv, data).ivOut| == IvLen
  }

  /** `Conforms` instantiated at one call: the one in `Decoder.CryptCbcOnCopy`. */
  lemma ConformsAt(aes: Aes128, key: seq<bv8>, iv: seq<bv8>, data: seq<bv8>)
    requires Conforms(aes)
    requires |iv| == IvLen && |data| % AesBlock == 0
    ensures aes.cryptCbcDecrypt(key, iv, data).CbcOk? ==>
      |aes.cryptCbcDecrypt(key, iv, data).plain| == |data| &&
      |aes.cryptCbcDecrypt(key, iv, data).ivOut| == IvLen
  {
  }

  /** True when the plaintext starts with the verification marker 0x2F 0x2F. */
  predicate HasMarker(plain: seq<bv8>)
  {
    |plain| >= 2 && plain[0] == Filler && plain[1] == Filler
  }

  /** True when `p` is `s` with some, possibly no, trailing padding removed and no more can go. */
  ghost predicate IsStripped(s: seq<bv8>, p: seq<bv8>)
  {
    && |p| <= |s| && p == s[..|p|]
    && (forall i :: |p| <= i < |s| ==> s[i] == Filler)
    && (p == [] || p[|p| - 1] != Filler)
  }

  /**
   * The longest prefix of `s` that does not end in a padding byte: every
   * byte removed is 0x2F, and what is left is empty or ends in another byte.
   */
  function StripPadding(s: seq<bv8>): (r: seq<bv8>)
    ensures IsStripped(s, r)
    decreases |s|
  {
    if |s| > 0 && s[|s| - 1] == Filler then StripPadding(s[..|s| - 1]) else s
  }

  /** Only one prefix satisfies IsStripped: the result of StripPadding. */
  lemma StripPaddingUnique(s: seq<bv8>, p: seq<bv8>)
    requires IsStripped(s, p)
    ensures p == StripPadding(s)
  {
  }

  /** `k` padding bytes. */
  function Pad(k: nat): (s: seq<bv8>)
    ensures |s| == k && forall i :: 0 <= i < k ==> s[i] == Filler
  {
    seq(k, _ => Filler)
  }

  /** Padding appended to a payload that does not end in 0x2F is stripped again, and only it. */
  lemma StripPaddingRoundTrip(p: seq<bv8>, k: nat)
    requires p == [] || p[|p| - 1] != Filler
    ensures StripPadding(p + Pad(k)) == p
  {
    var s := p + Pad(k);
    assert s[..|p|] == p;
    StripPaddingUnique(s, p);
  }

  /** A payload of nothing but padding strips to the empty payload. */
  lemma StripAllPadding(k: nat)
    ensures StripPadding(Pad(k)) == []
  {
  }
}
