/**
 * What the decoder guarantees, stated over its specification `Decode`:
 * which checks reject a telegram, where each field comes from, when the
 * cipher is consulted and what it is given, and what the payload is.
 */
module Properties {
  import opened Errors
  import opened Frame
  import opened Security
  import opened Decoder

  /** A telegram whose headers were accepted (NoEncryption or Decrypted). */
  predicate Accepted(o: Outcome)
  {
    o.NoEncryption? || o.Decrypted?
  }

  /**
   * Header failures are the decoder's failures; an accepted telegram carries
   * the parsed header, so its DLL markers were 0xA1 0x44 and its fields are
   * the bytes at the fixed offsets.
   */
  lemma DecodeHeader(t: seq<bv8>, key: seq<bv8>, aes: Aes128)
    ensures ParseHeader(t).Err? ==> Decode(t, key, aes) == Failed(ParseHeader(t).error)
    ensures |t| >= 2 && (t[0] != LField || t[1] != CField) ==>
              Decode(t, key, aes) == Failed(InvalidDllMarker(t[0], t[1]))
    ensures Accepted(Decode(t, key, aes)) ==>
              && ParseHeader(t) == Ok(Decode(t, key, aes).header)
              && t[0] == LField && t[1] == CField
              && Decode(t, key, aes).header.dll == DllHeader(t[2..4], t[4..8], t[8], t[9])
  {
  }

  /**
   * With a block count of zero the decoder stops with NoEncryption, whatever
   * the key and the cipher: neither is consulted.
   */
  lemma NoEncryptionIgnoresCipher(t: seq<bv8>, key1: seq<bv8>, aes1: Aes128, key2: seq<bv8>, aes2: Aes128)
    requires ParseHeader(t).Ok? && BlockCount(ParseHeader(t).value.tpl.cfgL) == 0
    ensures Decode(t, key1, aes1) == NoEncryption(ParseHeader(t).value)
    ensures Decode(t, key1, aes1) == Decode(t, key2, aes2)
  {
  }

  /**
   * The length check: with a non-zero block count, the telegram is rejected
   * exactly when the ciphertext would run past its end, and this too happens
   * before the key or the cipher is consulted.
   */
  lemma OverrunRejected(t: seq<bv8>, key1: seq<bv8>, aes1: Aes128, key2: seq<bv8>, aes2: Aes128)
    requires ParseHeader(t).Ok? && BlockCount(ParseHeader(t).value.tpl.cfgL) > 0
    ensures var h := ParseHeader(t).value;
      var end := h.payloadStart + CiphertextLength(h.tpl);
      && (Decode(t, key1, aes1) == Failed(CiphertextOverrun(end, |t|)) <==> end > |t|)
      && (end > |t| ==> Decode(t, key1, aes1) == Decode(t, key2, aes2))
  {
  }

  /**
   * When the cipher is reached it is given exactly the bytes
   * t[payloadStart .. payloadStart + 16 N], a whole number of blocks inside
   * the telegram, and the IV derived from the link layer and the TPL access
   * number; its outcome alone decides the rest.
   */
  lemma CipherInput(t: seq<bv8>, key: seq<bv8>, aes: Aes128)
    requires ParseHeader(t).Ok?
    requires var h := ParseHeader(t).value;
      CiphertextLength(h.tpl) > 0 && h.payloadStart + CiphertextLength(h.tpl) <= |t|
    ensures var h := ParseHeader(t).value;
      var pos, encLen := h.payloadStart, CiphertextLength(h.tpl);
      h.dll.Valid() &&
      var iv := DeriveIv(h.dll, h.tpl.acc);
      var data := t[pos..pos + encLen];
      && |data| == encLen && |data| % AesBlock == 0
      && (!aes.setKeyDec(key) ==> Decode(t, key, aes) == Failed(KeySetupFailure))
      && (aes.setKeyDec(key) ==>
            Decode(t, key, aes) == Validate(h, iv, aes.cryptCbcDecrypt(key, iv, data), t[pos + encLen..]))
  {
  }

  /**
   * A decrypted telegram: its IV is the derived one, its payload is the
   * plaintext after the marker with all trailing 0x2F removed (at most
   * 16 N - 2 bytes), and the bytes after the ciphertext are passed through.
   */
  lemma DecryptedTelegram(t: seq<bv8>, key: seq<bv8>, aes: Aes128)
    requires Conforms(aes)
    requires Decode(t, key, aes).Decrypted?
    ensures var o := Decode(t, key, aes);
      var h := o.header;
      var pos, encLen := h.payloadStart, CiphertextLength(h.tpl);
      && ParseHeader(t) == Ok(h)
      && 0 < encLen && pos + encLen <= |t|
      && h.dll.Valid() && o.iv == DeriveIv(h.dll, h.tpl.acc)
      && aes.setKeyDec(key)
      && o.unencrypted == t[pos + encLen..]
      && (var cbc := aes.cryptCbcDecrypt(key, o.iv, t[pos..pos + encLen]);
          && cbc.CbcOk? && |cbc.plain| == encLen && HasMarker(cbc.plain)
          && IsStripped(cbc.plain[2..], o.payload)
          && |o.payload| <= encLen - 2)
  {
  }

  /**
   * Re-padding round trip: when the cipher yields the marker, a payload `p`
   * that does not end in 0x2F and any amount of padding, the decoder
   * returns `p` itself.
   */
  lemma PaddedPayloadRecovered(t: seq<bv8>, key: seq<bv8>, aes: Aes128, p: seq<bv8>, k: nat)
    requires ParseHeader(t).Ok?
    requires var h := ParseHeader(t).value;
      && CiphertextLength(h.tpl) > 0 && h.payloadStart + CiphertextLength(h.tpl) <= |t|
      && aes.setKeyDec(key)
      && aes.cryptCbcDecrypt(key, DeriveIv(h.dll, h.tpl.acc),
                             t[h.payloadStart..h.payloadStart + CiphertextLength(h.tpl)]).CbcOk?
      && aes.cryptCbcDecrypt(key, DeriveIv(h.dll, h.tpl.acc),
                             t[h.payloadStart..h.payloadStart + CiphertextLength(h.tpl)]).plain
         == [Filler, Filler] + p + Pad(k)
    requires p == [] || p[|p| - 1] != Filler
    ensures Decode(t, key, aes).Decrypted? && Decode(t, key, aes).payload == p
  {
    var h := ParseHeader(t).value;
    CipherInput(t, key, aes);
    var plain := [Filler, Filler] + p + Pad(k);
    assert plain[2..] == p + Pad(k);
    StripPaddingRoundTrip(p, k);
  }
}
