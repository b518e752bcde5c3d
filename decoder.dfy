/**
 * The whole decoding pipeline of one telegram: header parse, block count,
 * length check, IV derivation, CBC decryption through the collaborator,
 * verification marker and padding. `Decode` is its specification;
 * `DecodeTelegram` is the step-by-step procedure with a moving cursor.
 */
module Decoder {
  import opened Errors
  import opened Frame
  import opened Security

  datatype Outcome =
    | Failed(error: Error)
    | NoEncryption(header: Header)
    | Decrypted(header: Header, iv: seq<bv8>, payload: seq<bv8>, unencrypted: seq<bv8>)

  /** Bytes of ciphertext announced by the TPL configuration field. */
  function CiphertextLength(tpl: TplHeader): (len: nat)
    ensures len % AesBlock == 0 && len <= 15 * AesBlock
    ensures len == 0 <==> BlockCount(tpl.cfgL) == 0
  {
    AesBlock * BlockCount(tpl.cfgL)
  }

  /**
   * The last stage: the cipher's outcome on the ciphertext is checked for the
   * verification marker, which is stripped together with the trailing padding.
   */
  function Validate(h: Header, iv: seq<bv8>, cbc: CbcResult, unencrypted: seq<bv8>): (r: Outcome)
    ensures !r.NoEncryption?
    ensures cbc.CbcError? ==> r == Failed(CipherFailure(cbc.code))
    ensures cbc.CbcOk? && !HasMarker(cbc.plain) ==> r == Failed(IntegrityMarkerMismatch)
    ensures r.Decrypted? <==> cbc.CbcOk? && HasMarker(cbc.plain)
    ensures r.Decrypted? ==>
      && r.header == h && r.iv == iv && r.unencrypted == unencrypted
      && IsStripped(cbc.plain[2..], r.payload)
  {
    match cbc
    case CbcError(code) => Failed(CipherFailure(code))
    case CbcOk(plain, _) =>
      if !HasMarker(plain) then Failed(IntegrityMarkerMismatch)
      else Decrypted(h, iv, StripPadding(plain[2..]), unencrypted)
  }

  /** The decoder's result for telegram `t`, key `key` and cipher `aes`. */
  function Decode(t: seq<bv8>, key: seq<bv8>, aes: Aes128): (r: Outcome)
    ensures r.Failed? && ParseHeader(t).Err? ==> r.error == ParseHeader(t).error
    ensures r.Failed? && ParseHeader(t).Ok? ==> !r.error.IsHeaderError()
    ensures !r.Failed? ==> ParseHeader(t) == Ok(r.header)
    ensures r.NoEncryption? <==> ParseHeader(t).Ok? && CiphertextLength(ParseHeader(t).value.tpl) == 0
    ensures r.Decrypted? ==>
      var end := r.header.payloadStart + CiphertextLength(r.header.tpl);
      end <= |t| && r.unencrypted == t[end..]
  {
    match ParseHeader(t)
    case Err(e) => Failed(e)
    case Ok(h) =>
      var pos, encLen := h.payloadStart, CiphertextLength(h.tpl);
      if encLen == 0 then NoEncryption(h)
      else if pos + encLen > |t| then Failed(CiphertextOverrun(pos + encLen, |t|))
      else if !aes.setKeyDec(key) then Failed(KeySetupFailure)
      else
        var iv := DeriveIv(h.dll, h.tpl.acc);
        Validate(h, iv, aes.cryptCbcDecrypt(key, iv, t[pos..pos + encLen]), t[pos + encLen..])
  }

  /**
   * Header walk of the decoding procedure: a cursor starts after the link
   * layer, skips the ELL when its marker is present and steps over the five
   * bytes of the short TPL header.
   */
  method ReadHeader(telegram: seq<bv8>) returns (r: Result<Header, Error>)
    ensures r == ParseHeader(telegram)
    ensures r.Ok? ==> r.value.dll.Valid()
  {
    // data link layer
    if |telegram| < 2 {
      return Err(Truncated(|telegram|));
    }
    if telegram[0] != LField || telegram[1] != CField {
      return Err(InvalidDllMarker(telegram[0], telegram[1]));
    }
    if |telegram| <= DllEnd {
      return Err(Truncated(|telegram|));
    }
    var dll := DllHeader(telegram[2..4], telegram[4..8], telegram[8], telegram[9]);

    // optional extended link layer
    var pos := DllEnd;
    var ell: Option<Ell> := None;
    var ellLen := 0;
    if telegram[pos] == EllCi {
      if |telegram| < pos + 1 + EllLen {
        return Err(Truncated(|telegram|));
      }
      ellLen := EllLen;
      ell := Some(Ell(telegram[pos + 1], telegram[pos + 2]));
      pos := pos + 1 + ellLen;
    }
    assert pos == TplStart(telegram);

    // short transport layer header
    if |telegram| <= pos {
      return Err(Truncated(|telegram|));
    }
    if telegram[pos] != ShortTplCi {
      return Err(InvalidTplMarker(pos, telegram[pos]));
    }
    if |telegram| < pos + TplLen {
      return Err(Truncated(|telegram|));
    }
    pos := pos + 1;
    var acc := telegram[pos];
    pos := pos + 1;
    var sts := telegram[pos];
    pos := pos + 1;
    var cfgL := telegram[pos];
    pos := pos + 1;
    var cfgH := telegram[pos];
    pos := pos + 1;
    r := Ok(Header(dll, ell, TplHeader(acc, sts, cfgL, cfgH), pos));
  }

  /**
   * Padding removal of the decoding procedure: the payload length is counted
   * down while the last byte is 0x2F.
   */
  method TrimPadding(payload: seq<bv8>) returns (payloadLen: nat)
    ensures payloadLen <= |payload|
    ensures payload[..payloadLen] == StripPadding(payload)
  {
    payloadLen := |payload|;
    while payloadLen > 0 && payload[payloadLen - 1] == Filler
      invariant 0 <= payloadLen <= |payload|
      invariant StripPadding(payload[..payloadLen]) == StripPadding(payload)
    {
      assert payload[..payloadLen][..payloadLen - 1] == payload[..payloadLen - 1];
      payloadLen := payloadLen - 1;
    }
  }

  /**
   * One CBC decryption: the IV buffer is copied and the copy is handed to the
   * cipher, which leaves its chaining value in it. The caller's IV buffer
   * is not in any frame here, so it is the same after the call.
   */
  method CryptCbcOnCopy(aes: Aes128, key: seq<bv8>, iv: array<bv8>, data: seq<bv8>) returns (cbc: CbcResult)
    requires Conforms(aes)
    requires iv.Length == IvLen && |data| % AesBlock == 0
    ensures cbc == aes.cryptCbcDecrypt(key, iv[..], data)
    ensures cbc.CbcOk? ==> |cbc.plain| == |data|
  {
    var ivCopy := new bv8[IvLen];
    forall i | 0 <= i < IvLen {
      ivCopy[i] := iv[i];
    }
    var ivArg := ivCopy[..];
    assert ivArg == iv[..];
    cbc := aes.cryptCbcDecrypt(key, ivArg, data);
    ConformsAt(aes, key, ivArg, data);
    if cbc.CbcOk? {
      forall i | 0 <= i < IvLen {
        ivCopy[i] := cbc.ivOut[i];
      }
    }
    assert iv[..] == ivArg;
  }

  /** The IV buffer of the decoding procedure, filled from the derived IV. */
  method BuildIv(dll: DllHeader, acc: bv8) returns (iv: array<bv8>)
    requires dll.Valid()
    ensures fresh(iv) && iv[..] == DeriveIv(dll, acc)
  {
    var ivBytes := DeriveIv(dll, acc);
    iv := new bv8[IvLen];
    forall i | 0 <= i < IvLen {
      iv[i] := ivBytes[i];
    }
  }

  /**
   * The last stage of the decoding procedure: the cipher error is passed on,
   * the first two plaintext bytes are checked, and the padding is counted off.
   */
  method CheckPlaintext(h: Header, iv: seq<bv8>, cbc: CbcResult, unencrypted: seq<bv8>) returns (r: Outcome)
    requires cbc.CbcOk? ==> |cbc.plain| >= AesBlock
    ensures r == Validate(h, iv, cbc, unencrypted)
  {
    if cbc.CbcError? {
      return Failed(CipherFailure(cbc.code));
    }
    var decData := cbc.plain;

    // verification marker
    if decData[0] != Filler || decData[1] != Filler {
      return Failed(IntegrityMarkerMismatch);
    }

    // trailing padding
    var payload := decData[2..];
    var payloadLen := TrimPadding(payload);
    r := Decrypted(h, iv, payload[..payloadLen], unencrypted);
  }

  /**
   * The decoding procedure: the header walk, the length check, the IV in its
   * own buffer, the ciphertext copied out, the cipher run on a copy of the
   * IV, then the marker check and the padding count.
   */
  method DecodeTelegram(telegram: seq<bv8>, key: seq<bv8>, aes: Aes128) returns (r: Outcome)
    requires Conforms(aes)
    ensures r == Decode(telegram, key, aes)
  {
    var parsed := ReadHeader(telegram);
    if parsed.Err? {
      return Failed(parsed.error);
    }
    var header := parsed.value;
    var pos := header.payloadStart;

    // block count and ciphertext length
    var n := BlockCount(header.tpl.cfgL);
    var encLen := n * AesBlock;
    assert encLen == CiphertextLength(header.tpl);
    if encLen == 0 {
      return NoEncryption(header);
    }
    if pos + encLen > |telegram| {
      return Failed(CiphertextOverrun(pos + encLen, |telegram|));
    }

    // initialization vector
    var iv := BuildIv(header.dll, header.tpl.acc);

    var encData := telegram[pos..pos + encLen];

    // decryption
    if !aes.setKeyDec(key) {
      return Failed(KeySetupFailure);
    }
    var cbc := CryptCbcOnCopy(aes, key, iv, encData);

    var unencStart := pos + encLen;
    r := CheckPlaintext(header, iv[..], cbc, telegram[unencStart..]);
  }
}
