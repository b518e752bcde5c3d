/**
 * The telegram and key that main.cpp decodes, and what the model says about
 * them without running AES: where its fields are, how many blocks it
 * announces, and that its ciphertext exactly fills the telegram.
 */
module Fixture {
  import opened Errors
  import opened Frame
  import opened Security
  import opened Decoder
  import opened Properties

  /** The telegram: its 18 header bytes, then the 144 bytes of ciphertext. */
  const Telegram: seq<bv8> := HeaderBytes + CiphertextBytes

  const HeaderBytes: seq<bv8> := [
    0xA1, 0x44, 0xC5, 0x14, 0x27, 0x85, 0x89, 0x50, 0x70, 0x07, 0x8C, 0x20, 0x60, 0x7A,
    0x9D, 0x00, 0x90, 0x25
  ]

  const CiphertextBytes: seq<bv8> := [
                                    0x37, 0xCA, 0x23, 0x1F, 0xA2, 0xDA, 0x58, 0x89, 0xBE, 0x8D,
    0xF3, 0x67, 0x3E, 0xC1, 0x36, 0xAE, 0xBF, 0xB8, 0x0D, 0x4C, 0xE3, 0x95, 0xBA, 0x98,
    0xF6, 0xB3, 0x84, 0x4A, 0x11, 0x5E, 0x4B, 0xE1, 0xB1, 0xC9, 0xF0, 0xA2, 0xD5, 0xFF,
    0xBB, 0x92, 0x90, 0x6A, 0xA3, 0x88, 0xDE, 0xAA, 0x82, 0xC9, 0x29, 0x31, 0x0E, 0x9E,
    0x5C, 0x4C, 0x09, 0x22, 0xA7, 0x84, 0xDF, 0x89, 0xCF, 0x0D, 0xED, 0x83, 0x3B, 0xE8,
    0xDA, 0x99, 0x6E, 0xB5, 0x88, 0x54, 0x09, 0xB6, 0xC9, 0x86, 0x79, 0x78, 0xDE, 0xA2,
    0x40, 0x01, 0xD6, 0x8C, 0x60, 0x34, 0x08, 0xD7, 0x58, 0xA1, 0xE2, 0xB9, 0x1C, 0x42,
    0xEB, 0xAD, 0x86, 0xA9, 0xB9, 0xD2, 0x87, 0x88, 0x00, 0x83, 0xBB, 0x07, 0x02, 0x85,
    0x05, 0x74, 0xD7, 0xB5, 0x1E, 0x9C, 0x20, 0x9E, 0xD6, 0x8E, 0x03, 0x74, 0xE9, 0xB0,
    0x1F, 0xEB, 0xFD, 0x92, 0xB4, 0xCB, 0x94, 0x10, 0xFD, 0xEA, 0xF7, 0xFB, 0x52, 0x6B,
    0x74, 0x2D, 0xC9, 0xA8, 0xD0, 0x68, 0x26, 0x53
  ]

  const Key: seq<bv8> := [
    0x42, 0x55, 0x79, 0x4D, 0x3D, 0xCC, 0xFD, 0x46, 0x95, 0x31, 0x46, 0xE7, 0x01, 0xB7, 0xDB, 0x68
  ]

  /** The expected header: an ELL is present at offset 10, so the TPL starts at 13. */
  const ExpectedHeader: Header := Header(
    DllHeader([0xC5, 0x14], [0x27, 0x85, 0x89, 0x50], 0x70, 0x07),
    Some(Ell(0x20, 0x60)),
    TplHeader(0x9D, 0x00, 0x90, 0x25),
    18)

  /** Header fields, configuration word 0x2590, nine blocks that end exactly at byte 162. */
  lemma FixtureHeader()
    ensures |Telegram| == 162 && |Key| == 16
    ensures ParseHeader(Telegram) == Ok(ExpectedHeader)
    ensures TplStart(Telegram) == 13
    ensures ExpectedHeader.tpl.Cfg() == 0x2590
    ensures BlockCount(0x90) == 9 && CiphertextLength(ExpectedHeader.tpl) == 144
    ensures ExpectedHeader.payloadStart + CiphertextLength(ExpectedHeader.tpl) == |Telegram|
  {
    assert Telegram[..|HeaderBytes|] == HeaderBytes;
    assert Telegram[2..4] == HeaderBytes[2..4];
    assert Telegram[4..8] == HeaderBytes[4..8];
    assert Telegram[0] == 0xA1 && Telegram[1] == 0x44 && Telegram[8] == 0x70 && Telegram[9] == 0x07;
    assert Telegram[10] == EllCi && Telegram[11] == 0x20 && Telegram[12] == 0x60;
    assert Telegram[13] == ShortTplCi && Telegram[14] == 0x9D && Telegram[15] == 0x00;
    assert Telegram[16] == 0x90 && Telegram[17] == 0x25;
    assert HeaderBytes[2..4] == [0xC5, 0x14];
    assert HeaderBytes[4..8] == [0x27, 0x85, 0x89, 0x50];
    assert ParseHeader(Telegram).Ok?;
  }

  /**
   * Whatever the cipher does, the fixture passes every check before it; when
   * it decrypts, the IV is C5 14 27 85 89 50 70 07 followed by eight 9D and
   * no unencrypted bytes follow the ciphertext.
   */
  lemma FixtureDecode(aes: Aes128)
    requires Conforms(aes)
    ensures var o := Decode(Telegram, Key, aes);
      && (o.Failed? ==> o.error in {KeySetupFailure, IntegrityMarkerMismatch} || o.error.CipherFailure?)
      && (o.Decrypted? ==>
            && o.header == ExpectedHeader
            && o.iv == [0xC5, 0x14, 0x27, 0x85, 0x89, 0x50, 0x70, 0x07,
                        0x9D, 0x9D, 0x9D, 0x9D, 0x9D, 0x9D, 0x9D, 0x9D]
            && o.unencrypted == []
            && |o.payload| <= 142)
  {
    FixtureHeader();
    if Decode(Telegram, Key, aes).Decrypted? {
      DecryptedTelegram(Telegram, Key, aes);
    }
  }

  /** A configuration low byte of 0x20 announces two blocks, 32 bytes of ciphertext. */
  lemma TwoBlockConfig(tpl: TplHeader)
    requires tpl.cfgL == 0x20
    ensures BlockCount(tpl.cfgL) == 2 && CiphertextLength(tpl) == 32
  {
  }
}
