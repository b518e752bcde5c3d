# Wireless M-Bus telegram decoder (security mode 5), modelled in Dafny

This project models the decoder in `setup()` of `main.cpp`. The decoder receives one wireless M-Bus / OMS telegram and a 16-byte key. It does the following, in order:

- checks the data-link-layer (DLL) L- and C-fields (0xA1, 0x44);
- reads the manufacturer, identification number, version and device type;
- skips an extended link layer (ELL, CI 0x8C) when one is present;
- parses the short transport-layer (TPL) header (CI 0x7A, access number, status, configuration field);
- takes the number of AES blocks N from bits 7-4 of the configuration low byte, and rejects a ciphertext that would run past the telegram;
- builds the mode-5 IV: manufacturer, ID, version, device type, then the access number eight times;
- decrypts with AES-128-CBC on a copy of the IV;
- checks the 0x2F 0x2F verification marker, then strips the marker and all trailing 0x2F padding;
- passes through the bytes after the ciphertext.

Layout:

- `errors.dfy` (module `Errors`): the error outcomes. Header errors and the later length and cipher-stage errors are kept apart by `IsHeaderError`.
- `frame.dfy` (module `Frame`): the header datatypes, constants, `ParseHeader`, the configuration word and the block count.
- `security.dfy` (module `Security`): the IV, the AES-128 collaborator interface (`Aes128`, `Conforms`) and padding removal.
- `decoder.dfy` (module `Decoder`): `Decode` is the pure specification of the whole pipeline. `DecodeTelegram`, `ReadHeader`, `BuildIv`, `CryptCbcOnCopy`, `CheckPlaintext` and `TrimPadding` are the step-by-step procedure. It keeps the source's moving cursor `pos`, the IV buffer, its copy handed to the cipher, and the padding loop. Each is proved equal to its specification.
- `properties.dfy` (module `Properties`): what the decoder guarantees, as lemmas about `Decode`.
- `fixture.dfy` (module `Fixture`): the hard-coded telegram and key of `main.cpp`, and what follows for them without running AES.

The AES primitive is a parameter, `Aes128`, holding two function values: key set-up and CBC decryption. CBC decryption returns the plaintext and the IV as the primitive leaves it. mbedtls overwrites its IV argument in place, and `CryptCbcOnCopy` writes that value into the copy. So the proof that the derived IV is unchanged is a real frame argument. `Conforms` is all the decoder assumes of the primitive: on whole blocks and a 16-byte IV, a successful decryption returns as many plaintext bytes as it was given ciphertext bytes, and an IV of 16 bytes.

How the model renders the code where it is silent or its behaviour is not defined:

- The checks before the cipher run in the code's order: DLL markers, TPL marker, then the block count (N = 0 stops with `NoEncryption`, which is not an error), then the overrun check.
- The code reads offsets 0 up to the end of the TPL header without a length check, because its telegram is a fixed 162-byte array. The model puts a guard before every read. A read past the end gives `Truncated(offset)`, and `offset` is always the telegram's length, because reads happen at increasing offsets. A telegram shorter than 10 bytes is not rejected up front: its L- and C-fields are still checked first.
- For N = 0 the code prints a status line and returns without decrypting or printing a payload. The model returns `NoEncryption(header)`, which carries no payload.
- A key set-up failure (`KeySetupFailure`) and a CBC failure (`CipherFailure(code)`) are two distinct outcomes, as in the code's two error branches.
- `sizeof(telegram)` in the overrun check becomes the telegram's length.

## Model

| member | source | states |
|---|---|---|
| `Frame.TplHeader.Cfg` | main.cpp:67-69 | the 16-bit configuration word, cfg_h shifted left by 8 and or-ed with cfg_l, equals cfg_h·256 + cfg_l |
| `Frame.BlockCount` | main.cpp:77 | N = `(cfg_l >> 4) & 0x0F` is below 16 and equals cfg_l div 16, i.e. bits 7-4 of the low byte |
| `Frame.TplStart` | main.cpp:42-50 | the TPL CI byte is at offset 13 exactly when byte 10 is the ELL marker 0x8C (`pos += 1 + ell_len`), otherwise at offset 10 |
| `Frame.WellFormedHeader` | main.cpp:25-69 | the acceptance condition of the header walk; a well-formed telegram has at least the 15 bytes of DLL and TPL, and at least 18 when an ELL is present |
| `Frame.ParseHeader` | main.cpp:25-69 | the header walk reports only header errors (Truncated, InvalidDllMarker, InvalidTplMarker); Truncated is always at the telegram's end; an accepted header has a 2-byte manufacturer and a 4-byte ID, and its payload starts 5 bytes after the TPL start, inside the telegram |
| `Frame.ParseHeaderAccepts` | main.cpp:25-69 | the header is accepted exactly when L = 0xA1, C = 0x44, the CI at the TPL start (13 after an ELL, else 10) is 0x7A and the telegram holds the five TPL bytes |
| `Frame.ParseHeaderRejects` | main.cpp:26-63 | wrong L/C gives InvalidDllMarker with both bytes; a CI other than 0x7A at the TPL start gives InvalidTplMarker with offset and byte; Truncated is reported at the telegram's end and only for telegrams that are not well formed |
| `Frame.ParseHeaderFields` | main.cpp:30-68 | M = bytes 2-3, ID = bytes 4-7, V = byte 8, D = byte 9; with 0x8C at offset 10 the ELL fields are bytes 11 and 12 and the TPL starts at 13, otherwise no ELL and the TPL starts at 10; ACC, STS, cfg_l, cfg_h are the four bytes after the CI; the payload starts 5 bytes after the TPL start |
| `Decoder.ReadHeader` | main.cpp:25-69 | cursor-based header walk (`pos = 10`, `pos += 1 + ell_len`, `pos++`) returns exactly `ParseHeader`, with a 2-byte manufacturer and 4-byte ID |
| `Decoder.CiphertextLength` | main.cpp:78-79 | enc_len = 16·N is a whole number of blocks, at most 240, and zero exactly when N = 0 |
| `Security.DeriveIv` | main.cpp:90 | the IV has 16 bytes: iv[0..2] = M, iv[2..6] = ID, iv[6] = V, iv[7] = D, iv[8..16] all equal to the TPL access number |
| `Decoder.BuildIv` | main.cpp:90 | the IV buffer is a new 16-byte array whose contents are the derived IV |
| `Security.IvRoundTrip` | main.cpp:90 | manufacturer, ID, version, device type and access number can be read back from the IV |
| `Security.IvInjective` | main.cpp:90 | two telegrams with different metadata never get the same IV |
| `Decoder.CryptCbcOnCopy` | main.cpp:104-117 | the primitive runs on a copy of the IV buffer, so its result is the decryption under the IV buffer's value; the buffer itself is outside every frame and unchanged |
| `Security.StripPadding` | main.cpp:126-130 | the result is a prefix of the input, every byte removed is 0x2F, and the result is empty or does not end in 0x2F |
| `Security.StripPaddingUnique` | main.cpp:128-130 | any prefix with those three properties is the result of StripPadding: it is the longest prefix not ending in 0x2F |
| `Security.StripPaddingRoundTrip` | main.cpp:126-130 | appending any number of 0x2F bytes to a payload that does not end in 0x2F and stripping gives the payload back |
| `Security.StripAllPadding` | main.cpp:128-130 | a payload of nothing but padding strips to length 0 |
| `Decoder.TrimPadding` | main.cpp:126-130 | the `while (payload_len > 0 && payload[payload_len - 1] == 0x2F) payload_len--` loop ends with `payload[..payload_len] == StripPadding(payload)` |
| `Decoder.Validate` | main.cpp:112-130 | a CBC error gives CipherFailure with its code; a plaintext not starting with 0x2F 0x2F gives IntegrityMarkerMismatch; success happens exactly when the cipher succeeded and the marker is present, and then keeps header, IV and trailing bytes and yields the plaintext after the marker with its padding stripped; it never yields NoEncryption |
| `Decoder.CheckPlaintext` | main.cpp:112-130 | the procedure's cipher-error branch, check of the first two plaintext bytes and padding count return exactly `Validate` |
| `Decoder.Decode` | main.cpp:25-142 | a header failure is passed on unchanged, and a failure after an accepted header is never a header error; every non-failure carries exactly the parsed header; NoEncryption happens exactly when the header is accepted and N = 0; a decrypted telegram's ciphertext ends inside it and its unencrypted bytes are everything after the ciphertext |
| `Decoder.DecodeTelegram` | main.cpp:25-142 | the whole step-by-step procedure returns exactly `Decode` of its inputs |
| `Properties.DecodeHeader` | main.cpp:26-33 | header failures are decoder failures; L/C other than 0xA1/0x44 fails with InvalidDllMarker; an accepted telegram carries the parsed header with M, ID, V, D from bytes 2-9 |
| `Properties.NoEncryptionIgnoresCipher` | main.cpp:77-82 | with N = 0 the result is NoEncryption with the parsed header, and it is the same for every key and cipher: no IV is derived and no decryption is consulted |
| `Properties.OverrunRejected` | main.cpp:83-86 | with N > 0 the decoder fails with CiphertextOverrun exactly when pos + 16·N exceeds the telegram length (so also when one byte is missing), independently of key and cipher |
| `Properties.CipherInput` | main.cpp:90-117 | the cipher is given exactly `t[pos .. pos+16·N]`, inside the telegram and a whole number of blocks, with the derived IV; a key set-up failure stops before it |
| `Properties.DecryptedTelegram` | main.cpp:99-142 | a decrypted telegram's IV is the derived IV; its payload is the stripped plaintext after the marker, of length at most 16·N − 2; its unencrypted bytes are `t[pos+16·N ..]` |
| `Properties.PaddedPayloadRecovered` | main.cpp:119-130 | if the cipher yields 0x2F 0x2F + P + any padding, and P does not end in 0x2F, the decoder returns payload P |
| `Fixture.FixtureHeader` | main.cpp:4-17 | the hard-coded telegram has 162 bytes; ELL present so the TPL starts at 13; ACC 0x9D, cfg 0x2590, cfg_l 0x90 gives N = 9, and the 144 ciphertext bytes end exactly at byte 162 |
| `Fixture.FixtureDecode` | main.cpp:4-19 | for the hard-coded telegram and key every failure comes from the cipher stage; on success the IV is C5 14 27 85 89 50 70 07 then 9D eight times, and there are no unencrypted trailing bytes |
| `Fixture.TwoBlockConfig` | main.cpp:77-78 | a configuration low byte of 0x20 gives N = 2 and 32 bytes of ciphertext |

## Left out

- The AES-128 primitive (`mbedtls_aes_setkey_dec`, `mbedtls_aes_crypt_cbc`) is a foreign library. It is a parameter here, constrained only by the length contract `Conforms`.
- The mbedtls context lifecycle (`mbedtls_aes_init`, `mbedtls_aes_free`) is left out: it is resource handling inside the foreign library. The code does not free the context when key set-up fails; the model does not capture this.
- All `Serial` output is I/O and is not modelled: hex dumps, the 16-byte line wrapping, and printing the ELL fields, the IV and the configuration word. On the `NoEncryption` and `Decrypted` outcomes the model returns those values. A failure carries only its error, although by then the code has printed the headers it had read, and, for the key set-up, CBC and marker failures, the IV as well.
- `Serial.begin`, `delay` and the empty `loop()` are Arduino runtime plumbing.
- The concrete plaintext of the hard-coded telegram depends on real AES. Only its header, block count, IV and the absence of trailing bytes are stated.
- Running the decoder twice on the same input gives the same result. This needs no lemma, because `Decode` is a function and `DecodeTelegram` is proved equal to it.
- Decrypting the re-encryption of a payload is stated only from the decoder's side (`Properties.PaddedPayloadRecovered`), for any cipher output of that shape, because encryption is outside the model.
- The key is a byte sequence handed to the key set-up function. The code's 128-bit key length is the primitive's concern.
