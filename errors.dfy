/**
 * The ways a telegram can be rejected, shared by the header parser and the
 * later stages of the decoder.
 */
module Errors {

  /** Every way the decoder can reject a telegram. */
  datatype Error =
    // header stage
    | Truncated(offset: nat)                  // the byte at `offset` was needed but the telegram ends before it
    | InvalidDllMarker(l: bv8, c: bv8)        // L- or C-field is not the expected constant
    | InvalidTplMarker(offset: nat, ci: bv8)  // CI byte at the TPL start is not the short-TPL marker
    // length check and cipher stage
    | CiphertextOverrun(end: nat, length: nat) // ciphertext would end at `end`, past `length`
    | KeySetupFailure                         // the cipher refused the key
    | CipherFailure(code: int)                // the CBC decryption reported an error
    | IntegrityMarkerMismatch                 // plaintext does not start with 0x2F 0x2F
  {
    /** Errors the header parser can report. */
    predicate IsHeaderError()
    {
      Truncated? || InvalidDllMarker? || InvalidTplMarker?
    }
  }
}
