/**
 * Header layers of a wireless M-Bus telegram as the decoder reads them:
 * the data link layer (EN 13757-4), an optional extended link layer with
 * CI 0x8C and the short transport-layer header with CI 0x7A (EN 13757-7).
 * Offsets are those of a telegram whose first byte is the L-field.
 */
module Frame {
  import opened Errors

  datatype Option<T> = None | Some(value: T)

  datatype Result<T, E> = Ok(value: T) | Err(error: E)

  const LField: bv8 := 0xA1
  const CField: bv8 := 0x44
  const EllCi: bv8 := 0x8C
  const ShortTplCi: bv8 := 0x7A

  /** First offset after the link-layer address (L, C, M[2], ID[4], V, D). */
  const DllEnd: nat := 10
  /** Number of ELL fields after its CI byte (CC and ACC). */
  const EllLen: nat := 2
  /** Short TPL header: CI, ACC, STS and the two configuration bytes. */
  const TplLen: nat := 5

  datatype DllHeader = DllHeader(manufacturer: seq<bv8>, id: seq<bv8>, version: bv8, deviceType: bv8)
  {
    predicate Valid() { |manufacturer| == 2 && |id| == 4 }
  }

  datatype Ell = Ell(cc: bv8, acc: bv8)

  datatype TplHeader = TplHeader(acc: bv8, status: bv8, cfgL: bv8, cfgH: bv8)
  {
    /** The 16-bit configuration field, high byte in bits 15-8. */
    function Cfg(): (cfg: bv16)
      ensures cfg as int == cfgH as int * 256 + cfgL as int
    {
      ShiftOrIsSum(cfgH, cfgL);
      SumNoWrap(cfgH, cfgL);
      (cfgH as bv16 << 8) | cfgL as bv16
    }
  }

  /** Shifting a byte into the high half and or-ing the low byte is a 16-bit sum. */
  lemma ShiftOrIsSum(hi: bv8, lo: bv8)
    ensures (hi as bv16 << 8) | lo as bv16 == hi as bv16 * 256 + lo as bv16
  {
  }

  /** Widening a byte to a word keeps its value. */
  lemma Widen(b: bv8)
    ensures (b as bv16) as int == b as int
  {
  }

  /** That 16-bit sum does not wrap: its value is hi * 256 + lo. */
  lemma SumNoWrap(hi: bv8, lo: bv8)
    ensures (hi as bv16 * 256 + lo as bv16) as int == hi as int * 256 + lo as int
  {
    Widen(hi);
    Widen(lo);
  }

  datatype Header = Header(dll: DllHeader, ell: Option<Ell>, tpl: TplHeader, payloadStart: nat)

  /**
   * Number of encrypted AES blocks announced by the configuration field:
   * bits 7-4 of its low byte.
   */
  function BlockCount(cfgL: bv8): (n: nat)
    ensures n < 16
    ensures n == cfgL as int / 16
  {
    ((cfgL >> 4) & 0x0F) as nat
  }

  /** Offset of the TPL CI byte: after the ELL when byte 10 is the ELL marker. */
  function TplStart(t: seq<bv8>): (start: nat)
    requires |t| > DllEnd
    ensures start == DllEnd || start == DllEnd + 1 + EllLen
    ensures start > DllEnd <==> t[DllEnd] == EllCi
  {
    if t[DllEnd] == EllCi then DllEnd + 1 + EllLen else DllEnd
  }

  /** The conditions under which the header part of a telegram is accepted. */
  predicate WellFormedHeader(t: seq<bv8>)
    ensures WellFormedHeader(t) ==> |t| >= DllEnd + TplLen
    ensures WellFormedHeader(t) && t[DllEnd] == EllCi ==> |t| >= DllEnd + 1 + EllLen + TplLen
  {
    && |t| > DllEnd
    && t[0] == LField && t[1] == CField
    && |t| >= TplStart(t) + TplLen
    && t[TplStart(t)] == ShortTplCi
  }

  /**
   * Walks the DLL, the optional ELL and the short TPL header. A read past the
   * end of `t` yields Truncated at the offset of that read.
   */
  function ParseHeader(t: seq<bv8>): (r: Result<Header, Error>)
    ensures r.Err? ==> r.error.IsHeaderError()
    ensures r.Err? && r.error.Truncated? ==> r.error.offset == |t|
    ensures r.Ok? ==> |t| > DllEnd && r.value.dll.Valid() && r.value.payloadStart == TplStart(t) + TplLen <= |t|
  {
    if |t| < 2 then Err(Truncated(|t|))
    else if t[0] != LField || t[1] != CField then Err(InvalidDllMarker(t[0], t[1]))
    else if |t| <= DllEnd then Err(Truncated(|t|))
    else if t[DllEnd] == EllCi && |t| < DllEnd + 1 + EllLen then Err(Truncated(|t|))
    else
      var dll := DllHeader(t[2..4], t[4..8], t[8], t[9]);
      var ell := if t[DllEnd] == EllCi then Some(Ell(t[DllEnd + 1], t[DllEnd + 2])) else None;
      var pos := TplStart(t);
      if |t| <= pos then Err(Truncated(|t|))
      else if t[pos] != ShortTplCi then Err(InvalidTplMarker(pos, t[pos]))
      else if |t| < pos + TplLen then Err(Truncated(|t|))
      else Ok(Header(dll, ell, TplHeader(t[pos + 1], t[pos + 2], t[pos + 3], t[pos + 4]), pos + TplLen))
  }

  /** The header is accepted exactly when the telegram is well formed. */
  lemma ParseHeaderAccepts(t: seq<bv8>)
    ensures ParseHeader(t).Ok? <==> WellFormedHeader(t)
  {
  }

  /** Rejections: DLL markers, the TPL marker and truncation are reported as such. */
  lemma ParseHeaderRejects(t: seq<bv8>)
    ensures |t| >= 2 && (t[0] != LField || t[1] != CField) ==>
              ParseHeader(t) == Err(InvalidDllMarker(t[0], t[1]))
    ensures |t| > DllEnd && t[0] == LField && t[1] == CField && |t| > TplStart(t) && t[TplStart(t)] != ShortTplCi ==>
              ParseHeader(t) == Err(InvalidTplMarker(TplStart(t), t[TplStart(t)]))
    ensures ParseHeader(t).Err? && ParseHeader(t).error.Truncated? ==>
              ParseHeader(t).error.offset == |t| && !WellFormedHeader(t)
  {
  }

  /** Fields of an accepted header are the bytes at the fixed offsets. */
  lemma ParseHeaderFields(t: seq<bv8>)
    requires ParseHeader(t).Ok?
    ensures var h := ParseHeader(t).value;
      && h.dll == DllHeader(t[2..4], t[4..8], t[8], t[9])
      && h.dll.Valid()
      && (t[DllEnd] == EllCi ==> h.ell == Some(Ell(t[11], t[12])) && TplStart(t) == 13)
      && (t[DllEnd] != EllCi ==> h.ell == None && TplStart(t) == 10)
      && t[TplStart(t)] == ShortTplCi
      && h.tpl == TplHeader(t[TplStart(t) + 1], t[TplStart(t) + 2], t[TplStart(t) + 3], t[TplStart(t) + 4])
      && h.payloadStart == TplStart(t) + 5 <= |t|
  {
  }
}
