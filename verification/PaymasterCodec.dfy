/**
 * The bytes of `paymasterAndData` under both contracts' layouts (paymasterAndData.ts, paymasterLayout.ts,
 * typedData.ts), and the same bytes rebuilt by the SDK (sdk/src/userOpHash.ts).
 */
module PaymasterCodec {
  import opened Text
  import opened Words

  const PAYMASTER_VALIDATION_GAS_OFFSET := 20
  const PAYMASTER_POSTOP_GAS_OFFSET := 36
  const PAYMASTER_DATA_OFFSET := 52
  const VALID_UNTIL_OFFSET := 52
  const VALID_AFTER_OFFSET := 58
  const TENANT_OFFSET := 64
  const TENANT_SIGNATURE_OFFSET := 96

  datatype Kind = Verifying | Tenant

  function SignatureOffset(kind: Kind): nat {
    match kind
    case Verifying => 64
    case Tenant => 96
  }

  /** `tenant` is `Some` exactly under the multi-tenant layout. */
  datatype Fields = Fields(paymaster: Bytes, verificationGas: int, postOpGas: int, validUntil: int, validAfter: int, tenant: Option<Bytes>)

  function KindOf(f: Fields): Kind {
    if f.tenant.Some? then Tenant else Verifying
  }

  datatype CodecError = InvalidPaymaster | NumberOutOfRange | InvalidTenant | InvalidSignature | TooShort

  function EncodePrefix(f: Fields): Result<Bytes, CodecError> {
    if |f.paymaster| != 20 then Err(InvalidPaymaster)
    else
      match (NumberToBytes(f.verificationGas, 16), NumberToBytes(f.postOpGas, 16), NumberToBytes(f.validUntil, 6), NumberToBytes(f.validAfter, 6))
      case (Some(v), Some(p), Some(until), Some(after)) =>
        var head := f.paymaster + v + p + until + after;
        if f.tenant.None? then Ok(head)
        else if |f.tenant.value| != 32 then Err(InvalidTenant)
        else Ok(head + f.tenant.value)
      case _ => Err(NumberOutOfRange)
  }

  function Encode(f: Fields, signature: Bytes): Result<Bytes, CodecError> {
    if |signature| != 64 && |signature| != 65 then Err(InvalidSignature)
    else match EncodePrefix(f)
      case Err(e) => Err(e)
      case Ok(prefix) => Ok(prefix + signature)
  }

  function Decode(data: Bytes, kind: Kind): Result<(Fields, Bytes), CodecError> {
    if |data| < SignatureOffset(kind) then Err(TooShort)
    else
      Ok((Fields(data[..PAYMASTER_VALIDATION_GAS_OFFSET],
                 BytesToNumber(data[PAYMASTER_VALIDATION_GAS_OFFSET..PAYMASTER_POSTOP_GAS_OFFSET]),
                 BytesToNumber(data[PAYMASTER_POSTOP_GAS_OFFSET..PAYMASTER_DATA_OFFSET]),
                 BytesToNumber(data[VALID_UNTIL_OFFSET..VALID_AFTER_OFFSET]),
                 BytesToNumber(data[VALID_AFTER_OFFSET..TENANT_OFFSET]),
                 if kind == Verifying then None else Some(data[TENANT_OFFSET..TENANT_SIGNATURE_OFFSET])),
          data[SignatureOffset(kind)..]))
  }

  // ---------------------------------------------------------------------------------------------
  // Round trips

  ghost predicate InRange(f: Fields) {
    && |f.paymaster| == 20
    && 0 <= f.verificationGas < UINT128_LIMIT && 0 <= f.postOpGas < UINT128_LIMIT
    && 0 <= f.validUntil < 0x1_0000_0000_0000 && 0 <= f.validAfter < 0x1_0000_0000_0000
    && (f.tenant.Some? ==> |f.tenant.value| == 32)
  }

  lemma Capacities()
    ensures Capacity(16) == UINT128_LIMIT && Capacity(6) == 0x1_0000_0000_0000
  {
    Capacity16();
    assert Capacity(3) == 0x100_0000;
  }

  /**
   * Encoding succeeds exactly when every field is in range and the signature has 64 or 65 bytes; the signature is
   * asked about first, then the paymaster, the numbers, and the tenant.
   */
  lemma EncodesExactly(f: Fields, signature: Bytes)
    ensures Encode(f, signature).Ok? <==> InRange(f) && |signature| in {64, 65}
    ensures Encode(f, signature) == Err(InvalidSignature) <==> |signature| !in {64, 65}
    ensures Encode(f, signature) == Err(InvalidPaymaster) <==> |signature| in {64, 65} && |f.paymaster| != 20
    ensures Encode(f, signature) == Err(InvalidTenant) <==>
              |signature| in {64, 65} && f.tenant.Some? && |f.tenant.value| != 32 && InRange(f.(tenant := None))
    ensures Encode(f, signature) == Err(NumberOutOfRange) <==>
              |signature| in {64, 65} && |f.paymaster| == 20 && !InRange(f.(tenant := None))
  {
    Capacities();
  }

  /** Where each part of an encoding lies. */
  lemma Layout(paymaster: Bytes, v: Bytes, p: Bytes, until: Bytes, after: Bytes, rest: Bytes, data: Bytes)
    requires |paymaster| == 20 && |v| == |p| == 16 && |until| == |after| == 6
    requires data == paymaster + v + p + until + after + rest
    ensures data[..20] == paymaster && data[20..36] == v && data[36..52] == p
    ensures data[52..58] == until && data[58..64] == after && data[64..] == rest
    ensures data[20..52] == v + p && data[52..] == until + after + rest
  {
  }

  lemma EncodedParts(f: Fields, signature: Bytes)
    requires InRange(f) && |signature| in {64, 65}
    ensures var tenant := if f.tenant.Some? then f.tenant.value else [];
            Encode(f, signature) == Ok(f.paymaster + BigEndian(f.verificationGas, 16) + BigEndian(f.postOpGas, 16)
                                       + BigEndian(f.validUntil, 6) + BigEndian(f.validAfter, 6) + (tenant + signature))
  {
    Capacities();
    var head := f.paymaster + BigEndian(f.verificationGas, 16) + BigEndian(f.postOpGas, 16) + BigEndian(f.validUntil, 6) + BigEndian(f.validAfter, 6);
    if f.tenant.Some? {
      assert head + f.tenant.value + signature == head + (f.tenant.value + signature);
    } else {
      assert head + signature == head + ([] + signature);
    }
  }

  /** Decoding inverts encoding, for both layouts and both signature lengths. */
  lemma DecodeInvertsEncode(f: Fields, signature: Bytes)
    requires Encode(f, signature).Ok?
    ensures Decode(Encode(f, signature).value, KindOf(f)) == Ok((f, signature))
  {
    EncodesExactly(f, signature);
    EncodedParts(f, signature);
    Capacities();
    var data, tenant := Encode(f, signature).value, if f.tenant.Some? then f.tenant.value else [];
    Layout(f.paymaster, BigEndian(f.verificationGas, 16), BigEndian(f.postOpGas, 16), BigEndian(f.validUntil, 6), BigEndian(f.validAfter, 6),
           tenant + signature, data);
    NumberRoundTrip(f.verificationGas, 16);
    NumberRoundTrip(f.postOpGas, 16);
    NumberRoundTrip(f.validUntil, 6);
    NumberRoundTrip(f.validAfter, 6);
    if f.tenant.Some? {
      assert data[64..96] == data[64..][..32] == f.tenant.value;
      assert data[96..] == data[64..][32..] == signature;
    }
  }

  /** Encoding inverts decoding: no two buffers decode alike, and none is decoded to fields it does not hold. */
  lemma EncodeInvertsDecode(data: Bytes, kind: Kind)
    requires Decode(data, kind).Ok? && |data| - SignatureOffset(kind) in {64, 65}
    ensures var (f, signature) := Decode(data, kind).value;
            KindOf(f) == kind && Encode(f, signature) == Ok(data)
  {
    var (f, signature) := Decode(data, kind).value;
    Capacities();
    BytesRoundTrip(data[20..36]);
    BytesRoundTrip(data[36..52]);
    BytesRoundTrip(data[52..58]);
    BytesRoundTrip(data[58..64]);
    EncodedParts(f, signature);
    var tenant := if kind == Tenant then data[64..96] else [];
    assert data[64..] == tenant + signature;
    Reassembled(data);
  }

  lemma Reassembled(data: Bytes)
    requires |data| >= 64
    ensures data == data[..20] + data[20..36] + data[36..52] + data[52..58] + data[58..64] + data[64..]
  {
  }

  /**
   * Where the contracts read each field: the paymaster in the first 20 bytes, the two gas limits in 16 bytes each, the
   * two times in 6 bytes each, then the tenant's 32 bytes if there is one, and the signature to the end.
   */
  lemma FieldsStandAt(f: Fields, signature: Bytes)
    requires Encode(f, signature).Ok?
    ensures var data := Encode(f, signature).value;
            && |data| == (if f.tenant.Some? then 96 else 64) + |signature|
            && data[..20] == f.paymaster
            && BytesToNumber(data[20..36]) == f.verificationGas && BytesToNumber(data[36..52]) == f.postOpGas
            && BytesToNumber(data[52..58]) == f.validUntil && BytesToNumber(data[58..64]) == f.validAfter
            && (f.tenant.Some? ==> data[64..96] == f.tenant.value && data[96..] == signature)
            && (f.tenant.None? ==> data[64..] == signature)
  {
    DecodeInvertsEncode(f, signature);
    EncodesExactly(f, signature);
    EncodedParts(f, signature);
  }

  /** The length does not tell the layouts apart: a tenant attestation is also a verifying one with a longer tail. */
  lemma LayoutsOverlap(f: Fields, signature: Bytes)
    requires Encode(f, signature).Ok? && f.tenant.Some?
    ensures Decode(Encode(f, signature).value, Verifying) == Ok((f.(tenant := None), f.tenant.value + signature))
  {
    DecodeInvertsEncode(f, signature);
    EncodesExactly(f, signature);
    EncodedParts(f, signature);
    Layout(f.paymaster, BigEndian(f.verificationGas, 16), BigEndian(f.postOpGas, 16), BigEndian(f.validUntil, 6), BigEndian(f.validAfter, 6),
           f.tenant.value + signature, Encode(f, signature).value);
  }

  // ---------------------------------------------------------------------------------------------
  // What the signature and the SDK read from the same bytes

  function PaymasterGasLimitsFrom(data: Bytes): Result<nat, CodecError> {
    if |data| < PAYMASTER_DATA_OFFSET then Err(TooShort)
    else
      var packed := PackUint128Pair(BytesToNumber(data[PAYMASTER_VALIDATION_GAS_OFFSET..PAYMASTER_POSTOP_GAS_OFFSET]),
                                    BytesToNumber(data[PAYMASTER_POSTOP_GAS_OFFSET..PAYMASTER_DATA_OFFSET]));
      if packed.Some? then Ok(packed.value) else Err(NumberOutOfRange)
  }

  lemma GasLimitsPack(data: Bytes, high: nat, low: nat)
    requires |data| >= PAYMASTER_DATA_OFFSET && high < UINT128_LIMIT && low < UINT128_LIMIT
    requires BytesToNumber(data[20..36]) == high && BytesToNumber(data[36..52]) == low
    ensures PaymasterGasLimitsFrom(data) == Ok(high * UINT128_LIMIT + low)
  {
  }

  /** Two sixteen-byte halves are, together, the number their pair packs to. */
  lemma HalvesAreWord(high: Bytes, low: Bytes)
    requires |high| == |low| == 16
    ensures BytesToNumber(high) < UINT128_LIMIT && BytesToNumber(low) < UINT128_LIMIT
    ensures BytesToNumber(high + low) == BytesToNumber(high) * UINT128_LIMIT + BytesToNumber(low)
  {
    Capacity16();
    BytesRoundTrip(high);
    BytesRoundTrip(low);
    var h, l := BytesToNumber(high), BytesToNumber(low);
    PairRoundTrip(h, l);
    HalvesFit(BytesToNumber(high + low));
    WordFits(high + low);
  }

  /** Bytes [20:52], read as two halves, are always the one 256-bit number the contract reads there. */
  lemma GasLimitsAreOneWord(data: Bytes)
    requires |data| >= PAYMASTER_DATA_OFFSET
    ensures PaymasterGasLimitsFrom(data) == Ok(BytesToNumber(data[20..52]))
  {
    var high, low := data[20..36], data[36..52];
    assert data[20..52] == high + low;
    HalvesAreWord(high, low);
    GasLimitsPack(data, BytesToNumber(high), BytesToNumber(low));
  }

  lemma GasLimitsOf(data: Bytes, verificationGas: nat, postOpGas: nat)
    requires verificationGas < UINT128_LIMIT && postOpGas < UINT128_LIMIT && |data| >= PAYMASTER_DATA_OFFSET
    requires data[20..36] == BigEndian(verificationGas, 16) && data[36..52] == BigEndian(postOpGas, 16)
    ensures PaymasterGasLimitsFrom(data) == Ok(verificationGas * UINT128_LIMIT + postOpGas)
  {
    Capacity16();
    NumberRoundTrip(verificationGas, 16);
    NumberRoundTrip(postOpGas, 16);
    GasLimitsPack(data, verificationGas, postOpGas);
  }

  lemma PrefixSlices(prefix: Bytes, signature: Bytes, data: Bytes)
    requires |prefix| >= PAYMASTER_DATA_OFFSET && data == prefix + signature
    ensures prefix[20..36] == data[20..36] && prefix[36..52] == data[36..52]
  {
  }

  lemma EncodedSlices(f: Fields, signature: Bytes)
    requires Encode(f, signature).Ok?
    ensures InRange(f) && |Encode(f, signature).value| >= 64 && Encode(f, signature).value[..20] == f.paymaster
    ensures Encode(f, signature).value[20..36] == BigEndian(f.verificationGas, 16)
    ensures Encode(f, signature).value[36..52] == BigEndian(f.postOpGas, 16)
  {
    EncodesExactly(f, signature);
    EncodedParts(f, signature);
    var tenant := if f.tenant.Some? then f.tenant.value else [];
    Layout(f.paymaster, BigEndian(f.verificationGas, 16), BigEndian(f.postOpGas, 16), BigEndian(f.validUntil, 6), BigEndian(f.validAfter, 6),
           tenant + signature, Encode(f, signature).value);
  }

  lemma EncodeExtendsPrefix(f: Fields, signature: Bytes)
    requires Encode(f, signature).Ok?
    ensures EncodePrefix(f).Ok? && |EncodePrefix(f).value| >= 64 && Encode(f, signature).value == EncodePrefix(f).value + signature
  {
  }

  /** The digest covers exactly the gas limits that were encoded, with or without the signature tail. */
  lemma GasLimitsReadBack(f: Fields, signature: Bytes)
    requires Encode(f, signature).Ok?
    ensures EncodePrefix(f).Ok?
    ensures PaymasterGasLimitsFrom(Encode(f, signature).value) == Ok(f.verificationGas * UINT128_LIMIT + f.postOpGas)
    ensures PaymasterGasLimitsFrom(EncodePrefix(f).value) == Ok(f.verificationGas * UINT128_LIMIT + f.postOpGas)
  {
    EncodedSlices(f, signature);
    EncodeExtendsPrefix(f, signature);
    GasLimitsOf(Encode(f, signature).value, f.verificationGas, f.postOpGas);
    PrefixSlices(EncodePrefix(f).value, signature, Encode(f, signature).value);
    GasLimitsOf(EncodePrefix(f).value, f.verificationGas, f.postOpGas);
  }

  /** `slice(paymasterAndData, 52)`: what the API returns as `paymasterData`. */
  function PaymasterDataOf(data: Bytes): Option<Bytes> {
    if |data| <= PAYMASTER_DATA_OFFSET then None else Some(data[PAYMASTER_DATA_OFFSET..])
  }

  /** The SDK's own concatenation, from the four values of the API's answer. */
  function SdkEncode(paymaster: Option<Bytes>, verificationGas: Option<int>, postOpGas: Option<int>, paymasterData: Option<Bytes>): Option<Bytes> {
    if paymaster.None? then Some([])
    else
      match (NumberToBytes(if verificationGas.Some? then verificationGas.value else 0, 16),
             NumberToBytes(if postOpGas.Some? then postOpGas.value else 0, 16))
      case (Some(v), Some(p)) => Some(paymaster.value + v + p + if paymasterData.Some? then paymasterData.value else [])
      case _ => None
  }

  lemma SdkConcatenates(paymaster: Bytes, verificationGas: nat, postOpGas: nat, data: Bytes)
    requires |paymaster| == 20 && verificationGas < UINT128_LIMIT && postOpGas < UINT128_LIMIT && |data| > PAYMASTER_DATA_OFFSET
    requires data[..20] == paymaster && data[20..36] == BigEndian(verificationGas, 16) && data[36..52] == BigEndian(postOpGas, 16)
    ensures SdkEncode(Some(paymaster), Some(verificationGas), Some(postOpGas), PaymasterDataOf(data)) == Some(data)
  {
    Capacity16();
    var v, p := BigEndian(verificationGas, 16), BigEndian(postOpGas, 16);
    assert NumberToBytes(verificationGas, 16) == Some(v) && NumberToBytes(postOpGas, 16) == Some(p);
    assert paymaster + v + p + data[52..] == data;
  }

  /** The bytes the SDK rebuilds from an answer are the bytes the engine signed. */
  lemma SdkRebuildsEngineBytes(f: Fields, signature: Bytes)
    requires Encode(f, signature).Ok?
    ensures var data := Encode(f, signature).value;
            && PaymasterDataOf(data).Some?
            && SdkEncode(Some(f.paymaster), Some(f.verificationGas), Some(f.postOpGas), PaymasterDataOf(data)) == Some(data)
  {
    EncodedSlices(f, signature);
    SdkConcatenates(f.paymaster, f.verificationGas, f.postOpGas, Encode(f, signature).value);
  }
}
