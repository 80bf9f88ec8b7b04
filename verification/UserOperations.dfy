/** Packing a request into the struct the EntryPoint hashes, and the most it can cost (sponsorRequest.ts, userOperation.ts, gas.ts). */
module UserOperations {
  import opened Text
  import opened Words

  /** The request's schema has already bounded the four 128-bit fields, and paired `factory` with its data. */
  datatype UnpackedUserOperation = UnpackedUserOperation(
    factory: Option<(Bytes, Bytes)>, callGasLimit: int, verificationGasLimit: int, preVerificationGas: nat,
    maxFeePerGas: int, maxPriorityFeePerGas: int)

  datatype PackedUserOperation = PackedUserOperation(
    initCode: Bytes, accountGasLimits: Bytes, preVerificationGas: nat, gasFees: Bytes)

  function PackedWord(high: int, low: int): Option<Bytes> {
    match PackUint128Pair(high, low)
    case Some(packed) => NumberToBytes(packed, 32)
    case None => None
  }

  function ToPacked(op: UnpackedUserOperation): Option<PackedUserOperation> {
    var initCode := if op.factory.None? then [] else op.factory.value.0 + op.factory.value.1;
    match (PackedWord(op.verificationGasLimit, op.callGasLimit), PackedWord(op.maxPriorityFeePerGas, op.maxFeePerGas))
    case (Some(limits), Some(fees)) => Some(PackedUserOperation(initCode, limits, op.preVerificationGas, fees))
    case _ => None
  }

  function VerificationGasLimit(op: PackedUserOperation): nat {
    UnpackUint128Pair(op.accountGasLimits).0
  }

  function CallGasLimit(op: PackedUserOperation): nat {
    UnpackUint128Pair(op.accountGasLimits).1
  }

  function MaxPriorityFeePerGas(op: PackedUserOperation): nat {
    UnpackUint128Pair(op.gasFees).0
  }

  function MaxFeePerGas(op: PackedUserOperation): nat {
    UnpackUint128Pair(op.gasFees).1
  }

  function CalculateMaxCost(op: PackedUserOperation, paymasterVerificationGasLimit: nat, postOpGasLimit: nat): nat {
    (VerificationGasLimit(op) + CallGasLimit(op) + paymasterVerificationGasLimit + postOpGasLimit + op.preVerificationGas) * MaxFeePerGas(op)
  }

  predicate Uint128(n: int) {
    0 <= n < UINT128_LIMIT
  }

  /** Packing succeeds exactly on 128-bit values, and every accessor reads back the field it is named for. */
  lemma PackingKeepsFields(op: UnpackedUserOperation)
    ensures ToPacked(op).Some? <==> Uint128(op.verificationGasLimit) && Uint128(op.callGasLimit)
                                    && Uint128(op.maxPriorityFeePerGas) && Uint128(op.maxFeePerGas)
    ensures var packed := ToPacked(op);
            packed.Some? ==>
              && VerificationGasLimit(packed.value) == op.verificationGasLimit && CallGasLimit(packed.value) == op.callGasLimit
              && MaxPriorityFeePerGas(packed.value) == op.maxPriorityFeePerGas && MaxFeePerGas(packed.value) == op.maxFeePerGas
  {
    if Uint128(op.verificationGasLimit) && Uint128(op.callGasLimit) {
      PairRoundTrip(op.verificationGasLimit, op.callGasLimit);
    }
    if Uint128(op.maxPriorityFeePerGas) && Uint128(op.maxFeePerGas) {
      PairRoundTrip(op.maxPriorityFeePerGas, op.maxFeePerGas);
    }
  }

  /** The charge against quotas is the EntryPoint's prefund: all five gas limits at the maximum fee. */
  lemma MaxCostIsPrefund(op: UnpackedUserOperation, paymasterVerificationGasLimit: nat, postOpGasLimit: nat)
    requires ToPacked(op).Some?
    ensures CalculateMaxCost(ToPacked(op).value, paymasterVerificationGasLimit, postOpGasLimit)
            == (op.verificationGasLimit + op.callGasLimit + paymasterVerificationGasLimit + postOpGasLimit + op.preVerificationGas) * op.maxFeePerGas
  {
    PackingKeepsFields(op);
  }

  // The SDK packs the same operation on its own (sdk/src/userOpHash.ts).

  function SdkInitCode(factory: Option<Bytes>, factoryData: Option<Bytes>): Bytes {
    if factory.None? then [] else factory.value + if factoryData.Some? then factoryData.value else []
  }

  /** `numberToHex((high << 128n) | low, {size: 32})`, its ranges checked first. */
  function SdkPair(high: int, low: int): Option<Bytes> {
    if !(0 <= high < UINT128_LIMIT) || !(0 <= low < UINT128_LIMIT) then None
    else NumberToBytes(high * UINT128_LIMIT + low, 32)
  }

  lemma PairIsWord(high: nat, low: nat)
    requires high < UINT128_LIMIT && low < UINT128_LIMIT
    ensures NumberToBytes(high * UINT128_LIMIT + low, 32) == Some(BigEndian(high, 16) + BigEndian(low, 16))
  {
    PairRoundTrip(high, low);
  }

  lemma PairPacks(high: nat, low: nat)
    requires high < UINT128_LIMIT && low < UINT128_LIMIT
    ensures PackedWord(high, low) == NumberToBytes(high * UINT128_LIMIT + low, 32) == SdkPair(high, low)
  {
  }

  /** Both sides compute the same word, the first number in its first half, and refuse the same pairs. */
  lemma WordsAgree(high: int, low: int)
    ensures PackedWord(high, low) == SdkPair(high, low)
    ensures if Uint128(high) && Uint128(low) then PackedWord(high, low) == Some(BigEndian(high, 16) + BigEndian(low, 16))
            else PackedWord(high, low) == None
  {
    if Uint128(high) && Uint128(low) {
      PairIsWord(high, low);
      PairPacks(high, low);
    }
  }

  /** Whatever the backend hashes of an operation, the SDK computes from the same fields. */
  lemma SdkPacksAlike(op: UnpackedUserOperation)
    requires ToPacked(op).Some?
    ensures var packed := ToPacked(op).value;
            && SdkPair(op.verificationGasLimit, op.callGasLimit) == Some(packed.accountGasLimits)
            && SdkPair(op.maxPriorityFeePerGas, op.maxFeePerGas) == Some(packed.gasFees)
            && packed.initCode == if op.factory.Some? then SdkInitCode(Some(op.factory.value.0), Some(op.factory.value.1)) else SdkInitCode(None, None)
  {
    WordsAgree(op.verificationGasLimit, op.callGasLimit);
    WordsAgree(op.maxPriorityFeePerGas, op.maxFeePerGas);
  }
}
