/** Big-endian words: fixed-size numbers as bytes, and two 128-bit halves in one 256-bit word. */
module Words {
  import opened Text

  type Byte = b: int | 0 <= b < 256

  type Bytes = seq<Byte>

  const UINT128_LIMIT: nat := 0x1_0000_0000_0000_0000_0000_0000_0000_0000

  /** 256 to the power of `size`. */
  function Capacity(size: nat): (n: nat)
    ensures n >= 1
  {
    if size == 0 then 1 else 256 * Capacity(size - 1)
  }

  function BigEndian(n: nat, size: nat): (bytes: Bytes)
    ensures |bytes| == size
  {
    if size == 0 then [] else BigEndian(n / 256, size - 1) + [n % 256]
  }

  /** `numberToHex(n, {size})`: out of range is an error, never a truncation. */
  function NumberToBytes(n: int, size: nat): Option<Bytes> {
    if 0 <= n < Capacity(size) then Some(BigEndian(n, size)) else None
  }

  /** `hexToBigInt`. */
  function BytesToNumber(bytes: Bytes): nat {
    if bytes == [] then 0 else 256 * BytesToNumber(bytes[..|bytes| - 1]) + bytes[|bytes| - 1]
  }

  lemma {:induction false} NumberRoundTrip(n: nat, size: nat)
    requires n < Capacity(size)
    ensures BytesToNumber(BigEndian(n, size)) == n
  {
    if size > 0 {
      NumberRoundTrip(n / 256, size - 1);
      assert BigEndian(n, size)[..size - 1] == BigEndian(n / 256, size - 1);
    }
  }

  lemma {:induction false} BytesRoundTrip(bytes: Bytes)
    ensures BytesToNumber(bytes) < Capacity(|bytes|) && BigEndian(BytesToNumber(bytes), |bytes|) == bytes
  {
    if bytes != [] {
      BytesRoundTrip(bytes[..|bytes| - 1]);
    }
  }

  lemma Capacity16()
    ensures Capacity(16) == UINT128_LIMIT
  {
    assert Capacity(4) == 0x1_0000_0000;
    assert Capacity(8) == 0x1_0000_0000_0000_0000;
    assert Capacity(12) == 0x1_0000_0000_0000_0000_0000_0000;
  }

  lemma {:induction false} CapacityAdds(a: nat, b: nat)
    ensures Capacity(a + b) == Capacity(a) * Capacity(b)
  {
    if b > 0 {
      CapacityAdds(a, b - 1);
      assert Capacity(a + b) == 256 * Capacity(a + (b - 1));
      assert 256 * (Capacity(a) * Capacity(b - 1)) == Capacity(a) * (256 * Capacity(b - 1));
    }
  }

  /** A word that holds two numbers is the bytes of one after the other. */
  lemma {:induction false} WordSplits(high: nat, low: nat, a: nat, b: nat)
    requires low < Capacity(b)
    ensures BigEndian(high * Capacity(b) + low, a + b) == BigEndian(high, a) + BigEndian(low, b)
  {
    if b == 0 {
      assert BigEndian(high, a) + [] == BigEndian(high, a);
    } else {
      var n := high * Capacity(b) + low;
      assert n == 256 * (high * Capacity(b - 1)) + low;
      assert n / 256 == high * Capacity(b - 1) + low / 256 && n % 256 == low % 256;
      WordSplits(high, low / 256, a, b - 1);
      assert BigEndian(n, a + b) == BigEndian(n / 256, a + b - 1) + [n % 256];
    }
  }

  /** `(high << 128) | low`, ranges checked. */
  function PackUint128Pair(high: int, low: int): Option<nat> {
    if 0 <= high < UINT128_LIMIT && 0 <= low < UINT128_LIMIT then Some(high * UINT128_LIMIT + low) else None
  }

  function UnpackUint128Pair(packed: Bytes): (nat, nat) {
    var value := BytesToNumber(packed);
    (value / UINT128_LIMIT, value % UINT128_LIMIT)
  }

  /** A packed pair always fits its 32 bytes, high half first, and unpacks to itself. */
  lemma PairRoundTrip(high: nat, low: nat)
    requires high < UINT128_LIMIT && low < UINT128_LIMIT
    ensures var packed := PackUint128Pair(high, low).value;
            && NumberToBytes(packed, 32) == Some(BigEndian(high, 16) + BigEndian(low, 16))
            && UnpackUint128Pair(BigEndian(packed, 32)) == (high, low)
            && UnpackUint128Pair(BigEndian(high, 16) + BigEndian(low, 16)) == (high, low)
  {
    Capacity16();
    CapacityAdds(16, 16);
    WordSplits(high, low, 16, 16);
    NumberRoundTrip(high * UINT128_LIMIT + low, 32);
  }

  lemma HalvesFit(n: nat)
    requires n < UINT128_LIMIT * UINT128_LIMIT
    ensures n / UINT128_LIMIT < UINT128_LIMIT && n == n / UINT128_LIMIT * UINT128_LIMIT + n % UINT128_LIMIT
  {
  }

  lemma WordFits(word: Bytes)
    requires |word| == 32
    ensures BytesToNumber(word) < UINT128_LIMIT * UINT128_LIMIT && BigEndian(BytesToNumber(word), 32) == word
  {
    Capacity16();
    CapacityAdds(16, 16);
    BytesRoundTrip(word);
  }

  /** A number below 2^256 is, as 32 bytes, its two halves. */
  lemma HalvesAreBytes(n: nat)
    requires n < UINT128_LIMIT * UINT128_LIMIT
    ensures BigEndian(n, 32) == BigEndian(n / UINT128_LIMIT, 16) + BigEndian(n % UINT128_LIMIT, 16)
  {
    Capacity16();
    HalvesFit(n);
    WordSplits(n / UINT128_LIMIT, n % UINT128_LIMIT, 16, 16);
  }

  /** Only the 32 bytes of a pair read back as that pair. */
  lemma WordIsPair(word: Bytes)
    requires |word| == 32
    ensures var (high, low) := UnpackUint128Pair(word);
            high < UINT128_LIMIT && low < UINT128_LIMIT && word == BigEndian(high, 16) + BigEndian(low, 16)
  {
    WordFits(word);
    HalvesFit(BytesToNumber(word));
    HalvesAreBytes(BytesToNumber(word));
  }
}
