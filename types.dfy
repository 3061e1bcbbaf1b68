/**
 * The proof-of-work value types of the plugin (src/types.rs): the 80-byte block header and its
 * serialisation, the 256-bit target decoded from the compact "bits" field, the hash <= target
 * test, the checked nonce counter, the mining job and the pool connection state.
 */
module Types {
  import opened Fips180
  import opened Errors

  const U32Max: nat := 0xFFFF_FFFF
  type U32 = x: nat | x <= U32Max

  /** A 32-byte hash, target or Merkle root. */
  type Bytes32 = s: seq<Byte> | |s| == 32 witness Zeros(32)

  /** 256 to the power n. */
  function Pow256(n: nat): (r: nat)
    ensures r >= 1
  {
    if n == 0 then 1 else 256 * Pow256(n - 1)
  }

  /** The numeric value of a byte. */
  function ByteValue(b: Byte): (r: nat)
    ensures r < 256
  {
    b as nat
  }

  /*
   * The byte of a value below 256, assembled a bit or two at a time: each step sets bits above
   * the ones already placed, which keeps the solver away from a direct integer-to-bit-vector cast.
   */
  function Low2(x: nat): (b: Byte)
    requires x < 4
    ensures b as nat == x
  {
    if x == 0 then 0 else if x == 1 then 1 else if x == 2 then 2 else 3
  }

  function Low4(x: nat): (b: Byte)
    requires x < 16
    ensures b as nat == x
  {
    if x < 4 then Low2(x) else if x < 8 then Low2(x - 4) | 4
    else if x < 12 then Low2(x - 8) | 8 else Low2(x - 12) | 12
  }

  function Low6(x: nat): (b: Byte)
    requires x < 64
    ensures b as nat == x
  {
    if x < 16 then Low4(x) else if x < 32 then Low4(x - 16) | 16
    else if x < 48 then Low4(x - 32) | 32 else Low4(x - 48) | 48
  }

  function Low7(x: nat): (b: Byte)
    requires x < 128
    ensures b as nat == x
  {
    if x < 64 then Low6(x) else Low6(x - 64) | 64
  }

  /** The byte of a value below 256. */
  function ToByte(x: nat): (b: Byte)
    requires x < 256
    ensures ByteValue(b) == x
  {
    if x < 128 then Low7(x) else Low7(x - 128) | 128
  }

  /** The value of bytes read as a little-endian number. */
  function LeValue(b: seq<Byte>): nat
  {
    if |b| == 0 then 0 else ByteValue(b[0]) + 256 * LeValue(b[1..])
  }

  /** The value of bytes read as a big-endian number. */
  function BeValue(b: seq<Byte>): nat
  {
    if |b| == 0 then 0 else 256 * BeValue(b[..|b| - 1]) + ByteValue(b[|b| - 1])
  }

  /** The four little-endian bytes of a 32-bit value (Rust's `to_le_bytes`). */
  function LittleEndian(x: U32): (r: seq<Byte>)
    ensures |r| == 4 && LeValue(r) == x
  {
    var q1, q2, q3 := x / 0x100, x / 0x1_0000, x / 0x100_0000;
    assert q2 == q1 / 256 && q3 == q2 / 256;
    var r := [ToByte(x % 256), ToByte(q1 % 256), ToByte(q2 % 256), ToByte(q3)];
    assert LeValue(r[3..]) == q3;
    assert LeValue(r[2..]) == q2;
    assert LeValue(r[1..]) == q1;
    r
  }

  /** Four bytes never read as more than a 32-bit value. */
  lemma LeValueBound(b: seq<Byte>)
    requires |b| == 4
    ensures LeValue(b) <= U32Max
  {
    LeValueBelow(b);
    assert Pow256(4) == U32Max + 1;
  }

  /** n bytes read little-endian stay below 256^n. */
  lemma {:induction false} LeValueBelow(b: seq<Byte>)
    ensures LeValue(b) < Pow256(|b|)
  {
    if |b| > 0 {
      LeValueBelow(b[1..]);
    }
  }

  datatype BlockHeader = BlockHeader(
    version: U32,
    prevBlockHash: Bytes32,
    merkleRoot: Bytes32,
    timestamp: U32,
    bits: U32,
    nonce: U32)

  /** The 80 bytes that are hashed for a header. */
  function Serialize(h: BlockHeader): (r: seq<Byte>)
    ensures |r| == 80
    ensures r[0..4] == LittleEndian(h.version)
    ensures r[4..36] == h.prevBlockHash && r[36..68] == h.merkleRoot
    ensures r[68..72] == LittleEndian(h.timestamp)
    ensures r[72..76] == LittleEndian(h.bits)
    ensures r[76..80] == LittleEndian(h.nonce)
  {
    var v, t, b, n := LittleEndian(h.version), LittleEndian(h.timestamp), LittleEndian(h.bits),
      LittleEndian(h.nonce);
    var p, m := h.prevBlockHash, h.merkleRoot;
    Layout(v, p, m, t, b, n);
    v + p + m + t + b + n
  }

  /** Where each of six parts of the header layout is found in their concatenation. */
  lemma Layout(v: seq<Byte>, p: seq<Byte>, m: seq<Byte>, t: seq<Byte>, b: seq<Byte>, n: seq<Byte>)
    requires |v| == |t| == |b| == |n| == 4 && |p| == |m| == 32
    ensures var r := v + p + m + t + b + n;
      r[0..4] == v && r[4..36] == p && r[36..68] == m && r[68..72] == t && r[72..76] == b
      && r[76..80] == n
  {
    var r := v + p + m + t + b + n;
    assert r[0..4] == v;
    assert r[4..36] == p;
    assert r[36..68] == m;
    assert r[68..72] == t;
    assert r[72..76] == b;
    assert r[76..80] == n;
  }

  /** Reads a header back from its 80 bytes, the inverse of Serialize. */
  function Deserialize(b: seq<Byte>): BlockHeader
    requires |b| == 80
  {
    LeValueBound(b[0..4]);
    LeValueBound(b[68..72]);
    LeValueBound(b[72..76]);
    LeValueBound(b[76..80]);
    BlockHeader(LeValue(b[0..4]), b[4..36], b[36..68], LeValue(b[68..72]), LeValue(b[72..76]),
      LeValue(b[76..80]))
  }

  /** Serialisation loses nothing: the header can be read back from its bytes. */
  lemma DeserializeSerialize(h: BlockHeader)
    ensures Deserialize(Serialize(h)) == h
  {
  }

  /** Distinct headers serialise to distinct bytes. */
  lemma SerializeInjective(h1: BlockHeader, h2: BlockHeader)
    requires Serialize(h1) == Serialize(h2)
    ensures h1 == h2
  {
    DeserializeSerialize(h1);
    DeserializeSerialize(h2);
  }

  /** Changing the nonce changes only the last four bytes of the serialisation. */
  lemma SerializeNonceOnly(h: BlockHeader, n: U32)
    ensures Serialize(h.(nonce := n))[..76] == Serialize(h)[..76]
    ensures Serialize(h.(nonce := n))[76..] == LittleEndian(n)
  {
    var a, b := Serialize(h.(nonce := n)), Serialize(h);
    assert a[..76] == a[0..4] + a[4..36] + a[36..68] + a[68..72] + a[72..76];
    assert b[..76] == b[0..4] + b[4..36] + b[36..68] + b[68..72] + b[72..76];
    assert a[76..] == a[76..80];
  }

  /** The exponent byte of the compact target encoding. */
  function Exponent(bits: U32): nat { bits / 0x100_0000 }

  /** The 24-bit mantissa of the compact target encoding. */
  function Mantissa(bits: U32): nat { bits % 0x100_0000 }

  /**
   * The 256-bit big-endian target of a compact "bits" value: the three mantissa bytes are placed
   * so that the mantissa is multiplied by 256^(exponent - 3); an exponent outside 3..32 gives the
   * zero target.
   */
  function FromBits(bits: U32): (t: Bytes32)
    ensures !(3 <= Exponent(bits) <= 32) ==> t == Zeros(32)
    ensures 3 <= Exponent(bits) <= 32 ==>
      t == Zeros(32 - Exponent(bits)) + MantissaBytes(Mantissa(bits)) + Zeros(Exponent(bits) - 3)
  {
    var e, m := Exponent(bits), Mantissa(bits);
    if 3 <= e <= 32 then
      var start := 32 - e;
      var t0 := Zeros(32)[start := ToByte(m / 0x1_0000 % 256)];
      var t1 := if start + 1 < 32 then t0[start + 1 := ToByte(m / 0x100 % 256)] else t0;
      var t2 := if start + 2 < 32 then t1[start + 2 := ToByte(m % 256)] else t1;
      var mb := MantissaBytes(m);
      HighByte(m);
      assert mb == [ToByte(m / 0x1_0000 % 256), ToByte(m / 0x100 % 256), ToByte(m % 256)];
      assert t2 == Zeros(start) + mb + Zeros(e - 3);
      t2
    else
      Zeros(32)
  }

  /** The top byte of a 24-bit value needs no masking. */
  lemma HighByte(m: nat)
    requires m < 0x100_0000
    ensures m / 0x1_0000 % 256 == m / 0x1_0000
  {
  }

  /** The three big-endian bytes of a 24-bit mantissa. */
  function MantissaBytes(m: nat): (r: seq<Byte>)
    requires m < 0x100_0000
    ensures |r| == 3 && BeValue(r) == m
  {
    var q1, q2 := m / 0x100, m / 0x1_0000;
    assert q2 == q1 / 256 && q2 < 256;
    var r := [ToByte(q2), ToByte(q1 % 256), ToByte(m % 256)];
    assert BeValue(r[..1]) == q2 by {
      assert r[..1][..0] == [];
    }
    assert BeValue(r[..2]) == q1 by {
      assert r[..2][..1] == r[..1];
    }
    assert r[..3][..2] == r[..2];
    r
  }

  /** For an exponent e in 3..32 the target is the mantissa times 256^(e - 3), and zero otherwise. */
  lemma FromBitsValue(bits: U32)
    ensures 3 <= Exponent(bits) <= 32 ==>
      BeValue(FromBits(bits)) == Mantissa(bits) * Pow256(Exponent(bits) - 3)
    ensures !(3 <= Exponent(bits) <= 32) ==> BeValue(FromBits(bits)) == 0
  {
    var e, m := Exponent(bits), Mantissa(bits);
    if 3 <= e <= 32 {
      var mb := MantissaBytes(m);
      BeValueZerosPrefix(32 - e, mb + Zeros(e - 3));
      assert FromBits(bits) == Zeros(32 - e) + (mb + Zeros(e - 3));
      BeValueZerosSuffix(mb, e - 3);
    } else {
      BeValueZerosPrefix(32, []);
      assert Zeros(32) + [] == Zeros(32);
    }
  }

  /** Leading zero bytes do not change a big-endian value. */
  lemma {:induction false} BeValueZerosPrefix(k: nat, s: seq<Byte>)
    ensures BeValue(Zeros(k) + s) == BeValue(s)
  {
    if |s| == 0 {
      assert Zeros(k) + s == Zeros(k);
      BeValueZeros(k);
    } else {
      var z := Zeros(k) + s;
      assert z[..|z| - 1] == Zeros(k) + s[..|s| - 1];
      BeValueZerosPrefix(k, s[..|s| - 1]);
    }
  }

  /** Zero bytes have value zero. */
  lemma {:induction false} BeValueZeros(k: nat)
    ensures BeValue(Zeros(k)) == 0
  {
    if k > 0 {
      assert Zeros(k)[..k - 1] == Zeros(k - 1);
      BeValueZeros(k - 1);
      assert ByteValue(Zeros(k)[k - 1]) == 0;
    }
  }

  /** Trailing zero bytes multiply a big-endian value by 256 per byte. */
  lemma {:induction false} BeValueZerosSuffix(s: seq<Byte>, j: nat)
    ensures BeValue(s + Zeros(j)) == BeValue(s) * Pow256(j)
  {
    if j == 0 {
      assert s + Zeros(j) == s;
    } else {
      var z := s + Zeros(j);
      assert z[..|z| - 1] == s + Zeros(j - 1);
      assert ByteValue(z[|z| - 1]) == 0;
      BeValueZerosSuffix(s, j - 1);
      ShiftProduct(BeValue(s), Pow256(j - 1));
    }
  }

  lemma ShiftProduct(a: nat, p: nat)
    ensures 256 * (a * p) == a * (256 * p)
  {
  }

  /**
   * Whether a hash meets the target: the scan of the source, comparing byte by byte from the
   * most significant one and answering at the first difference; equal values meet the target.
   */
  function IsValidHash(target: Bytes32, hash: Bytes32): bool
  {
    ScanFrom(target, hash, 0)
  }

  function ScanFrom(target: seq<Byte>, hash: seq<Byte>, i: nat): bool
    requires |target| == |hash| && i <= |hash|
    decreases |hash| - i
  {
    if i == |hash| then true
    else if hash[i] < target[i] then true
    else if hash[i] > target[i] then false
    else ScanFrom(target, hash, i + 1)
  }

  /** The byte scan is the numeric comparison hash <= target of two 256-bit big-endian values. */
  lemma IsValidHashIsNumeric(target: Bytes32, hash: Bytes32)
    ensures IsValidHash(target, hash) <==> BeValue(hash) <= BeValue(target)
  {
    ScanIsNumeric(target, hash, 0);
  }

  /** Once the first i bytes agree, the rest of the scan decides the numeric comparison. */
  lemma {:induction false} ScanIsNumeric(target: seq<Byte>, hash: seq<Byte>, i: nat)
    requires |target| == |hash| && i <= |hash| && hash[..i] == target[..i]
    ensures ScanFrom(target, hash, i) <==> BeValue(hash) <= BeValue(target)
    decreases |hash| - i
  {
    if i == |hash| {
      assert hash == hash[..i] && target == target[..i];
      return;
    }
    ByteLess(hash[i], target[i]);
    ByteLess(target[i], hash[i]);
    if hash[i] < target[i] {
      FirstDifference(hash, target, i);
    } else if hash[i] > target[i] {
      FirstDifference(target, hash, i);
    } else {
      assert hash[..i + 1] == target[..i + 1];
      ScanIsNumeric(target, hash, i + 1);
    }
  }

  /** Byte comparison is the comparison of the byte values. */
  lemma ByteLess(a: Byte, b: Byte)
    ensures a < b <==> ByteValue(a) < ByteValue(b)
  {
  }

  /**
   * Two big-endian numbers of the same length whose bytes agree before position k and differ
   * at k compare as their bytes at k.
   */
  lemma {:induction false} FirstDifference(lo: seq<Byte>, hi: seq<Byte>, k: nat)
    requires |lo| == |hi| && k < |lo| && lo[..k] == hi[..k]
    requires ByteValue(lo[k]) < ByteValue(hi[k])
    ensures BeValue(lo) < BeValue(hi)
    decreases |lo|
  {
    var n := |lo|;
    if n == k + 1 {
      assert lo[..n - 1] == hi[..n - 1];
    } else {
      assert lo[..n - 1][..k] == hi[..n - 1][..k];
      FirstDifference(lo[..n - 1], hi[..n - 1], k);
    }
  }

  /** The nonce of a header search; it stops at u32::MAX instead of wrapping. */
  class Nonce {
    var value: U32

    constructor (v: U32)
      ensures value == v
    {
      value := v;
    }

    /** Adds one, answering None and keeping the value when it would overflow. */
    method Increment() returns (r: Option<U32>)
      modifies this
      ensures old(value) < U32Max ==> value == old(value) + 1 && r == Some(value)
      ensures old(value) == U32Max ==> value == old(value) && r == None
    {
      if value == U32Max {
        return None;
      }
      value := value + 1;
      r := Some(value);
    }
  }

  /** The header template, target and extranonce data of one pool job. */
  datatype MiningJob = MiningJob(
    jobId: string,
    header: BlockHeader,
    target: Bytes32,
    extranonce1: seq<Byte>,
    extranonce2Size: nat)

  /** Statistics of a mining run; the floating-point rates are exact reals here. */
  datatype MiningStats = MiningStats(
    totalHashes: nat,
    hashrate: real,
    sharesFound: nat,
    sharesAccepted: nat,
    sharesRejected: nat,
    difficulty: real,
    estimatedTimeToBlock: Option<real>)

  const DefaultStats := MiningStats(0, 0.0, 0, 0, 0, 0.0, None)

  /** The connection state of a pool client. */
  datatype PoolConnection =
    | Disconnected
    | Connecting(url: string)
    | Connected(url: string, worker: string)
    | Error(url: string, reason: string)

  const DefaultConnection: PoolConnection := Disconnected
}
