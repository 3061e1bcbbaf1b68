/**
 * SHA-256 as defined by FIPS 180-4 (Secure Hash Standard), written as pure
 * functions. This is the reference the streaming hasher in module Sha256 is
 * proved against.
 */
module Fips180 {
  type Byte = bv8
  type Word = bv32

  /** Initial hash value, section 5.3.3 of FIPS 180-4. */
  const H0: seq<Word> := [
    0x6A09E667, 0xBB67AE85, 0x3C6EF372, 0xA54FF53A,
    0x510E527F, 0x9B05688C, 0x1F83D9AB, 0x5BE0CD19
  ]

  /** Round constants, section 4.2.2 of FIPS 180-4. */
  const K: seq<Word> :=
    [0x428A2F98, 0x71374491, 0xB5C0FBCF, 0xE9B5DBA5, 0x3956C25B, 0x59F111F1, 0x923F82A4, 0xAB1C5ED5] +
    [0xD807AA98, 0x12835B01, 0x243185BE, 0x550C7DC3, 0x72BE5D74, 0x80DEB1FE, 0x9BDC06A7, 0xC19BF174] +
    [0xE49B69C1, 0xEFBE4786, 0x0FC19DC6, 0x240CA1CC, 0x2DE92C6F, 0x4A7484AA, 0x5CB0A9DC, 0x76F988DA] +
    [0x983E5152, 0xA831C66D, 0xB00327C8, 0xBF597FC7, 0xC6E00BF3, 0xD5A79147, 0x06CA6351, 0x14292967] +
    [0x27B70A85, 0x2E1B2138, 0x4D2C6DFC, 0x53380D13, 0x650A7354, 0x766A0ABB, 0x81C2C92E, 0x92722C85] +
    [0xA2BFE8A1, 0xA81A664B, 0xC24B8B70, 0xC76C51A3, 0xD192E819, 0xD6990624, 0xF40E3585, 0x106AA070] +
    [0x19A4C116, 0x1E376C08, 0x2748774C, 0x34B0BCB5, 0x391C0CB3, 0x4ED8AA4A, 0x5B9CCA4F, 0x682E6FF3] +
    [0x748F82EE, 0x78A5636F, 0x84C87814, 0x8CC70208, 0x90BEFFFA, 0xA4506CEB, 0xBEF9A3F7, 0xC67178F2]

  // The six logical functions of section 4.1.2.
  function Ch(x: Word, y: Word, z: Word): Word { (x & y) ^ (!x & z) }
  function Maj(x: Word, y: Word, z: Word): Word { (x & y) ^ (x & z) ^ (y & z) }
  function BigSigma0(x: Word): Word { x.RotateRight(2) ^ x.RotateRight(13) ^ x.RotateRight(22) }
  function BigSigma1(x: Word): Word { x.RotateRight(6) ^ x.RotateRight(11) ^ x.RotateRight(25) }
  function SmallSigma0(x: Word): Word { x.RotateRight(7) ^ x.RotateRight(18) ^ (x >> 3) }
  function SmallSigma1(x: Word): Word { x.RotateRight(17) ^ x.RotateRight(19) ^ (x >> 10) }

  /** The i-th big-endian 32-bit word of a block. */
  function WordAt(block: seq<Byte>, i: nat): Word
    requires 4 * i + 3 < |block|
  {
    (block[4 * i] as Word << 24) | (block[4 * i + 1] as Word << 16)
      | (block[4 * i + 2] as Word << 8) | (block[4 * i + 3] as Word)
  }

  /** Addition modulo 2^32 (u32::wrapping_add). */
  function Add(x: Word, y: Word): Word { x + y }

  /** The sum modulo 2^32 of four words, added left to right. */
  function Add4(w: Word, x: Word, y: Word, z: Word): Word { Add(Add(Add(w, x), y), z) }

  /** Word t of the message schedule of a block (section 6.2.2, step 1); the four terms are
    * added from the oldest word on, which gives the same sum modulo 2^32. */
  function ScheduleWord(block: seq<Byte>, t: nat): Word
    requires |block| == 64 && t < 64
  {
    if t < 16 then WordAt(block, t)
    else
      Add4(ScheduleWord(block, t - 16), SmallSigma0(ScheduleWord(block, t - 15)),
           ScheduleWord(block, t - 7), SmallSigma1(ScheduleWord(block, t - 2)))
  }

  /** The message schedule of a block: its 64 words. */
  function Schedule(block: seq<Byte>): (w: seq<Word>)
    requires |block| == 64
    ensures |w| == 64
  {
    seq(64, t requires 0 <= t < 64 => ScheduleWord(block, t))
  }

  /** The eight working variables a..h. */
  datatype Vars = Vars(a: Word, b: Word, c: Word, d: Word, e: Word, f: Word, g: Word, h: Word)

  /** One round of the compression function (section 6.2.2, step 3). */
  function Round(v: Vars, k: Word, w: Word): Vars {
    var t1 := Add(Add(Add(Add(v.h, BigSigma1(v.e)), Ch(v.e, v.f, v.g)), k), w);
    var t2 := Add(BigSigma0(v.a), Maj(v.a, v.b, v.c));
    Vars(Add(t1, t2), v.a, v.b, v.c, Add(v.d, t1), v.e, v.f, v.g)
  }

  /** The working variables after the first t rounds over the schedule w. */
  function Rounds(init: Vars, w: seq<Word>, t: nat): Vars
    requires |w| == 64 && t <= 64
  {
    if t == 0 then init else Round(Rounds(init, w, t - 1), K[t - 1], w[t - 1])
  }

  function InitVars(hv: seq<Word>): Vars
    requires |hv| == 8
  {
    Vars(hv[0], hv[1], hv[2], hv[3], hv[4], hv[5], hv[6], hv[7])
  }

  /** The intermediate hash value after one block (section 6.2.2, steps 2 to 4). */
  function Compress(hv: seq<Word>, block: seq<Byte>): (r: seq<Word>)
    requires |hv| == 8 && |block| == 64
    ensures |r| == 8
  {
    AddVars(hv, Rounds(InitVars(hv), Schedule(block), 64))
  }

  /** The hash value with the working variables added in, word by word (section 6.2.2, step 4). */
  function AddVars(hv: seq<Word>, v: Vars): (r: seq<Word>)
    requires |hv| == 8
    ensures |r| == 8
  {
    hv[0 := Add(hv[0], v.a)][1 := Add(hv[1], v.b)][2 := Add(hv[2], v.c)][3 := Add(hv[3], v.d)]
      [4 := Add(hv[4], v.e)][5 := Add(hv[5], v.f)][6 := Add(hv[6], v.g)][7 := Add(hv[7], v.h)]
  }

  /** The hash value after compressing every 64-byte block of `bytes`, first to last. */
  function Absorb(hv: seq<Word>, bytes: seq<Byte>): (r: seq<Word>)
    requires |hv| == 8 && |bytes| % 64 == 0
    ensures |r| == 8
    decreases |bytes|
  {
    if |bytes| == 0 then hv
    else Compress(Absorb(hv, bytes[..|bytes| - 64]), bytes[|bytes| - 64..])
  }

  /** Number of zero bytes padding a message of n bytes (section 5.1.1). */
  function ZeroCount(n: nat): nat {
    if n % 64 < 56 then 55 - n % 64 else 119 - n % 64
  }

  /** The n-byte big-endian encoding of x modulo 256^n. */
  function BigEndian(x: nat, n: nat): (r: seq<Byte>)
    ensures |r| == n
  {
    if n == 0 then [] else BigEndian(x / 256, n - 1) + [(x % 256) as Byte]
  }

  /** n zero bytes. */
  function Zeros(n: nat): (r: seq<Byte>)
    ensures |r| == n
  {
    seq(n, _ => 0)
  }

  /** The padded message of section 5.1.1: the message, a 0x80 byte, zero bytes up to 56 modulo 64,
    * then the bit length modulo 2^64 as a 64-bit big-endian number. */
  function Pad(m: seq<Byte>): seq<Byte> {
    m + [0x80] + Zeros(ZeroCount(|m|)) + BigEndian((|m| * 8) % 0x1_0000_0000_0000_0000, 8)
  }

  /** The big-endian encoding of the eight words of a hash value. */
  function Digest(hv: seq<Word>): (r: seq<Byte>)
    requires |hv| == 8
    ensures |r| == 32
  {
    WordBytes(hv[0]) + WordBytes(hv[1]) + WordBytes(hv[2]) + WordBytes(hv[3])
      + WordBytes(hv[4]) + WordBytes(hv[5]) + WordBytes(hv[6]) + WordBytes(hv[7])
  }

  /** The big-endian encoding of one word. */
  function WordBytes(w: Word): (r: seq<Byte>)
    ensures |r| == 4
  {
    [((w >> 24) & 0xFF) as Byte, ((w >> 16) & 0xFF) as Byte, ((w >> 8) & 0xFF) as Byte, (w & 0xFF) as Byte]
  }

  /** The big-endian encodings of a sequence of words, one after the other. */
  function WordsBytes(ws: seq<Word>): (r: seq<Byte>)
    ensures |r| == 4 * |ws|
  {
    if |ws| == 0 then [] else WordsBytes(ws[..|ws| - 1]) + WordBytes(ws[|ws| - 1])
  }

  /** The digest is the big-endian encoding of the hash value word by word. */
  lemma DigestIsWordsBytes(hv: seq<Word>)
    requires |hv| == 8
    ensures Digest(hv) == WordsBytes(hv)
  {
    assert hv[..1][..0] == [] && WordsBytes(hv[..1]) == [] + WordBytes(hv[0]) == WordBytes(hv[0]);
    assert hv[..2][..1] == hv[..1] && WordsBytes(hv[..2]) == WordsBytes(hv[..1]) + WordBytes(hv[1]);
    assert hv[..3][..2] == hv[..2] && WordsBytes(hv[..3]) == WordsBytes(hv[..2]) + WordBytes(hv[2]);
    assert hv[..4][..3] == hv[..3] && WordsBytes(hv[..4]) == WordsBytes(hv[..3]) + WordBytes(hv[3]);
    assert hv[..5][..4] == hv[..4] && WordsBytes(hv[..5]) == WordsBytes(hv[..4]) + WordBytes(hv[4]);
    assert hv[..6][..5] == hv[..5] && WordsBytes(hv[..6]) == WordsBytes(hv[..5]) + WordBytes(hv[5]);
    assert hv[..7][..6] == hv[..6] && WordsBytes(hv[..7]) == WordsBytes(hv[..6]) + WordBytes(hv[6]);
    assert hv[..8][..7] == hv[..7] && WordsBytes(hv[..8]) == WordsBytes(hv[..7]) + WordBytes(hv[7]);
    assert hv[..8] == hv;
  }

  /** Absorbing one more block compresses it into the hash value reached so far. */
  lemma AbsorbBlock(hv: seq<Word>, bytes: seq<Byte>, block: seq<Byte>)
    requires |hv| == 8 && |bytes| % 64 == 0 && |block| == 64
    ensures |bytes + block| % 64 == 0
    ensures Absorb(hv, bytes + block) == Compress(Absorb(hv, bytes), block)
  {
    var all := bytes + block;
    assert all[..|all| - 64] == bytes && all[|all| - 64..] == block;
  }

  /** A message whose tail after its whole blocks is shorter than 56 bytes pads to one more block. */
  lemma PadOneBlock(blocks: seq<Byte>, rest: seq<Byte>)
    requires |blocks| % 64 == 0 && |rest| < 56
    ensures Pad(blocks + rest)
      == blocks + (rest + [0x80] + Zeros(55 - |rest|) + BigEndian((|blocks + rest| * 8) % 0x1_0000_0000_0000_0000, 8))
  {
    assert ZeroCount(|blocks + rest|) == 55 - |rest|;
  }

  /** A message whose tail after its whole blocks is 56 to 63 bytes long pads to two more blocks:
    * the tail, 0x80 and zeros, then 56 zeros and the length field. */
  lemma PadTwoBlocks(blocks: seq<Byte>, rest: seq<Byte>)
    requires |blocks| % 64 == 0 && 56 <= |rest| < 64
    ensures Pad(blocks + rest)
      == blocks + (rest + [0x80] + Zeros(63 - |rest|))
         + (Zeros(56) + BigEndian((|blocks + rest| * 8) % 0x1_0000_0000_0000_0000, 8))
  {
    assert ZeroCount(|blocks + rest|) == 119 - |rest|;
    assert Zeros(119 - |rest|) == Zeros(63 - |rest|) + Zeros(56);
  }

  /** SHA-256 of a message. */
  function Hash(m: seq<Byte>): (r: seq<Byte>)
    ensures |r| == 32
  {
    PadIsBlocks(m);
    Digest(Absorb(H0, Pad(m)))
  }

  /** The padding of section 5.1.1 fills whole blocks and adds fewer than 64 bytes beyond the
    * mandatory 0x80 byte and length field. */
  lemma PadIsBlocks(m: seq<Byte>)
    ensures |Pad(m)| % 64 == 0
    ensures |Pad(m)| == |m| + 9 + ZeroCount(|m|) && ZeroCount(|m|) < 64
  {
    PaddedLength(|m|);
  }

  /** n bytes, the 0x80 byte, the zeros and the 8-byte length field fill whole blocks. */
  lemma PaddedLength(n: nat)
    ensures (n + 9 + ZeroCount(n)) % 64 == 0 && ZeroCount(n) < 64
  {
    var q, r := n / 64, n % 64;
    assert n == 64 * q + r;
    var blocks := if r < 56 then q + 1 else q + 2;
    assert n + 9 + ZeroCount(n) == 64 * blocks;
  }
}
