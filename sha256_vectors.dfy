/**
 * The known-answer vectors of the hasher's own tests (and of FIPS 180-4,
 * appendix B.1), checked against the reference functions one round at a time.
 */
module Sha256Vectors {
  import opened Fips180

  /** The hash of a message whose padding is one block. */
  lemma SingleBlockHash(m: seq<Byte>, block: seq<Byte>)
    requires |block| == 64 && Pad(m) == block
    ensures Hash(m) == Digest(Compress(H0, block))
  {
    assert block[..0] == [] && block[0..] == block;
    assert Absorb(H0, block) == Compress(H0, block);
  }

  lemma {:induction false} BigEndianZero(n: nat)
    ensures BigEndian(0, n) == seq(n, _ => 0)
  {
    if n > 0 {
      BigEndianZero(n - 1);
      assert seq(n, _ => 0) == seq(n - 1, _ => 0) + [0];
    }
  }

  /** A value below 256 is encoded as zero bytes followed by the value. */
  lemma BigEndianSmall(x: nat, n: nat)
    requires x < 256 && n > 0
    ensures BigEndian(x, n) == seq(n - 1, _ => 0) + [x as Byte]
  {
    BigEndianZero(n - 1);
  }

  /** Word t of s follows from the earlier words by the schedule recurrence. */
  predicate ScheduleStep(s: seq<Word>, t: nat)
    requires 16 <= t < |s|
  {
    s[t] == Add4(s[t - 16], SmallSigma0(s[t - 15]), s[t - 7], SmallSigma1(s[t - 2]))
  }

  /** Every word of s from word t on follows the schedule recurrence. */
  predicate StepsFrom(s: seq<Word>, t: nat)
    requires |s| == 64 && 16 <= t
    decreases 64 - t
  {
    t >= 64 || (ScheduleStep(s, t) && StepsFrom(s, t + 1))
  }

  lemma {:induction false} StepsFromAt(s: seq<Word>, from: nat, t: nat)
    requires |s| == 64 && 16 <= from <= t < 64 && StepsFrom(s, from)
    ensures ScheduleStep(s, t)
    decreases t - from
  {
    if from < t {
      StepsFromAt(s, from + 1, t);
    }
  }

  /** A sequence that starts with the block's words and follows the recurrence is its schedule. */
  lemma ScheduleMatches(b: seq<Byte>, s: seq<Word>)
    requires |b| == 64 && |s| == 64
    requires forall t | 0 <= t < 16 :: s[t] == WordAt(b, t)
    requires StepsFrom(s, 16)
    ensures Schedule(b) == s
  {
    forall t | 0 <= t < 64
      ensures Schedule(b)[t] == s[t]
    {
      ScheduleWordMatches(b, s, t);
    }
  }

  lemma {:induction false} ScheduleWordMatches(b: seq<Byte>, s: seq<Word>, t: nat)
    requires |b| == 64 && |s| == 64 && t < 64
    requires forall t | 0 <= t < 16 :: s[t] == WordAt(b, t)
    requires StepsFrom(s, 16)
    ensures ScheduleWord(b, t) == s[t]
    decreases t
  {
    if t >= 16 {
      ScheduleWordMatches(b, s, t - 2);
      ScheduleWordMatches(b, s, t - 7);
      ScheduleWordMatches(b, s, t - 15);
      ScheduleWordMatches(b, s, t - 16);
      StepsFromAt(s, 16, t);
    }
  }

  /** One round, from the working variables before it. */
  lemma RoundAt(init: Vars, w: seq<Word>, t: nat, v: Vars, k: Word, x: Word, r: Vars)
    requires |w| == 64 && 0 < t <= 64
    requires Rounds(init, w, t - 1) == v && K[t - 1] == k && w[t - 1] == x && Round(v, k, x) == r
    ensures Rounds(init, w, t) == r
  {
  }
}

/** SHA-256 of the empty message, the hasher's first test. */
module EmptyMessageVector {
  import opened Fips180
  import opened Sha256Vectors

  /** The single padded block of the message. */
  const EmptyMessageBlock: seq<Byte> :=
    [0x80] + seq(55, _ => 0) + [0x00, 0x00, 0x00, 0x00, 0x00, 0x00, 0x00, 0x00]

  /** The message schedule of that block. */
  const EmptyMessageSchedule: seq<Word> :=
    [0x80000000, 0x00000000, 0x00000000, 0x00000000, 0x00000000, 0x00000000, 0x00000000, 0x00000000] +
    [0x00000000, 0x00000000, 0x00000000, 0x00000000, 0x00000000, 0x00000000, 0x00000000, 0x00000000] +
    [0x80000000, 0x00000000, 0x00205000, 0x00000000, 0x22000800, 0x00000000, 0x05089542, 0x80000000] +
    [0x58080000, 0x0040A000, 0x00162505, 0x66001800, 0xD6222580, 0x14225508, 0xD645F95C, 0xC9282000] +
    [0xC3F10094, 0x284CA766, 0x06886DC6, 0xA37BF116, 0x717CBE96, 0xFEC2D74A, 0xA7B67F00, 0x811596A2] +
    [0x98A6E768, 0x03B20C82, 0x5D1DA7C9, 0xB156B935, 0xC3DDCA11, 0x249C107F, 0xC48D24EF, 0x5DE54C30] +
    [0xDEFECE65, 0x2CA1480D, 0x3C15332C, 0x01CEC9AD, 0x160CCCD0, 0x0BACDA98, 0x361B8FE0, 0xD2320BA6] +
    [0x029B7007, 0x7546587C, 0x07F54F39, 0xF808DDC3, 0xDCCA7608, 0x5E427188, 0x44BCEC5D, 0x3B5EC49B]

  lemma Padding(m: seq<Byte>)
    requires m == []
    ensures Pad(m) == EmptyMessageBlock
  {
    assert ZeroCount(|m|) == 55;
    BigEndianSmall((|m| * 8) % 0x1_0000_0000_0000_0000, 8);
  }


  lemma MessageWords0(b: seq<Byte>, s: seq<Word>)
    requires b == EmptyMessageBlock && s == EmptyMessageSchedule
    ensures forall t | 0 <= t < 4 :: s[t] == WordAt(b, t)
  {
    assert s[0] == WordAt(b, 0);
    assert s[1] == WordAt(b, 1);
    assert s[2] == WordAt(b, 2);
    assert s[3] == WordAt(b, 3);
  }

  lemma MessageWords4(b: seq<Byte>, s: seq<Word>)
    requires b == EmptyMessageBlock && s == EmptyMessageSchedule
    ensures forall t | 4 <= t < 8 :: s[t] == WordAt(b, t)
  {
    assert s[4] == WordAt(b, 4);
    assert s[5] == WordAt(b, 5);
    assert s[6] == WordAt(b, 6);
    assert s[7] == WordAt(b, 7);
  }

  lemma MessageWords8(b: seq<Byte>, s: seq<Word>)
    requires b == EmptyMessageBlock && s == EmptyMessageSchedule
    ensures forall t | 8 <= t < 12 :: s[t] == WordAt(b, t)
  {
    assert s[8] == WordAt(b, 8);
    assert s[9] == WordAt(b, 9);
    assert s[10] == WordAt(b, 10);
    assert s[11] == WordAt(b, 11);
  }

  lemma MessageWords12(b: seq<Byte>, s: seq<Word>)
    requires b == EmptyMessageBlock && s == EmptyMessageSchedule
    ensures forall t | 12 <= t < 16 :: s[t] == WordAt(b, t)
  {
    assert s[12] == WordAt(b, 12);
    assert s[13] == WordAt(b, 13);
    assert s[14] == WordAt(b, 14);
    assert s[15] == WordAt(b, 15);
  }

  lemma Step16(s: seq<Word>)
    requires s == EmptyMessageSchedule
    ensures ScheduleStep(s, 16)
  {
  }

  lemma Step17(s: seq<Word>)
    requires s == EmptyMessageSchedule
    ensures ScheduleStep(s, 17)
  {
  }

  lemma StepsFrom16(s: seq<Word>)
    requires s == EmptyMessageSchedule
    ensures StepsFrom(s, 16)
  {
    StepsFrom24(s);
    Step23(s);
    assert StepsFrom(s, 23);
    Step22(s);
    assert StepsFrom(s, 22);
    Step21(s);
    assert StepsFrom(s, 21);
    Step20(s);
    assert StepsFrom(s, 20);
    Step19(s);
    assert StepsFrom(s, 19);
    Step18(s);
    assert StepsFrom(s, 18);
    Step17(s);
    assert StepsFrom(s, 17);
    Step16(s);
    assert StepsFrom(s, 16);
  }

  lemma Step18(s: seq<Word>)
    requires s == EmptyMessageSchedule
    ensures ScheduleStep(s, 18)
  {
  }

  lemma Step19(s: seq<Word>)
    requires s == EmptyMessageSchedule
    ensures ScheduleStep(s, 19)
  {
  }

  lemma Step20(s: seq<Word>)
    requires s == EmptyMessageSchedule
    ensures ScheduleStep(s, 20)
  {
  }

  lemma Step21(s: seq<Word>)
    requires s == EmptyMessageSchedule
    ensures ScheduleStep(s, 21)
  {
  }

  lemma Step22(s: seq<Word>)
    requires s == EmptyMessageSchedule
    ensures ScheduleStep(s, 22)
  {
  }

  lemma Step23(s: seq<Word>)
    requires s == EmptyMessageSchedule
    ensures ScheduleStep(s, 23)
  {
  }

  lemma Step24(s: seq<Word>)
    requires s == EmptyMessageSchedule
    ensures ScheduleStep(s, 24)
  {
  }

  lemma Step25(s: seq<Word>)
    requires s == EmptyMessageSchedule
    ensures ScheduleStep(s, 25)
  {
  }

  lemma StepsFrom24(s: seq<Word>)
    requires s == EmptyMessageSchedule
    ensures StepsFrom(s, 24)
  {
    StepsFrom32(s);
    Step31(s);
    assert StepsFrom(s, 31);
    Step30(s);
    assert StepsFrom(s, 30);
    Step29(s);
    assert StepsFrom(s, 29);
    Step28(s);
    assert StepsFrom(s, 28);
    Step27(s);
    assert StepsFrom(s, 27);
    Step26(s);
    assert StepsFrom(s, 26);
    Step25(s);
    assert StepsFrom(s, 25);
    Step24(s);
    assert StepsFrom(s, 24);
  }

  lemma Step26(s: seq<Word>)
    requires s == EmptyMessageSchedule
    ensures ScheduleStep(s, 26)
  {
  }

  lemma Step27(s: seq<Word>)
    requires s == EmptyMessageSchedule
    ensures ScheduleStep(s, 27)
  {
  }

  lemma Step28(s: seq<Word>)
    requires s == EmptyMessageSchedule
    ensures ScheduleStep(s, 28)
  {
  }

  lemma Step29(s: seq<Word>)
    requires s == EmptyMessageSchedule
    ensures ScheduleStep(s, 29)
  {
  }

  lemma Step30(s: seq<Word>)
    requires s == EmptyMessageSchedule
    ensures ScheduleStep(s, 30)
  {
  }

  lemma Step31(s: seq<Word>)
    requires s == EmptyMessageSchedule
    ensures ScheduleStep(s, 31)
  {
  }

  lemma Step32(s: seq<Word>)
    requires s == EmptyMessageSchedule
    ensures ScheduleStep(s, 32)
  {
  }

  lemma Step33(s: seq<Word>)
    requires s == EmptyMessageSchedule
    ensures ScheduleStep(s, 33)
  {
  }

  lemma StepsFrom32(s: seq<Word>)
    requires s == EmptyMessageSchedule
    ensures StepsFrom(s, 32)
  {
    StepsFrom40(s);
    Step39(s);
    assert StepsFrom(s, 39);
    Step38(s);
    assert StepsFrom(s, 38);
    Step37(s);
    assert StepsFrom(s, 37);
    Step36(s);
    assert StepsFrom(s, 36);
    Step35(s);
    assert StepsFrom(s, 35);
    Step34(s);
    assert StepsFrom(s, 34);
    Step33(s);
    assert StepsFrom(s, 33);
    Step32(s);
    assert StepsFrom(s, 32);
  }

  lemma Step34(s: seq<Word>)
    requires s == EmptyMessageSchedule
    ensures ScheduleStep(s, 34)
  {
  }

  lemma Step35(s: seq<Word>)
    requires s == EmptyMessageSchedule
    ensures ScheduleStep(s, 35)
  {
  }

  lemma Step36(s: seq<Word>)
    requires s == EmptyMessageSchedule
    ensures ScheduleStep(s, 36)
  {
  }

  lemma Step37(s: seq<Word>)
    requires s == EmptyMessageSchedule
    ensures ScheduleStep(s, 37)
  {
  }

  lemma Step38(s: seq<Word>)
    requires s == EmptyMessageSchedule
    ensures ScheduleStep(s, 38)
  {
  }

  lemma Step39(s: seq<Word>)
    requires s == EmptyMessageSchedule
    ensures ScheduleStep(s, 39)
  {
  }

  lemma Step40(s: seq<Word>)
    requires s == EmptyMessageSchedule
    ensures ScheduleStep(s, 40)
  {
  }

  lemma Step41(s: seq<Word>)
    requires s == EmptyMessageSchedule
    ensures ScheduleStep(s, 41)
  {
  }

  lemma StepsFrom40(s: seq<Word>)
    requires s == EmptyMessageSchedule
    ensures StepsFrom(s, 40)
  {
    StepsFrom48(s);
    Step47(s);
    assert StepsFrom(s, 47);
    Step46(s);
    assert StepsFrom(s, 46);
    Step45(s);
    assert StepsFrom(s, 45);
    Step44(s);
    assert StepsFrom(s, 44);
    Step43(s);
    assert StepsFrom(s, 43);
    Step42(s);
    assert StepsFrom(s, 42);
    Step41(s);
    assert StepsFrom(s, 41);
    Step40(s);
    assert StepsFrom(s, 40);
  }

  lemma Step42(s: seq<Word>)
    requires s == EmptyMessageSchedule
    ensures ScheduleStep(s, 42)
  {
  }

  lemma Step43(s: seq<Word>)
    requires s == EmptyMessageSchedule
    ensures ScheduleStep(s, 43)
  {
  }

  lemma Step44(s: seq<Word>)
    requires s == EmptyMessageSchedule
    ensures ScheduleStep(s, 44)
  {
  }

  lemma Step45(s: seq<Word>)
    requires s == EmptyMessageSchedule
    ensures ScheduleStep(s, 45)
  {
  }

  lemma Step46(s: seq<Word>)
    requires s == EmptyMessageSchedule
    ensures ScheduleStep(s, 46)
  {
  }

  lemma Step47(s: seq<Word>)
    requires s == EmptyMessageSchedule
    ensures ScheduleStep(s, 47)
  {
  }

  lemma Step48(s: seq<Word>)
    requires s == EmptyMessageSchedule
    ensures ScheduleStep(s, 48)
  {
  }

  lemma Step49(s: seq<Word>)
    requires s == EmptyMessageSchedule
    ensures ScheduleStep(s, 49)
  {
  }

  lemma StepsFrom48(s: seq<Word>)
    requires s == EmptyMessageSchedule
    ensures StepsFrom(s, 48)
  {
    StepsFrom56(s);
    Step55(s);
    assert StepsFrom(s, 55);
    Step54(s);
    assert StepsFrom(s, 54);
    Step53(s);
    assert StepsFrom(s, 53);
    Step52(s);
    assert StepsFrom(s, 52);
    Step51(s);
    assert StepsFrom(s, 51);
    Step50(s);
    assert StepsFrom(s, 50);
    Step49(s);
    assert StepsFrom(s, 49);
    Step48(s);
    assert StepsFrom(s, 48);
  }

  lemma Step50(s: seq<Word>)
    requires s == EmptyMessageSchedule
    ensures ScheduleStep(s, 50)
  {
  }

  lemma Step51(s: seq<Word>)
    requires s == EmptyMessageSchedule
    ensures ScheduleStep(s, 51)
  {
  }

  lemma Step52(s: seq<Word>)
    requires s == EmptyMessageSchedule
    ensures ScheduleStep(s, 52)
  {
  }

  lemma Step53(s: seq<Word>)
    requires s == EmptyMessageSchedule
    ensures ScheduleStep(s, 53)
  {
  }

  lemma Step54(s: seq<Word>)
    requires s == EmptyMessageSchedule
    ensures ScheduleStep(s, 54)
  {
  }

  lemma Step55(s: seq<Word>)
    requires s == EmptyMessageSchedule
    ensures ScheduleStep(s, 55)
  {
  }

  lemma Step56(s: seq<Word>)
    requires s == EmptyMessageSchedule
    ensures ScheduleStep(s, 56)
  {
  }

  lemma Step57(s: seq<Word>)
    requires s == EmptyMessageSchedule
    ensures ScheduleStep(s, 57)
  {
  }

  lemma StepsFrom56(s: seq<Word>)
    requires s == EmptyMessageSchedule
    ensures StepsFrom(s, 56)
  {
    assert StepsFrom(s, 64);
    Step63(s);
    assert StepsFrom(s, 63);
    Step62(s);
    assert StepsFrom(s, 62);
    Step61(s);
    assert StepsFrom(s, 61);
    Step60(s);
    assert StepsFrom(s, 60);
    Step59(s);
    assert StepsFrom(s, 59);
    Step58(s);
    assert StepsFrom(s, 58);
    Step57(s);
    assert StepsFrom(s, 57);
    Step56(s);
    assert StepsFrom(s, 56);
  }

  lemma Step58(s: seq<Word>)
    requires s == EmptyMessageSchedule
    ensures ScheduleStep(s, 58)
  {
  }

  lemma Step59(s: seq<Word>)
    requires s == EmptyMessageSchedule
    ensures ScheduleStep(s, 59)
  {
  }

  lemma Step60(s: seq<Word>)
    requires s == EmptyMessageSchedule
    ensures ScheduleStep(s, 60)
  {
  }

  lemma Step61(s: seq<Word>)
    requires s == EmptyMessageSchedule
    ensures ScheduleStep(s, 61)
  {
  }

  lemma Step62(s: seq<Word>)
    requires s == EmptyMessageSchedule
    ensures ScheduleStep(s, 62)
  {
  }

  lemma Step63(s: seq<Word>)
    requires s == EmptyMessageSchedule
    ensures ScheduleStep(s, 63)
  {
  }

  lemma ScheduleIs(b: seq<Byte>)
    requires b == EmptyMessageBlock
    ensures Schedule(b) == EmptyMessageSchedule
  {
    var s := EmptyMessageSchedule;
    MessageWords0(b, s);
    MessageWords4(b, s);
    MessageWords8(b, s);
    MessageWords12(b, s);
    StepsFrom16(s);
    ScheduleMatches(b, s);
  }

  lemma Rounds0(w: seq<Word>)
    requires w == EmptyMessageSchedule
    ensures Rounds(InitVars(H0), w, 8) == Vars(0x7AD5B1B6, 0xF0205590, 0x292E3B42, 0x4366F730, 0x53F94DCB, 0x82EDE06F, 0x4F6540FA, 0xE7D0641E)
  {
    assert Rounds(InitVars(H0), w, 0) == Vars(0x6A09E667, 0xBB67AE85, 0x3C6EF372, 0xA54FF53A, 0x510E527F, 0x9B05688C, 0x1F83D9AB, 0x5BE0CD19);
    RoundAt(InitVars(H0), w, 1, Vars(0x6A09E667, 0xBB67AE85, 0x3C6EF372, 0xA54FF53A, 0x510E527F, 0x9B05688C, 0x1F83D9AB, 0x5BE0CD19), 0x428A2F98, 0x80000000, Vars(0x7C08884D, 0x6A09E667, 0xBB67AE85, 0x3C6EF372, 0x18C7E2A2, 0x510E527F, 0x9B05688C, 0x1F83D9AB));
    RoundAt(InitVars(H0), w, 2, Vars(0x7C08884D, 0x6A09E667, 0xBB67AE85, 0x3C6EF372, 0x18C7E2A2, 0x510E527F, 0x9B05688C, 0x1F83D9AB), 0x71374491, 0x00000000, Vars(0x9CE564D0, 0x7C08884D, 0x6A09E667, 0xBB67AE85, 0x2001B256, 0x18C7E2A2, 0x510E527F, 0x9B05688C));
    RoundAt(InitVars(H0), w, 3, Vars(0x9CE564D0, 0x7C08884D, 0x6A09E667, 0xBB67AE85, 0x2001B256, 0x18C7E2A2, 0x510E527F, 0x9B05688C), 0xB5C0FBCF, 0x00000000, Vars(0xC4AC5526, 0x9CE564D0, 0x7C08884D, 0x6A09E667, 0x6FDB22FA, 0x2001B256, 0x18C7E2A2, 0x510E527F));
    RoundAt(InitVars(H0), w, 4, Vars(0xC4AC5526, 0x9CE564D0, 0x7C08884D, 0x6A09E667, 0x6FDB22FA, 0x2001B256, 0x18C7E2A2, 0x510E527F), 0xE9B5DBA5, 0x00000000, Vars(0x4C23EACB, 0xC4AC5526, 0x9CE564D0, 0x7C08884D, 0x3037E1B5, 0x6FDB22FA, 0x2001B256, 0x18C7E2A2));
    RoundAt(InitVars(H0), w, 5, Vars(0x4C23EACB, 0xC4AC5526, 0x9CE564D0, 0x7C08884D, 0x3037E1B5, 0x6FDB22FA, 0x2001B256, 0x18C7E2A2), 0x3956C25B, 0x00000000, Vars(0x4366F730, 0x4C23EACB, 0xC4AC5526, 0x9CE564D0, 0xE7D0641E, 0x3037E1B5, 0x6FDB22FA, 0x2001B256));
    RoundAt(InitVars(H0), w, 6, Vars(0x4366F730, 0x4C23EACB, 0xC4AC5526, 0x9CE564D0, 0xE7D0641E, 0x3037E1B5, 0x6FDB22FA, 0x2001B256), 0x59F111F1, 0x00000000, Vars(0x292E3B42, 0x4366F730, 0x4C23EACB, 0xC4AC5526, 0x4F6540FA, 0xE7D0641E, 0x3037E1B5, 0x6FDB22FA));
    RoundAt(InitVars(H0), w, 7, Vars(0x292E3B42, 0x4366F730, 0x4C23EACB, 0xC4AC5526, 0x4F6540FA, 0xE7D0641E, 0x3037E1B5, 0x6FDB22FA), 0x923F82A4, 0x00000000, Vars(0xF0205590, 0x292E3B42, 0x4366F730, 0x4C23EACB, 0x82EDE06F, 0x4F6540FA, 0xE7D0641E, 0x3037E1B5));
    RoundAt(InitVars(H0), w, 8, Vars(0xF0205590, 0x292E3B42, 0x4366F730, 0x4C23EACB, 0x82EDE06F, 0x4F6540FA, 0xE7D0641E, 0x3037E1B5), 0xAB1C5ED5, 0x00000000, Vars(0x7AD5B1B6, 0xF0205590, 0x292E3B42, 0x4366F730, 0x53F94DCB, 0x82EDE06F, 0x4F6540FA, 0xE7D0641E));
  }

  lemma Rounds8(w: seq<Word>)
    requires w == EmptyMessageSchedule
    ensures Rounds(InitVars(H0), w, 16) == Vars(0xB40085B5, 0xB88AFDDB, 0x45C013A7, 0x2102D2CD, 0x5CB8E863, 0x1CCFAC39, 0x2B427296, 0xCDFDFE52)
  {
    Rounds0(w);
    RoundAt(InitVars(H0), w, 9, Vars(0x7AD5B1B6, 0xF0205590, 0x292E3B42, 0x4366F730, 0x53F94DCB, 0x82EDE06F, 0x4F6540FA, 0xE7D0641E), 0xD807AA98, 0x00000000, Vars(0xF52D63A5, 0x7AD5B1B6, 0xF0205590, 0x292E3B42, 0x7AAFC618, 0x53F94DCB, 0x82EDE06F, 0x4F6540FA));
    RoundAt(InitVars(H0), w, 10, Vars(0xF52D63A5, 0x7AD5B1B6, 0xF0205590, 0x292E3B42, 0x7AAFC618, 0x53F94DCB, 0x82EDE06F, 0x4F6540FA), 0x12835B01, 0x00000000, Vars(0xEFE8BF51, 0xF52D63A5, 0x7AD5B1B6, 0xF0205590, 0x53072289, 0x7AAFC618, 0x53F94DCB, 0x82EDE06F));
    RoundAt(InitVars(H0), w, 11, Vars(0xEFE8BF51, 0xF52D63A5, 0x7AD5B1B6, 0xF0205590, 0x53072289, 0x7AAFC618, 0x53F94DCB, 0x82EDE06F), 0x243185BE, 0x00000000, Vars(0x158BB921, 0xEFE8BF51, 0xF52D63A5, 0x7AD5B1B6, 0xE23643CE, 0x53072289, 0x7AAFC618, 0x53F94DCB));
    RoundAt(InitVars(H0), w, 12, Vars(0x158BB921, 0xEFE8BF51, 0xF52D63A5, 0x7AD5B1B6, 0xE23643CE, 0x53072289, 0x7AAFC618, 0x53F94DCB), 0x550C7DC3, 0x00000000, Vars(0xF5434C40, 0x158BB921, 0xEFE8BF51, 0xF52D63A5, 0xD7E07C92, 0xE23643CE, 0x53072289, 0x7AAFC618));
    RoundAt(InitVars(H0), w, 13, Vars(0xF5434C40, 0x158BB921, 0xEFE8BF51, 0xF52D63A5, 0xD7E07C92, 0xE23643CE, 0x53072289, 0x7AAFC618), 0x72BE5D74, 0x00000000, Vars(0x2102D2CD, 0xF5434C40, 0x158BB921, 0xEFE8BF51, 0xCDFDFE52, 0xD7E07C92, 0xE23643CE, 0x53072289));
    RoundAt(InitVars(H0), w, 14, Vars(0x2102D2CD, 0xF5434C40, 0x158BB921, 0xEFE8BF51, 0xCDFDFE52, 0xD7E07C92, 0xE23643CE, 0x53072289), 0x80DEB1FE, 0x00000000, Vars(0x45C013A7, 0x2102D2CD, 0xF5434C40, 0x158BB921, 0x2B427296, 0xCDFDFE52, 0xD7E07C92, 0xE23643CE));
    RoundAt(InitVars(H0), w, 15, Vars(0x45C013A7, 0x2102D2CD, 0xF5434C40, 0x158BB921, 0x2B427296, 0xCDFDFE52, 0xD7E07C92, 0xE23643CE), 0x9BDC06A7, 0x00000000, Vars(0xB88AFDDB, 0x45C013A7, 0x2102D2CD, 0xF5434C40, 0x1CCFAC39, 0x2B427296, 0xCDFDFE52, 0xD7E07C92));
    RoundAt(InitVars(H0), w, 16, Vars(0xB88AFDDB, 0x45C013A7, 0x2102D2CD, 0xF5434C40, 0x1CCFAC39, 0x2B427296, 0xCDFDFE52, 0xD7E07C92), 0xC19BF174, 0x00000000, Vars(0xB40085B5, 0xB88AFDDB, 0x45C013A7, 0x2102D2CD, 0x5CB8E863, 0x1CCFAC39, 0x2B427296, 0xCDFDFE52));
  }

  lemma Rounds16(w: seq<Word>)
    requires w == EmptyMessageSchedule
    ensures Rounds(InitVars(H0), w, 24) == Vars(0x985BED55, 0x404D8054, 0x99A6CB19, 0x75C7F0D8, 0x2C2C028D, 0xB1653710, 0xC287981E, 0x39953CCD)
  {
    Rounds8(w);
    RoundAt(InitVars(H0), w, 17, Vars(0xB40085B5, 0xB88AFDDB, 0x45C013A7, 0x2102D2CD, 0x5CB8E863, 0x1CCFAC39, 0x2B427296, 0xCDFDFE52), 0xE49B69C1, 0x80000000, Vars(0x470D554A, 0xB40085B5, 0xB88AFDDB, 0x45C013A7, 0x70D43AA7, 0x5CB8E863, 0x1CCFAC39, 0x2B427296));
    RoundAt(InitVars(H0), w, 18, Vars(0x470D554A, 0xB40085B5, 0xB88AFDDB, 0x45C013A7, 0x70D43AA7, 0x5CB8E863, 0x1CCFAC39, 0x2B427296), 0xEFBE4786, 0x00000000, Vars(0xDD999A2B, 0x470D554A, 0xB40085B5, 0xB88AFDDB, 0x608C93D3, 0x70D43AA7, 0x5CB8E863, 0x1CCFAC39));
    RoundAt(InitVars(H0), w, 19, Vars(0xDD999A2B, 0x470D554A, 0xB40085B5, 0xB88AFDDB, 0x608C93D3, 0x70D43AA7, 0x5CB8E863, 0x1CCFAC39), 0x0FC19DC6, 0x00205000, Vars(0x3067996A, 0xDD999A2B, 0x470D554A, 0xB40085B5, 0xD398DCEA, 0x608C93D3, 0x70D43AA7, 0x5CB8E863));
    RoundAt(InitVars(H0), w, 20, Vars(0x3067996A, 0xDD999A2B, 0x470D554A, 0xB40085B5, 0xD398DCEA, 0x608C93D3, 0x70D43AA7, 0x5CB8E863), 0x240CA1CC, 0x00000000, Vars(0x0A480908, 0x3067996A, 0xDD999A2B, 0x470D554A, 0x900D27AC, 0xD398DCEA, 0x608C93D3, 0x70D43AA7));
    RoundAt(InitVars(H0), w, 21, Vars(0x0A480908, 0x3067996A, 0xDD999A2B, 0x470D554A, 0x900D27AC, 0xD398DCEA, 0x608C93D3, 0x70D43AA7), 0x2DE92C6F, 0x22000800, Vars(0x75C7F0D8, 0x0A480908, 0x3067996A, 0xDD999A2B, 0x39953CCD, 0x900D27AC, 0xD398DCEA, 0x608C93D3));
    RoundAt(InitVars(H0), w, 22, Vars(0x75C7F0D8, 0x0A480908, 0x3067996A, 0xDD999A2B, 0x39953CCD, 0x900D27AC, 0xD398DCEA, 0x608C93D3), 0x4A7484AA, 0x00000000, Vars(0x99A6CB19, 0x75C7F0D8, 0x0A480908, 0x3067996A, 0xC287981E, 0x39953CCD, 0x900D27AC, 0xD398DCEA));
    RoundAt(InitVars(H0), w, 23, Vars(0x99A6CB19, 0x75C7F0D8, 0x0A480908, 0x3067996A, 0xC287981E, 0x39953CCD, 0x900D27AC, 0xD398DCEA), 0x5CB0A9DC, 0x05089542, Vars(0x404D8054, 0x99A6CB19, 0x75C7F0D8, 0x0A480908, 0xB1653710, 0xC287981E, 0x39953CCD, 0x900D27AC));
    RoundAt(InitVars(H0), w, 24, Vars(0x404D8054, 0x99A6CB19, 0x75C7F0D8, 0x0A480908, 0xB1653710, 0xC287981E, 0x39953CCD, 0x900D27AC), 0x76F988DA, 0x80000000, Vars(0x985BED55, 0x404D8054, 0x99A6CB19, 0x75C7F0D8, 0x2C2C028D, 0xB1653710, 0xC287981E, 0x39953CCD));
  }

  lemma Rounds24(w: seq<Word>)
    requires w == EmptyMessageSchedule
    ensures Rounds(InitVars(H0), w, 32) == Vars(0x11E7025F, 0xA0BB0CDF, 0x72D3A00D, 0x64BC9E1C, 0xBBD7846C, 0x564A6626, 0xB04AB22D, 0x95696B75)
  {
    Rounds16(w);
    RoundAt(InitVars(H0), w, 25, Vars(0x985BED55, 0x404D8054, 0x99A6CB19, 0x75C7F0D8, 0x2C2C028D, 0xB1653710, 0xC287981E, 0x39953CCD), 0x983E5152, 0x58080000, Vars(0x7AF6D48D, 0x985BED55, 0x404D8054, 0x99A6CB19, 0xF55F8C25, 0x2C2C028D, 0xB1653710, 0xC287981E));
    RoundAt(InitVars(H0), w, 26, Vars(0x7AF6D48D, 0x985BED55, 0x404D8054, 0x99A6CB19, 0xF55F8C25, 0x2C2C028D, 0xB1653710, 0xC287981E), 0xA831C66D, 0x0040A000, Vars(0xC5B814AE, 0x7AF6D48D, 0x985BED55, 0x404D8054, 0xE57AC3F4, 0xF55F8C25, 0x2C2C028D, 0xB1653710));
    RoundAt(InitVars(H0), w, 27, Vars(0xC5B814AE, 0x7AF6D48D, 0x985BED55, 0x404D8054, 0xE57AC3F4, 0xF55F8C25, 0x2C2C028D, 0xB1653710), 0xB00327C8, 0x00162505, Vars(0x2C8B2AB9, 0xC5B814AE, 0x7AF6D48D, 0x985BED55, 0x9F934283, 0xE57AC3F4, 0xF55F8C25, 0x2C2C028D));
    RoundAt(InitVars(H0), w, 28, Vars(0x2C8B2AB9, 0xC5B814AE, 0x7AF6D48D, 0x985BED55, 0x9F934283, 0xE57AC3F4, 0xF55F8C25, 0x2C2C028D), 0xBF597FC7, 0x66001800, Vars(0x6D8CC697, 0x2C8B2AB9, 0xC5B814AE, 0x7AF6D48D, 0x66ED54FA, 0x9F934283, 0xE57AC3F4, 0xF55F8C25));
    RoundAt(InitVars(H0), w, 29, Vars(0x6D8CC697, 0x2C8B2AB9, 0xC5B814AE, 0x7AF6D48D, 0x66ED54FA, 0x9F934283, 0xE57AC3F4, 0xF55F8C25), 0xC6E00BF3, 0xD6222580, Vars(0x64BC9E1C, 0x6D8CC697, 0x2C8B2AB9, 0xC5B814AE, 0x95696B75, 0x66ED54FA, 0x9F934283, 0xE57AC3F4));
    RoundAt(InitVars(H0), w, 30, Vars(0x64BC9E1C, 0x6D8CC697, 0x2C8B2AB9, 0xC5B814AE, 0x95696B75, 0x66ED54FA, 0x9F934283, 0xE57AC3F4), 0xD5A79147, 0x14225508, Vars(0x72D3A00D, 0x64BC9E1C, 0x6D8CC697, 0x2C8B2AB9, 0xB04AB22D, 0x95696B75, 0x66ED54FA, 0x9F934283));
    RoundAt(InitVars(H0), w, 31, Vars(0x72D3A00D, 0x64BC9E1C, 0x6D8CC697, 0x2C8B2AB9, 0xB04AB22D, 0x95696B75, 0x66ED54FA, 0x9F934283), 0x06CA6351, 0xD645F95C, Vars(0xA0BB0CDF, 0x72D3A00D, 0x64BC9E1C, 0x6D8CC697, 0x564A6626, 0xB04AB22D, 0x95696B75, 0x66ED54FA));
    RoundAt(InitVars(H0), w, 32, Vars(0xA0BB0CDF, 0x72D3A00D, 0x64BC9E1C, 0x6D8CC697, 0x564A6626, 0xB04AB22D, 0x95696B75, 0x66ED54FA), 0x14292967, 0xC9282000, Vars(0x11E7025F, 0xA0BB0CDF, 0x72D3A00D, 0x64BC9E1C, 0xBBD7846C, 0x564A6626, 0xB04AB22D, 0x95696B75));
  }

  lemma Rounds32(w: seq<Word>)
    requires w == EmptyMessageSchedule
    ensures Rounds(InitVars(H0), w, 40) == Vars(0x499911B1, 0x9E58E42F, 0x56E3DC4E, 0xA096535D, 0x716BB025, 0x85A71424, 0xE807EA7F, 0xFAC06AED)
  {
    Rounds24(w);
    RoundAt(InitVars(H0), w, 33, Vars(0x11E7025F, 0xA0BB0CDF, 0x72D3A00D, 0x64BC9E1C, 0xBBD7846C, 0x564A6626, 0xB04AB22D, 0x95696B75), 0x27B70A85, 0xC3F10094, Vars(0xE390F3B6, 0x11E7025F, 0xA0BB0CDF, 0x72D3A00D, 0xCCD25D8B, 0xBBD7846C, 0x564A6626, 0xB04AB22D));
    RoundAt(InitVars(H0), w, 34, Vars(0xE390F3B6, 0x11E7025F, 0xA0BB0CDF, 0x72D3A00D, 0xCCD25D8B, 0xBBD7846C, 0x564A6626, 0xB04AB22D), 0x2E1B2138, 0x284CA766, Vars(0xA141B695, 0xE390F3B6, 0x11E7025F, 0xA0BB0CDF, 0x0BC457DF, 0xCCD25D8B, 0xBBD7846C, 0x564A6626));
    RoundAt(InitVars(H0), w, 35, Vars(0xA141B695, 0xE390F3B6, 0x11E7025F, 0xA0BB0CDF, 0x0BC457DF, 0xCCD25D8B, 0xBBD7846C, 0x564A6626), 0x4D2C6DFC, 0x06886DC6, Vars(0x44A181A7, 0xA141B695, 0xE390F3B6, 0x11E7025F, 0x6973AAC2, 0x0BC457DF, 0xCCD25D8B, 0xBBD7846C));
    RoundAt(InitVars(H0), w, 36, Vars(0x44A181A7, 0xA141B695, 0xE390F3B6, 0x11E7025F, 0x6973AAC2, 0x0BC457DF, 0xCCD25D8B, 0xBBD7846C), 0x53380D13, 0xA37BF116, Vars(0x641FE878, 0x44A181A7, 0xA141B695, 0xE390F3B6, 0x3A705EA9, 0x6973AAC2, 0x0BC457DF, 0xCCD25D8B));
    RoundAt(InitVars(H0), w, 37, Vars(0x641FE878, 0x44A181A7, 0xA141B695, 0xE390F3B6, 0x3A705EA9, 0x6973AAC2, 0x0BC457DF, 0xCCD25D8B), 0x650A7354, 0x717CBE96, Vars(0xA096535D, 0x641FE878, 0x44A181A7, 0xA141B695, 0xFAC06AED, 0x3A705EA9, 0x6973AAC2, 0x0BC457DF));
    RoundAt(InitVars(H0), w, 38, Vars(0xA096535D, 0x641FE878, 0x44A181A7, 0xA141B695, 0xFAC06AED, 0x3A705EA9, 0x6973AAC2, 0x0BC457DF), 0x766A0ABB, 0xFEC2D74A, Vars(0x56E3DC4E, 0xA096535D, 0x641FE878, 0x44A181A7, 0xE807EA7F, 0xFAC06AED, 0x3A705EA9, 0x6973AAC2));
    RoundAt(InitVars(H0), w, 39, Vars(0x56E3DC4E, 0xA096535D, 0x641FE878, 0x44A181A7, 0xE807EA7F, 0xFAC06AED, 0x3A705EA9, 0x6973AAC2), 0x81C2C92E, 0xA7B67F00, Vars(0x9E58E42F, 0x56E3DC4E, 0xA096535D, 0x641FE878, 0x85A71424, 0xE807EA7F, 0xFAC06AED, 0x3A705EA9));
    RoundAt(InitVars(H0), w, 40, Vars(0x9E58E42F, 0x56E3DC4E, 0xA096535D, 0x641FE878, 0x85A71424, 0xE807EA7F, 0xFAC06AED, 0x3A705EA9), 0x92722C85, 0x811596A2, Vars(0x499911B1, 0x9E58E42F, 0x56E3DC4E, 0xA096535D, 0x716BB025, 0x85A71424, 0xE807EA7F, 0xFAC06AED));
  }

  lemma Rounds40(w: seq<Word>)
    requires w == EmptyMessageSchedule
    ensures Rounds(InitVars(H0), w, 48) == Vars(0x365A34CD, 0x54982D6C, 0x32FA442B, 0xA40972D4, 0xCBB3F8EB, 0x8A6A82B2, 0xD285C679, 0xAA2C1810)
  {
    Rounds32(w);
    RoundAt(InitVars(H0), w, 41, Vars(0x499911B1, 0x9E58E42F, 0x56E3DC4E, 0xA096535D, 0x716BB025, 0x85A71424, 0xE807EA7F, 0xFAC06AED), 0xA2BFE8A1, 0x98A6E768, Vars(0xFE86C833, 0x499911B1, 0x9E58E42F, 0x56E3DC4E, 0x849879DF, 0x716BB025, 0x85A71424, 0xE807EA7F));
    RoundAt(InitVars(H0), w, 42, Vars(0xFE86C833, 0x499911B1, 0x9E58E42F, 0x56E3DC4E, 0x849879DF, 0x716BB025, 0x85A71424, 0xE807EA7F), 0xA81A664B, 0x03B20C82, Vars(0x2298F88E, 0xFE86C833, 0x499911B1, 0x9E58E42F, 0xF5C58AE9, 0x849879DF, 0x716BB025, 0x85A71424));
    RoundAt(InitVars(H0), w, 43, Vars(0x2298F88E, 0xFE86C833, 0x499911B1, 0x9E58E42F, 0xF5C58AE9, 0x849879DF, 0x716BB025, 0x85A71424), 0xC24B8B70, 0x5D1DA7C9, Vars(0xDBB545AB, 0x2298F88E, 0xFE86C833, 0x499911B1, 0xE0403EB9, 0xF5C58AE9, 0x849879DF, 0x716BB025));
    RoundAt(InitVars(H0), w, 44, Vars(0xDBB545AB, 0x2298F88E, 0xFE86C833, 0x499911B1, 0xE0403EB9, 0xF5C58AE9, 0x849879DF, 0x716BB025), 0xC76C51A3, 0xB156B935, Vars(0xE8E34752, 0xDBB545AB, 0x2298F88E, 0xFE86C833, 0x29426CAA, 0xE0403EB9, 0xF5C58AE9, 0x849879DF));
    RoundAt(InitVars(H0), w, 45, Vars(0xE8E34752, 0xDBB545AB, 0x2298F88E, 0xFE86C833, 0x29426CAA, 0xE0403EB9, 0xF5C58AE9, 0x849879DF), 0xD192E819, 0xC3DDCA11, Vars(0xA40972D4, 0xE8E34752, 0xDBB545AB, 0x2298F88E, 0xAA2C1810, 0x29426CAA, 0xE0403EB9, 0xF5C58AE9));
    RoundAt(InitVars(H0), w, 46, Vars(0xA40972D4, 0xE8E34752, 0xDBB545AB, 0x2298F88E, 0xAA2C1810, 0x29426CAA, 0xE0403EB9, 0xF5C58AE9), 0xD6990624, 0x249C107F, Vars(0x32FA442B, 0xA40972D4, 0xE8E34752, 0xDBB545AB, 0xD285C679, 0xAA2C1810, 0x29426CAA, 0xE0403EB9));
    RoundAt(InitVars(H0), w, 47, Vars(0x32FA442B, 0xA40972D4, 0xE8E34752, 0xDBB545AB, 0xD285C679, 0xAA2C1810, 0x29426CAA, 0xE0403EB9), 0xF40E3585, 0xC48D24EF, Vars(0x54982D6C, 0x32FA442B, 0xA40972D4, 0xE8E34752, 0x8A6A82B2, 0xD285C679, 0xAA2C1810, 0x29426CAA));
    RoundAt(InitVars(H0), w, 48, Vars(0x54982D6C, 0x32FA442B, 0xA40972D4, 0xE8E34752, 0x8A6A82B2, 0xD285C679, 0xAA2C1810, 0x29426CAA), 0x106AA070, 0x5DE54C30, Vars(0x365A34CD, 0x54982D6C, 0x32FA442B, 0xA40972D4, 0xCBB3F8EB, 0x8A6A82B2, 0xD285C679, 0xAA2C1810));
  }

  lemma Rounds48(w: seq<Word>)
    requires w == EmptyMessageSchedule
    ensures Rounds(InitVars(H0), w, 56) == Vars(0x01638014, 0x2CAF58CA, 0x3A0E9477, 0xB1B29C90, 0xADF94E0A, 0xE588E598, 0xFD99936E, 0x43A5DEF8)
  {
    Rounds40(w);
    RoundAt(InitVars(H0), w, 49, Vars(0x365A34CD, 0x54982D6C, 0x32FA442B, 0xA40972D4, 0xCBB3F8EB, 0x8A6A82B2, 0xD285C679, 0xAA2C1810), 0x19A4C116, 0xDEFECE65, Vars(0x62A82A5E, 0x365A34CD, 0x54982D6C, 0x32FA442B, 0x4CAB6D8A, 0xCBB3F8EB, 0x8A6A82B2, 0xD285C679));
    RoundAt(InitVars(H0), w, 50, Vars(0x62A82A5E, 0x365A34CD, 0x54982D6C, 0x32FA442B, 0x4CAB6D8A, 0xCBB3F8EB, 0x8A6A82B2, 0xD285C679), 0x1E376C08, 0x2CA1480D, Vars(0x9798F5ED, 0x62A82A5E, 0x365A34CD, 0x54982D6C, 0xE90AA770, 0x4CAB6D8A, 0xCBB3F8EB, 0x8A6A82B2));
    RoundAt(InitVars(H0), w, 51, Vars(0x9798F5ED, 0x62A82A5E, 0x365A34CD, 0x54982D6C, 0xE90AA770, 0x4CAB6D8A, 0xCBB3F8EB, 0x8A6A82B2), 0x2748774C, 0x3C15332C, Vars(0xC163CB21, 0x9798F5ED, 0x62A82A5E, 0x365A34CD, 0x36068BDE, 0xE90AA770, 0x4CAB6D8A, 0xCBB3F8EB));
    RoundAt(InitVars(H0), w, 52, Vars(0xC163CB21, 0x9798F5ED, 0x62A82A5E, 0x365A34CD, 0x36068BDE, 0xE90AA770, 0x4CAB6D8A, 0xCBB3F8EB), 0x34B0BCB5, 0x01CEC9AD, Vars(0xD55E06C2, 0xC163CB21, 0x9798F5ED, 0x62A82A5E, 0xA194D14F, 0x36068BDE, 0xE90AA770, 0x4CAB6D8A));
    RoundAt(InitVars(H0), w, 53, Vars(0xD55E06C2, 0xC163CB21, 0x9798F5ED, 0x62A82A5E, 0xA194D14F, 0x36068BDE, 0xE90AA770, 0x4CAB6D8A), 0x391C0CB3, 0x160CCCD0, Vars(0xB1B29C90, 0xD55E06C2, 0xC163CB21, 0x9798F5ED, 0x43A5DEF8, 0xA194D14F, 0x36068BDE, 0xE90AA770));
    RoundAt(InitVars(H0), w, 54, Vars(0xB1B29C90, 0xD55E06C2, 0xC163CB21, 0x9798F5ED, 0x43A5DEF8, 0xA194D14F, 0x36068BDE, 0xE90AA770), 0x4ED8AA4A, 0x0BACDA98, Vars(0x3A0E9477, 0xB1B29C90, 0xD55E06C2, 0xC163CB21, 0xFD99936E, 0x43A5DEF8, 0xA194D14F, 0x36068BDE));
    RoundAt(InitVars(H0), w, 55, Vars(0x3A0E9477, 0xB1B29C90, 0xD55E06C2, 0xC163CB21, 0xFD99936E, 0x43A5DEF8, 0xA194D14F, 0x36068BDE), 0x5B9CCA4F, 0x361B8FE0, Vars(0x2CAF58CA, 0x3A0E9477, 0xB1B29C90, 0xD55E06C2, 0xE588E598, 0xFD99936E, 0x43A5DEF8, 0xA194D14F));
    RoundAt(InitVars(H0), w, 56, Vars(0x2CAF58CA, 0x3A0E9477, 0xB1B29C90, 0xD55E06C2, 0xE588E598, 0xFD99936E, 0x43A5DEF8, 0xA194D14F), 0x682E6FF3, 0xD2320BA6, Vars(0x01638014, 0x2CAF58CA, 0x3A0E9477, 0xB1B29C90, 0xADF94E0A, 0xE588E598, 0xFD99936E, 0x43A5DEF8));
  }

  lemma Rounds56(w: seq<Word>)
    requires w == EmptyMessageSchedule
    ensures Rounds(InitVars(H0), w, 64) == Vars(0x79A6DDDB, 0xDD946D8F, 0x5E8D0156, 0xF41FC3EA, 0xD69FEF65, 0xC9962AC0, 0x8511BF70, 0x1C71EB3C)
  {
    Rounds48(w);
    RoundAt(InitVars(H0), w, 57, Vars(0x01638014, 0x2CAF58CA, 0x3A0E9477, 0xB1B29C90, 0xADF94E0A, 0xE588E598, 0xFD99936E, 0x43A5DEF8), 0x748F82EE, 0x029B7007, Vars(0x7EC75212, 0x01638014, 0x2CAF58CA, 0x3A0E9477, 0x7951A330, 0xADF94E0A, 0xE588E598, 0xFD99936E));
    RoundAt(InitVars(H0), w, 58, Vars(0x7EC75212, 0x01638014, 0x2CAF58CA, 0x3A0E9477, 0x7951A330, 0xADF94E0A, 0xE588E598, 0xFD99936E), 0x78A5636F, 0x7546587C, Vars(0xE7EC45BC, 0x7EC75212, 0x01638014, 0x2CAF58CA, 0xE2A91EDC, 0x7951A330, 0xADF94E0A, 0xE588E598));
    RoundAt(InitVars(H0), w, 59, Vars(0xE7EC45BC, 0x7EC75212, 0x01638014, 0x2CAF58CA, 0xE2A91EDC, 0x7951A330, 0xADF94E0A, 0xE588E598), 0x84C87814, 0x07F54F39, Vars(0xE923ABC6, 0xE7EC45BC, 0x7EC75212, 0x01638014, 0x08E0E6EA, 0xE2A91EDC, 0x7951A330, 0xADF94E0A));
    RoundAt(InitVars(H0), w, 60, Vars(0xE923ABC6, 0xE7EC45BC, 0x7EC75212, 0x01638014, 0x08E0E6EA, 0xE2A91EDC, 0x7951A330, 0xADF94E0A), 0x8CC70208, 0xF808DDC3, Vars(0x04441C0E, 0xE923ABC6, 0xE7EC45BC, 0x7EC75212, 0xAAEFA044, 0x08E0E6EA, 0xE2A91EDC, 0x7951A330));
    RoundAt(InitVars(H0), w, 61, Vars(0x04441C0E, 0xE923ABC6, 0xE7EC45BC, 0x7EC75212, 0xAAEFA044, 0x08E0E6EA, 0xE2A91EDC, 0x7951A330), 0x90BEFFFA, 0xDCCA7608, Vars(0xF41FC3EA, 0x04441C0E, 0xE923ABC6, 0xE7EC45BC, 0x1C71EB3C, 0xAAEFA044, 0x08E0E6EA, 0xE2A91EDC));
    RoundAt(InitVars(H0), w, 62, Vars(0xF41FC3EA, 0x04441C0E, 0xE923ABC6, 0xE7EC45BC, 0x1C71EB3C, 0xAAEFA044, 0x08E0E6EA, 0xE2A91EDC), 0xA4506CEB, 0x5E427188, Vars(0x5E8D0156, 0xF41FC3EA, 0x04441C0E, 0xE923ABC6, 0x8511BF70, 0x1C71EB3C, 0xAAEFA044, 0x08E0E6EA));
    RoundAt(InitVars(H0), w, 63, Vars(0x5E8D0156, 0xF41FC3EA, 0x04441C0E, 0xE923ABC6, 0x8511BF70, 0x1C71EB3C, 0xAAEFA044, 0x08E0E6EA), 0xBEF9A3F7, 0x44BCEC5D, Vars(0xDD946D8F, 0x5E8D0156, 0xF41FC3EA, 0x04441C0E, 0xC9962AC0, 0x8511BF70, 0x1C71EB3C, 0xAAEFA044));
    RoundAt(InitVars(H0), w, 64, Vars(0xDD946D8F, 0x5E8D0156, 0xF41FC3EA, 0x04441C0E, 0xC9962AC0, 0x8511BF70, 0x1C71EB3C, 0xAAEFA044), 0xC67178F2, 0x3B5EC49B, Vars(0x79A6DDDB, 0xDD946D8F, 0x5E8D0156, 0xF41FC3EA, 0xD69FEF65, 0xC9962AC0, 0x8511BF70, 0x1C71EB3C));
  }

  lemma Compressed(b: seq<Byte>)
    requires b == EmptyMessageBlock
    ensures Compress(H0, b) == [0xE3B0C442, 0x98FC1C14, 0x9AFBF4C8, 0x996FB924, 0x27AE41E4, 0x649B934C, 0xA495991B, 0x7852B855]
  {
    ScheduleIs(b);
    Rounds56(Schedule(b));
  }

  lemma Digested(hv: seq<Word>)
    requires hv == [0xE3B0C442, 0x98FC1C14, 0x9AFBF4C8, 0x996FB924, 0x27AE41E4, 0x649B934C, 0xA495991B, 0x7852B855]
    ensures Digest(hv) ==
      [0xE3, 0xB0, 0xC4, 0x42, 0x98, 0xFC, 0x1C, 0x14, 0x9A, 0xFB, 0xF4, 0xC8, 0x99, 0x6F, 0xB9, 0x24] +
      [0x27, 0xAE, 0x41, 0xE4, 0x64, 0x9B, 0x93, 0x4C, 0xA4, 0x95, 0x99, 0x1B, 0x78, 0x52, 0xB8, 0x55]
  {
  }

  /** SHA-256 of the empty message. */
  lemma EmptyMessage(m: seq<Byte>)
    requires m == []
    ensures Hash(m) ==
      [0xE3, 0xB0, 0xC4, 0x42, 0x98, 0xFC, 0x1C, 0x14, 0x9A, 0xFB, 0xF4, 0xC8, 0x99, 0x6F, 0xB9, 0x24] +
      [0x27, 0xAE, 0x41, 0xE4, 0x64, 0x9B, 0x93, 0x4C, 0xA4, 0x95, 0x99, 0x1B, 0x78, 0x52, 0xB8, 0x55]
  {
    Padding(m);
    SingleBlockHash(m, EmptyMessageBlock);
    Compressed(EmptyMessageBlock);
    Digested(Compress(H0, EmptyMessageBlock));
  }
}

/** SHA-256 of "abc" (FIPS 180-4, appendix B.1), the hasher's second test. */
module AbcMessageVector {
  import opened Fips180
  import opened Sha256Vectors

  /** The single padded block of the message. */
  const AbcMessageBlock: seq<Byte> :=
    [0x61, 0x62, 0x63] + [0x80] + seq(52, _ => 0) + [0x00, 0x00, 0x00, 0x00, 0x00, 0x00, 0x00, 0x18]

  /** The message schedule of that block. */
  const AbcMessageSchedule: seq<Word> :=
    [0x61626380, 0x00000000, 0x00000000, 0x00000000, 0x00000000, 0x00000000, 0x00000000, 0x00000000] +
    [0x00000000, 0x00000000, 0x00000000, 0x00000000, 0x00000000, 0x00000000, 0x00000000, 0x00000018] +
    [0x61626380, 0x000F0000, 0x7DA86405, 0x600003C6, 0x3E9D7B78, 0x0183FC00, 0x12DCBFDB, 0xE2E2C38E] +
    [0xC8215C1A, 0xB73679A2, 0xE5BC3909, 0x32663C5B, 0x9D209D67, 0xEC8726CB, 0x702138A4, 0xD3B7973B] +
    [0x93F5997F, 0x3B68BA73, 0xAFF4FFC1, 0xF10A5C62, 0x0A8B3996, 0x72AF830A, 0x9409E33E, 0x24641522] +
    [0x9F47BF94, 0xF0A64F5A, 0x3E246A79, 0x27333BA3, 0x0C4763F2, 0x840ABF27, 0x7A290D5D, 0x065C43DA] +
    [0xFB3E89CB, 0xCC7617DB, 0xB9E66C34, 0xA9993667, 0x84BADEDD, 0xC21462BC, 0x1487472C, 0xB20F7A99] +
    [0xEF57B9CD, 0xEBE6B238, 0x9FE3095E, 0x78BC8D4B, 0xA43FCF15, 0x668B2FF8, 0xEEABA2CC, 0x12B1EDEB]

  lemma Padding(m: seq<Byte>)
    requires m == [0x61, 0x62, 0x63]
    ensures Pad(m) == AbcMessageBlock
  {
    assert ZeroCount(|m|) == 52;
    BigEndianSmall((|m| * 8) % 0x1_0000_0000_0000_0000, 8);
  }


  lemma MessageWords0(b: seq<Byte>, s: seq<Word>)
    requires b == AbcMessageBlock && s == AbcMessageSchedule
    ensures forall t | 0 <= t < 4 :: s[t] == WordAt(b, t)
  {
    assert s[0] == WordAt(b, 0);
    assert s[1] == WordAt(b, 1);
    assert s[2] == WordAt(b, 2);
    assert s[3] == WordAt(b, 3);
  }

  lemma MessageWords4(b: seq<Byte>, s: seq<Word>)
    requires b == AbcMessageBlock && s == AbcMessageSchedule
    ensures forall t | 4 <= t < 8 :: s[t] == WordAt(b, t)
  {
    assert s[4] == WordAt(b, 4);
    assert s[5] == WordAt(b, 5);
    assert s[6] == WordAt(b, 6);
    assert s[7] == WordAt(b, 7);
  }

  lemma MessageWords8(b: seq<Byte>, s: seq<Word>)
    requires b == AbcMessageBlock && s == AbcMessageSchedule
    ensures forall t | 8 <= t < 12 :: s[t] == WordAt(b, t)
  {
    assert s[8] == WordAt(b, 8);
    assert s[9] == WordAt(b, 9);
    assert s[10] == WordAt(b, 10);
    assert s[11] == WordAt(b, 11);
  }

  lemma MessageWords12(b: seq<Byte>, s: seq<Word>)
    requires b == AbcMessageBlock && s == AbcMessageSchedule
    ensures forall t | 12 <= t < 16 :: s[t] == WordAt(b, t)
  {
    assert s[12] == WordAt(b, 12);
    assert s[13] == WordAt(b, 13);
    assert s[14] == WordAt(b, 14);
    assert s[15] == WordAt(b, 15);
  }

  lemma Step16(s: seq<Word>)
    requires s == AbcMessageSchedule
    ensures ScheduleStep(s, 16)
  {
  }

  lemma Step17(s: seq<Word>)
    requires s == AbcMessageSchedule
    ensures ScheduleStep(s, 17)
  {
  }

  lemma StepsFrom16(s: seq<Word>)
    requires s == AbcMessageSchedule
    ensures StepsFrom(s, 16)
  {
    StepsFrom24(s);
    Step23(s);
    assert StepsFrom(s, 23);
    Step22(s);
    assert StepsFrom(s, 22);
    Step21(s);
    assert StepsFrom(s, 21);
    Step20(s);
    assert StepsFrom(s, 20);
    Step19(s);
    assert StepsFrom(s, 19);
    Step18(s);
    assert StepsFrom(s, 18);
    Step17(s);
    assert StepsFrom(s, 17);
    Step16(s);
    assert StepsFrom(s, 16);
  }

  lemma Step18(s: seq<Word>)
    requires s == AbcMessageSchedule
    ensures ScheduleStep(s, 18)
  {
  }

  lemma Step19(s: seq<Word>)
    requires s == AbcMessageSchedule
    ensures ScheduleStep(s, 19)
  {
  }

  lemma Step20(s: seq<Word>)
    requires s == AbcMessageSchedule
    ensures ScheduleStep(s, 20)
  {
  }

  lemma Step21(s: seq<Word>)
    requires s == AbcMessageSchedule
    ensures ScheduleStep(s, 21)
  {
  }

  lemma Step22(s: seq<Word>)
    requires s == AbcMessageSchedule
    ensures ScheduleStep(s, 22)
  {
  }

  lemma Step23(s: seq<Word>)
    requires s == AbcMessageSchedule
    ensures ScheduleStep(s, 23)
  {
  }

  lemma Step24(s: seq<Word>)
    requires s == AbcMessageSchedule
    ensures ScheduleStep(s, 24)
  {
  }

  lemma Step25(s: seq<Word>)
    requires s == AbcMessageSchedule
    ensures ScheduleStep(s, 25)
  {
  }

  lemma StepsFrom24(s: seq<Word>)
    requires s == AbcMessageSchedule
    ensures StepsFrom(s, 24)
  {
    StepsFrom32(s);
    Step31(s);
    assert StepsFrom(s, 31);
    Step30(s);
    assert StepsFrom(s, 30);
    Step29(s);
    assert StepsFrom(s, 29);
    Step28(s);
    assert StepsFrom(s, 28);
    Step27(s);
    assert StepsFrom(s, 27);
    Step26(s);
    assert StepsFrom(s, 26);
    Step25(s);
    assert StepsFrom(s, 25);
    Step24(s);
    assert StepsFrom(s, 24);
  }

  lemma Step26(s: seq<Word>)
    requires s == AbcMessageSchedule
    ensures ScheduleStep(s, 26)
  {
  }

  lemma Step27(s: seq<Word>)
    requires s == AbcMessageSchedule
    ensures ScheduleStep(s, 27)
  {
  }

  lemma Step28(s: seq<Word>)
    requires s == AbcMessageSchedule
    ensures ScheduleStep(s, 28)
  {
  }

  lemma Step29(s: seq<Word>)
    requires s == AbcMessageSchedule
    ensures ScheduleStep(s, 29)
  {
  }

  lemma Step30(s: seq<Word>)
    requires s == AbcMessageSchedule
    ensures ScheduleStep(s, 30)
  {
  }

  lemma Step31(s: seq<Word>)
    requires s == AbcMessageSchedule
    ensures ScheduleStep(s, 31)
  {
  }

  lemma Step32(s: seq<Word>)
    requires s == AbcMessageSchedule
    ensures ScheduleStep(s, 32)
  {
  }

  lemma Step33(s: seq<Word>)
    requires s == AbcMessageSchedule
    ensures ScheduleStep(s, 33)
  {
  }

  lemma StepsFrom32(s: seq<Word>)
    requires s == AbcMessageSchedule
    ensures StepsFrom(s, 32)
  {
    StepsFrom40(s);
    Step39(s);
    assert StepsFrom(s, 39);
    Step38(s);
    assert StepsFrom(s, 38);
    Step37(s);
    assert StepsFrom(s, 37);
    Step36(s);
    assert StepsFrom(s, 36);
    Step35(s);
    assert StepsFrom(s, 35);
    Step34(s);
    assert StepsFrom(s, 34);
    Step33(s);
    assert StepsFrom(s, 33);
    Step32(s);
    assert StepsFrom(s, 32);
  }

  lemma Step34(s: seq<Word>)
    requires s == AbcMessageSchedule
    ensures ScheduleStep(s, 34)
  {
  }

  lemma Step35(s: seq<Word>)
    requires s == AbcMessageSchedule
    ensures ScheduleStep(s, 35)
  {
  }

  lemma Step36(s: seq<Word>)
    requires s == AbcMessageSchedule
    ensures ScheduleStep(s, 36)
  {
  }

  lemma Step37(s: seq<Word>)
    requires s == AbcMessageSchedule
    ensures ScheduleStep(s, 37)
  {
  }

  lemma Step38(s: seq<Word>)
    requires s == AbcMessageSchedule
    ensures ScheduleStep(s, 38)
  {
  }

  lemma Step39(s: seq<Word>)
    requires s == AbcMessageSchedule
    ensures ScheduleStep(s, 39)
  {
  }

  lemma Step40(s: seq<Word>)
    requires s == AbcMessageSchedule
    ensures ScheduleStep(s, 40)
  {
  }

  lemma Step41(s: seq<Word>)
    requires s == AbcMessageSchedule
    ensures ScheduleStep(s, 41)
  {
  }

  lemma StepsFrom40(s: seq<Word>)
    requires s == AbcMessageSchedule
    ensures StepsFrom(s, 40)
  {
    StepsFrom48(s);
    Step47(s);
    assert StepsFrom(s, 47);
    Step46(s);
    assert StepsFrom(s, 46);
    Step45(s);
    assert StepsFrom(s, 45);
    Step44(s);
    assert StepsFrom(s, 44);
    Step43(s);
    assert StepsFrom(s, 43);
    Step42(s);
    assert StepsFrom(s, 42);
    Step41(s);
    assert StepsFrom(s, 41);
    Step40(s);
    assert StepsFrom(s, 40);
  }

  lemma Step42(s: seq<Word>)
    requires s == AbcMessageSchedule
    ensures ScheduleStep(s, 42)
  {
  }

  lemma Step43(s: seq<Word>)
    requires s == AbcMessageSchedule
    ensures ScheduleStep(s, 43)
  {
  }

  lemma Step44(s: seq<Word>)
    requires s == AbcMessageSchedule
    ensures ScheduleStep(s, 44)
  {
  }

  lemma Step45(s: seq<Word>)
    requires s == AbcMessageSchedule
    ensures ScheduleStep(s, 45)
  {
  }

  lemma Step46(s: seq<Word>)
    requires s == AbcMessageSchedule
    ensures ScheduleStep(s, 46)
  {
  }

  lemma Step47(s: seq<Word>)
    requires s == AbcMessageSchedule
    ensures ScheduleStep(s, 47)
  {
  }

  lemma Step48(s: seq<Word>)
    requires s == AbcMessageSchedule
    ensures ScheduleStep(s, 48)
  {
  }

  lemma Step49(s: seq<Word>)
    requires s == AbcMessageSchedule
    ensures ScheduleStep(s, 49)
  {
  }

  lemma StepsFrom48(s: seq<Word>)
    requires s == AbcMessageSchedule
    ensures StepsFrom(s, 48)
  {
    StepsFrom56(s);
    Step55(s);
    assert StepsFrom(s, 55);
    Step54(s);
    assert StepsFrom(s, 54);
    Step53(s);
    assert StepsFrom(s, 53);
    Step52(s);
    assert StepsFrom(s, 52);
    Step51(s);
    assert StepsFrom(s, 51);
    Step50(s);
    assert StepsFrom(s, 50);
    Step49(s);
    assert StepsFrom(s, 49);
    Step48(s);
    assert StepsFrom(s, 48);
  }

  lemma Step50(s: seq<Word>)
    requires s == AbcMessageSchedule
    ensures ScheduleStep(s, 50)
  {
  }

  lemma Step51(s: seq<Word>)
    requires s == AbcMessageSchedule
    ensures ScheduleStep(s, 51)
  {
  }

  lemma Step52(s: seq<Word>)
    requires s == AbcMessageSchedule
    ensures ScheduleStep(s, 52)
  {
  }

  lemma Step53(s: seq<Word>)
    requires s == AbcMessageSchedule
    ensures ScheduleStep(s, 53)
  {
  }

  lemma Step54(s: seq<Word>)
    requires s == AbcMessageSchedule
    ensures ScheduleStep(s, 54)
  {
  }

  lemma Step55(s: seq<Word>)
    requires s == AbcMessageSchedule
    ensures ScheduleStep(s, 55)
  {
  }

  lemma Step56(s: seq<Word>)
    requires s == AbcMessageSchedule
    ensures ScheduleStep(s, 56)
  {
  }

  lemma Step57(s: seq<Word>)
    requires s == AbcMessageSchedule
    ensures ScheduleStep(s, 57)
  {
  }

  lemma StepsFrom56(s: seq<Word>)
    requires s == AbcMessageSchedule
    ensures StepsFrom(s, 56)
  {
    assert StepsFrom(s, 64);
    Step63(s);
    assert StepsFrom(s, 63);
    Step62(s);
    assert StepsFrom(s, 62);
    Step61(s);
    assert StepsFrom(s, 61);
    Step60(s);
    assert StepsFrom(s, 60);
    Step59(s);
    assert StepsFrom(s, 59);
    Step58(s);
    assert StepsFrom(s, 58);
    Step57(s);
    assert StepsFrom(s, 57);
    Step56(s);
    assert StepsFrom(s, 56);
  }

  lemma Step58(s: seq<Word>)
    requires s == AbcMessageSchedule
    ensures ScheduleStep(s, 58)
  {
  }

  lemma Step59(s: seq<Word>)
    requires s == AbcMessageSchedule
    ensures ScheduleStep(s, 59)
  {
  }

  lemma Step60(s: seq<Word>)
    requires s == AbcMessageSchedule
    ensures ScheduleStep(s, 60)
  {
  }

  lemma Step61(s: seq<Word>)
    requires s == AbcMessageSchedule
    ensures ScheduleStep(s, 61)
  {
  }

  lemma Step62(s: seq<Word>)
    requires s == AbcMessageSchedule
    ensures ScheduleStep(s, 62)
  {
  }

  lemma Step63(s: seq<Word>)
    requires s == AbcMessageSchedule
    ensures ScheduleStep(s, 63)
  {
  }

  lemma ScheduleIs(b: seq<Byte>)
    requires b == AbcMessageBlock
    ensures Schedule(b) == AbcMessageSchedule
  {
    var s := AbcMessageSchedule;
    MessageWords0(b, s);
    MessageWords4(b, s);
    MessageWords8(b, s);
    MessageWords12(b, s);
    StepsFrom16(s);
    ScheduleMatches(b, s);
  }

  lemma Rounds0(w: seq<Word>)
    requires w == AbcMessageSchedule
    ensures Rounds(InitVars(H0), w, 8) == Vars(0x85A07B5F, 0xE5030380, 0x2B4209F5, 0x04409A6A, 0x0C657A79, 0x9B27A401, 0x714260AD, 0x43ADA245)
  {
    assert Rounds(InitVars(H0), w, 0) == Vars(0x6A09E667, 0xBB67AE85, 0x3C6EF372, 0xA54FF53A, 0x510E527F, 0x9B05688C, 0x1F83D9AB, 0x5BE0CD19);
    RoundAt(InitVars(H0), w, 1, Vars(0x6A09E667, 0xBB67AE85, 0x3C6EF372, 0xA54FF53A, 0x510E527F, 0x9B05688C, 0x1F83D9AB, 0x5BE0CD19), 0x428A2F98, 0x61626380, Vars(0x5D6AEBCD, 0x6A09E667, 0xBB67AE85, 0x3C6EF372, 0xFA2A4622, 0x510E527F, 0x9B05688C, 0x1F83D9AB));
    RoundAt(InitVars(H0), w, 2, Vars(0x5D6AEBCD, 0x6A09E667, 0xBB67AE85, 0x3C6EF372, 0xFA2A4622, 0x510E527F, 0x9B05688C, 0x1F83D9AB), 0x71374491, 0x00000000, Vars(0x5A6AD9AD, 0x5D6AEBCD, 0x6A09E667, 0xBB67AE85, 0x78CE7989, 0xFA2A4622, 0x510E527F, 0x9B05688C));
    RoundAt(InitVars(H0), w, 3, Vars(0x5A6AD9AD, 0x5D6AEBCD, 0x6A09E667, 0xBB67AE85, 0x78CE7989, 0xFA2A4622, 0x510E527F, 0x9B05688C), 0xB5C0FBCF, 0x00000000, Vars(0xC8C347A7, 0x5A6AD9AD, 0x5D6AEBCD, 0x6A09E667, 0xF92939EB, 0x78CE7989, 0xFA2A4622, 0x510E527F));
    RoundAt(InitVars(H0), w, 4, Vars(0xC8C347A7, 0x5A6AD9AD, 0x5D6AEBCD, 0x6A09E667, 0xF92939EB, 0x78CE7989, 0xFA2A4622, 0x510E527F), 0xE9B5DBA5, 0x00000000, Vars(0xD550F666, 0xC8C347A7, 0x5A6AD9AD, 0x5D6AEBCD, 0x24E00850, 0xF92939EB, 0x78CE7989, 0xFA2A4622));
    RoundAt(InitVars(H0), w, 5, Vars(0xD550F666, 0xC8C347A7, 0x5A6AD9AD, 0x5D6AEBCD, 0x24E00850, 0xF92939EB, 0x78CE7989, 0xFA2A4622), 0x3956C25B, 0x00000000, Vars(0x04409A6A, 0xD550F666, 0xC8C347A7, 0x5A6AD9AD, 0x43ADA245, 0x24E00850, 0xF92939EB, 0x78CE7989));
    RoundAt(InitVars(H0), w, 6, Vars(0x04409A6A, 0xD550F666, 0xC8C347A7, 0x5A6AD9AD, 0x43ADA245, 0x24E00850, 0xF92939EB, 0x78CE7989), 0x59F111F1, 0x00000000, Vars(0x2B4209F5, 0x04409A6A, 0xD550F666, 0xC8C347A7, 0x714260AD, 0x43ADA245, 0x24E00850, 0xF92939EB));
    RoundAt(InitVars(H0), w, 7, Vars(0x2B4209F5, 0x04409A6A, 0xD550F666, 0xC8C347A7, 0x714260AD, 0x43ADA245, 0x24E00850, 0xF92939EB), 0x923F82A4, 0x00000000, Vars(0xE5030380, 0x2B4209F5, 0x04409A6A, 0xD550F666, 0x9B27A401, 0x714260AD, 0x43ADA245, 0x24E00850));
    RoundAt(InitVars(H0), w, 8, Vars(0xE5030380, 0x2B4209F5, 0x04409A6A, 0xD550F666, 0x9B27A401, 0x714260AD, 0x43ADA245, 0x24E00850), 0xAB1C5ED5, 0x00000000, Vars(0x85A07B5F, 0xE5030380, 0x2B4209F5, 0x04409A6A, 0x0C657A79, 0x9B27A401, 0x714260AD, 0x43ADA245));
  }

  lemma Rounds8(w: seq<Word>)
    requires w == AbcMessageSchedule
    ensures Rounds(InitVars(H0), w, 16) == Vars(0xB0FA238E, 0xC0645FDE, 0xD932EB16, 0x87912990, 0x07590DCD, 0x0B92F20C, 0x745A48DE, 0x1E578218)
  {
    Rounds0(w);
    RoundAt(InitVars(H0), w, 9, Vars(0x85A07B5F, 0xE5030380, 0x2B4209F5, 0x04409A6A, 0x0C657A79, 0x9B27A401, 0x714260AD, 0x43ADA245), 0xD807AA98, 0x00000000, Vars(0x8E04ECB9, 0x85A07B5F, 0xE5030380, 0x2B4209F5, 0x32CA2D8C, 0x0C657A79, 0x9B27A401, 0x714260AD));
    RoundAt(InitVars(H0), w, 10, Vars(0x8E04ECB9, 0x85A07B5F, 0xE5030380, 0x2B4209F5, 0x32CA2D8C, 0x0C657A79, 0x9B27A401, 0x714260AD), 0x12835B01, 0x00000000, Vars(0x8C87346B, 0x8E04ECB9, 0x85A07B5F, 0xE5030380, 0x1CC92596, 0x32CA2D8C, 0x0C657A79, 0x9B27A401));
    RoundAt(InitVars(H0), w, 11, Vars(0x8C87346B, 0x8E04ECB9, 0x85A07B5F, 0xE5030380, 0x1CC92596, 0x32CA2D8C, 0x0C657A79, 0x9B27A401), 0x243185BE, 0x00000000, Vars(0x4798A3F4, 0x8C87346B, 0x8E04ECB9, 0x85A07B5F, 0x436B23E8, 0x1CC92596, 0x32CA2D8C, 0x0C657A79));
    RoundAt(InitVars(H0), w, 12, Vars(0x4798A3F4, 0x8C87346B, 0x8E04ECB9, 0x85A07B5F, 0x436B23E8, 0x1CC92596, 0x32CA2D8C, 0x0C657A79), 0x550C7DC3, 0x00000000, Vars(0xF71FC5A9, 0x4798A3F4, 0x8C87346B, 0x8E04ECB9, 0x816FD6E9, 0x436B23E8, 0x1CC92596, 0x32CA2D8C));
    RoundAt(InitVars(H0), w, 13, Vars(0xF71FC5A9, 0x4798A3F4, 0x8C87346B, 0x8E04ECB9, 0x816FD6E9, 0x436B23E8, 0x1CC92596, 0x32CA2D8C), 0x72BE5D74, 0x00000000, Vars(0x87912990, 0xF71FC5A9, 0x4798A3F4, 0x8C87346B, 0x1E578218, 0x816FD6E9, 0x436B23E8, 0x1CC92596));
    RoundAt(InitVars(H0), w, 14, Vars(0x87912990, 0xF71FC5A9, 0x4798A3F4, 0x8C87346B, 0x1E578218, 0x816FD6E9, 0x436B23E8, 0x1CC92596), 0x80DEB1FE, 0x00000000, Vars(0xD932EB16, 0x87912990, 0xF71FC5A9, 0x4798A3F4, 0x745A48DE, 0x1E578218, 0x816FD6E9, 0x436B23E8));
    RoundAt(InitVars(H0), w, 15, Vars(0xD932EB16, 0x87912990, 0xF71FC5A9, 0x4798A3F4, 0x745A48DE, 0x1E578218, 0x816FD6E9, 0x436B23E8), 0x9BDC06A7, 0x00000000, Vars(0xC0645FDE, 0xD932EB16, 0x87912990, 0xF71FC5A9, 0x0B92F20C, 0x745A48DE, 0x1E578218, 0x816FD6E9));
    RoundAt(InitVars(H0), w, 16, Vars(0xC0645FDE, 0xD932EB16, 0x87912990, 0xF71FC5A9, 0x0B92F20C, 0x745A48DE, 0x1E578218, 0x816FD6E9), 0xC19BF174, 0x00000018, Vars(0xB0FA238E, 0xC0645FDE, 0xD932EB16, 0x87912990, 0x07590DCD, 0x0B92F20C, 0x745A48DE, 0x1E578218));
  }

  lemma Rounds16(w: seq<Word>)
    requires w == AbcMessageSchedule
    ensures Rounds(InitVars(H0), w, 24) == Vars(0xC5D53D8D, 0xA7A3623F, 0xC2606D6D, 0x9DC68B63, 0xAA47C347, 0x49F5114A, 0xE1257970, 0x8ADA8930)
  {
    Rounds8(w);
    RoundAt(InitVars(H0), w, 17, Vars(0xB0FA238E, 0xC0645FDE, 0xD932EB16, 0x87912990, 0x07590DCD, 0x0B92F20C, 0x745A48DE, 0x1E578218), 0xE49B69C1, 0x61626380, Vars(0x21DA9A9B, 0xB0FA238E, 0xC0645FDE, 0xD932EB16, 0x8034229C, 0x07590DCD, 0x0B92F20C, 0x745A48DE));
    RoundAt(InitVars(H0), w, 18, Vars(0x21DA9A9B, 0xB0FA238E, 0xC0645FDE, 0xD932EB16, 0x8034229C, 0x07590DCD, 0x0B92F20C, 0x745A48DE), 0xEFBE4786, 0x000F0000, Vars(0xC2FBD9D1, 0x21DA9A9B, 0xB0FA238E, 0xC0645FDE, 0x846EE454, 0x8034229C, 0x07590DCD, 0x0B92F20C));
    RoundAt(InitVars(H0), w, 19, Vars(0xC2FBD9D1, 0x21DA9A9B, 0xB0FA238E, 0xC0645FDE, 0x846EE454, 0x8034229C, 0x07590DCD, 0x0B92F20C), 0x0FC19DC6, 0x7DA86405, Vars(0xFE777BBF, 0xC2FBD9D1, 0x21DA9A9B, 0xB0FA238E, 0xCC899961, 0x846EE454, 0x8034229C, 0x07590DCD));
    RoundAt(InitVars(H0), w, 20, Vars(0xFE777BBF, 0xC2FBD9D1, 0x21DA9A9B, 0xB0FA238E, 0xCC899961, 0x846EE454, 0x8034229C, 0x07590DCD), 0x240CA1CC, 0x600003C6, Vars(0xE1F20C33, 0xFE777BBF, 0xC2FBD9D1, 0x21DA9A9B, 0xB0638179, 0xCC899961, 0x846EE454, 0x8034229C));
    RoundAt(InitVars(H0), w, 21, Vars(0xE1F20C33, 0xFE777BBF, 0xC2FBD9D1, 0x21DA9A9B, 0xB0638179, 0xCC899961, 0x846EE454, 0x8034229C), 0x2DE92C6F, 0x3E9D7B78, Vars(0x9DC68B63, 0xE1F20C33, 0xFE777BBF, 0xC2FBD9D1, 0x8ADA8930, 0xB0638179, 0xCC899961, 0x846EE454));
    RoundAt(InitVars(H0), w, 22, Vars(0x9DC68B63, 0xE1F20C33, 0xFE777BBF, 0xC2FBD9D1, 0x8ADA8930, 0xB0638179, 0xCC899961, 0x846EE454), 0x4A7484AA, 0x0183FC00, Vars(0xC2606D6D, 0x9DC68B63, 0xE1F20C33, 0xFE777BBF, 0xE1257970, 0x8ADA8930, 0xB0638179, 0xCC899961));
    RoundAt(InitVars(H0), w, 23, Vars(0xC2606D6D, 0x9DC68B63, 0xE1F20C33, 0xFE777BBF, 0xE1257970, 0x8ADA8930, 0xB0638179, 0xCC899961), 0x5CB0A9DC, 0x12DCBFDB, Vars(0xA7A3623F, 0xC2606D6D, 0x9DC68B63, 0xE1F20C33, 0x49F5114A, 0xE1257970, 0x8ADA8930, 0xB0638179));
    RoundAt(InitVars(H0), w, 24, Vars(0xA7A3623F, 0xC2606D6D, 0x9DC68B63, 0xE1F20C33, 0x49F5114A, 0xE1257970, 0x8ADA8930, 0xB0638179), 0x76F988DA, 0xE2E2C38E, Vars(0xC5D53D8D, 0xA7A3623F, 0xC2606D6D, 0x9DC68B63, 0xAA47C347, 0x49F5114A, 0xE1257970, 0x8ADA8930));
  }

  lemma Rounds24(w: seq<Word>)
    requires w == AbcMessageSchedule
    ensures Rounds(InitVars(H0), w, 32) == Vars(0x73B33BF5, 0xEA992A22, 0xA0060B30, 0x363482C9, 0xBA591112, 0x0109AB3A, 0xADE79437, 0x6112A3B7)
  {
    Rounds16(w);
    RoundAt(InitVars(H0), w, 25, Vars(0xC5D53D8D, 0xA7A3623F, 0xC2606D6D, 0x9DC68B63, 0xAA47C347, 0x49F5114A, 0xE1257970, 0x8ADA8930), 0x983E5152, 0xC8215C1A, Vars(0x1C2C2838, 0xC5D53D8D, 0xA7A3623F, 0xC2606D6D, 0x2823EF91, 0xAA47C347, 0x49F5114A, 0xE1257970));
    RoundAt(InitVars(H0), w, 26, Vars(0x1C2C2838, 0xC5D53D8D, 0xA7A3623F, 0xC2606D6D, 0x2823EF91, 0xAA47C347, 0x49F5114A, 0xE1257970), 0xA831C66D, 0xB73679A2, Vars(0xCDE8037D, 0x1C2C2838, 0xC5D53D8D, 0xA7A3623F, 0x14383D8E, 0x2823EF91, 0xAA47C347, 0x49F5114A));
    RoundAt(InitVars(H0), w, 27, Vars(0xCDE8037D, 0x1C2C2838, 0xC5D53D8D, 0xA7A3623F, 0x14383D8E, 0x2823EF91, 0xAA47C347, 0x49F5114A), 0xB00327C8, 0xE5BC3909, Vars(0xB62EC4BC, 0xCDE8037D, 0x1C2C2838, 0xC5D53D8D, 0xC74C6516, 0x14383D8E, 0x2823EF91, 0xAA47C347));
    RoundAt(InitVars(H0), w, 28, Vars(0xB62EC4BC, 0xCDE8037D, 0x1C2C2838, 0xC5D53D8D, 0xC74C6516, 0x14383D8E, 0x2823EF91, 0xAA47C347), 0xBF597FC7, 0x32663C5B, Vars(0x77D37528, 0xB62EC4BC, 0xCDE8037D, 0x1C2C2838, 0xEDFFBFF8, 0xC74C6516, 0x14383D8E, 0x2823EF91));
    RoundAt(InitVars(H0), w, 29, Vars(0x77D37528, 0xB62EC4BC, 0xCDE8037D, 0x1C2C2838, 0xEDFFBFF8, 0xC74C6516, 0x14383D8E, 0x2823EF91), 0xC6E00BF3, 0x9D209D67, Vars(0x363482C9, 0x77D37528, 0xB62EC4BC, 0xCDE8037D, 0x6112A3B7, 0xEDFFBFF8, 0xC74C6516, 0x14383D8E));
    RoundAt(InitVars(H0), w, 30, Vars(0x363482C9, 0x77D37528, 0xB62EC4BC, 0xCDE8037D, 0x6112A3B7, 0xEDFFBFF8, 0xC74C6516, 0x14383D8E), 0xD5A79147, 0xEC8726CB, Vars(0xA0060B30, 0x363482C9, 0x77D37528, 0xB62EC4BC, 0xADE79437, 0x6112A3B7, 0xEDFFBFF8, 0xC74C6516));
    RoundAt(InitVars(H0), w, 31, Vars(0xA0060B30, 0x363482C9, 0x77D37528, 0xB62EC4BC, 0xADE79437, 0x6112A3B7, 0xEDFFBFF8, 0xC74C6516), 0x06CA6351, 0x702138A4, Vars(0xEA992A22, 0xA0060B30, 0x363482C9, 0x77D37528, 0x0109AB3A, 0xADE79437, 0x6112A3B7, 0xEDFFBFF8));
    RoundAt(InitVars(H0), w, 32, Vars(0xEA992A22, 0xA0060B30, 0x363482C9, 0x77D37528, 0x0109AB3A, 0xADE79437, 0x6112A3B7, 0xEDFFBFF8), 0x14292967, 0xD3B7973B, Vars(0x73B33BF5, 0xEA992A22, 0xA0060B30, 0x363482C9, 0xBA591112, 0x0109AB3A, 0xADE79437, 0x6112A3B7));
  }

  lemma Rounds32(w: seq<Word>)
    requires w == AbcMessageSchedule
    ensures Rounds(InitVars(H0), w, 40) == Vars(0x79EA687A, 0x6DC57A8A, 0x34DF1604, 0x41A65CB1, 0x1EFBC0A0, 0xF0781BC8, 0xA507A53D, 0x0772A26B)
  {
    Rounds24(w);
    RoundAt(InitVars(H0), w, 33, Vars(0x73B33BF5, 0xEA992A22, 0xA0060B30, 0x363482C9, 0xBA591112, 0x0109AB3A, 0xADE79437, 0x6112A3B7), 0x27B70A85, 0x93F5997F, Vars(0x98E12507, 0x73B33BF5, 0xEA992A22, 0xA0060B30, 0x9CD9F5F6, 0xBA591112, 0x0109AB3A, 0xADE79437));
    RoundAt(InitVars(H0), w, 34, Vars(0x98E12507, 0x73B33BF5, 0xEA992A22, 0xA0060B30, 0x9CD9F5F6, 0xBA591112, 0x0109AB3A, 0xADE79437), 0x2E1B2138, 0x3B68BA73, Vars(0xFE604DF5, 0x98E12507, 0x73B33BF5, 0xEA992A22, 0x59249DD3, 0x9CD9F5F6, 0xBA591112, 0x0109AB3A));
    RoundAt(InitVars(H0), w, 35, Vars(0xFE604DF5, 0x98E12507, 0x73B33BF5, 0xEA992A22, 0x59249DD3, 0x9CD9F5F6, 0xBA591112, 0x0109AB3A), 0x4D2C6DFC, 0xAFF4FFC1, Vars(0xA9A7738C, 0xFE604DF5, 0x98E12507, 0x73B33BF5, 0x085F3833, 0x59249DD3, 0x9CD9F5F6, 0xBA591112));
    RoundAt(InitVars(H0), w, 36, Vars(0xA9A7738C, 0xFE604DF5, 0x98E12507, 0x73B33BF5, 0x085F3833, 0x59249DD3, 0x9CD9F5F6, 0xBA591112), 0x53380D13, 0xF10A5C62, Vars(0x65A0CFE4, 0xA9A7738C, 0xFE604DF5, 0x98E12507, 0xF4B002D6, 0x085F3833, 0x59249DD3, 0x9CD9F5F6));
    RoundAt(InitVars(H0), w, 37, Vars(0x65A0CFE4, 0xA9A7738C, 0xFE604DF5, 0x98E12507, 0xF4B002D6, 0x085F3833, 0x59249DD3, 0x9CD9F5F6), 0x650A7354, 0x0A8B3996, Vars(0x41A65CB1, 0x65A0CFE4, 0xA9A7738C, 0xFE604DF5, 0x0772A26B, 0xF4B002D6, 0x085F3833, 0x59249DD3));
    RoundAt(InitVars(H0), w, 38, Vars(0x41A65CB1, 0x65A0CFE4, 0xA9A7738C, 0xFE604DF5, 0x0772A26B, 0xF4B002D6, 0x085F3833, 0x59249DD3), 0x766A0ABB, 0x72AF830A, Vars(0x34DF1604, 0x41A65CB1, 0x65A0CFE4, 0xA9A7738C, 0xA507A53D, 0x0772A26B, 0xF4B002D6, 0x085F3833));
    RoundAt(InitVars(H0), w, 39, Vars(0x34DF1604, 0x41A65CB1, 0x65A0CFE4, 0xA9A7738C, 0xA507A53D, 0x0772A26B, 0xF4B002D6, 0x085F3833), 0x81C2C92E, 0x9409E33E, Vars(0x6DC57A8A, 0x34DF1604, 0x41A65CB1, 0x65A0CFE4, 0xF0781BC8, 0xA507A53D, 0x0772A26B, 0xF4B002D6));
    RoundAt(InitVars(H0), w, 40, Vars(0x6DC57A8A, 0x34DF1604, 0x41A65CB1, 0x65A0CFE4, 0xF0781BC8, 0xA507A53D, 0x0772A26B, 0xF4B002D6), 0x92722C85, 0x24641522, Vars(0x79EA687A, 0x6DC57A8A, 0x34DF1604, 0x41A65CB1, 0x1EFBC0A0, 0xF0781BC8, 0xA507A53D, 0x0772A26B));
  }

  lemma Rounds40(w: seq<Word>)
    requires w == AbcMessageSchedule
    ensures Rounds(InitVars(H0), w, 48) == Vars(0x4172328D, 0xA14C14B0, 0x72AB4B91, 0x26628815, 0xFECF0BC6, 0xD57B94A9, 0xB7755DA1, 0xA80F11F0)
  {
    Rounds32(w);
    RoundAt(InitVars(H0), w, 41, Vars(0x79EA687A, 0x6DC57A8A, 0x34DF1604, 0x41A65CB1, 0x1EFBC0A0, 0xF0781BC8, 0xA507A53D, 0x0772A26B), 0xA2BFE8A1, 0x9F47BF94, Vars(0xD6670766, 0x79EA687A, 0x6DC57A8A, 0x34DF1604, 0x26352D63, 0x1EFBC0A0, 0xF0781BC8, 0xA507A53D));
    RoundAt(InitVars(H0), w, 42, Vars(0xD6670766, 0x79EA687A, 0x6DC57A8A, 0x34DF1604, 0x26352D63, 0x1EFBC0A0, 0xF0781BC8, 0xA507A53D), 0xA81A664B, 0xF0A64F5A, Vars(0xDF46652F, 0xD6670766, 0x79EA687A, 0x6DC57A8A, 0x838B2711, 0x26352D63, 0x1EFBC0A0, 0xF0781BC8));
    RoundAt(InitVars(H0), w, 43, Vars(0xDF46652F, 0xD6670766, 0x79EA687A, 0x6DC57A8A, 0x838B2711, 0x26352D63, 0x1EFBC0A0, 0xF0781BC8), 0xC24B8B70, 0x3E246A79, Vars(0x17AA0DFE, 0xDF46652F, 0xD6670766, 0x79EA687A, 0xDECD4715, 0x838B2711, 0x26352D63, 0x1EFBC0A0));
    RoundAt(InitVars(H0), w, 44, Vars(0x17AA0DFE, 0xDF46652F, 0xD6670766, 0x79EA687A, 0xDECD4715, 0x838B2711, 0x26352D63, 0x1EFBC0A0), 0xC76C51A3, 0x27333BA3, Vars(0x9D4BAF93, 0x17AA0DFE, 0xDF46652F, 0xD6670766, 0xFDA24C2E, 0xDECD4715, 0x838B2711, 0x26352D63));
    RoundAt(InitVars(H0), w, 45, Vars(0x9D4BAF93, 0x17AA0DFE, 0xDF46652F, 0xD6670766, 0xFDA24C2E, 0xDECD4715, 0x838B2711, 0x26352D63), 0xD192E819, 0x0C4763F2, Vars(0x26628815, 0x9D4BAF93, 0x17AA0DFE, 0xDF46652F, 0xA80F11F0, 0xFDA24C2E, 0xDECD4715, 0x838B2711));
    RoundAt(InitVars(H0), w, 46, Vars(0x26628815, 0x9D4BAF93, 0x17AA0DFE, 0xDF46652F, 0xA80F11F0, 0xFDA24C2E, 0xDECD4715, 0x838B2711), 0xD6990624, 0x840ABF27, Vars(0x72AB4B91, 0x26628815, 0x9D4BAF93, 0x17AA0DFE, 0xB7755DA1, 0xA80F11F0, 0xFDA24C2E, 0xDECD4715));
    RoundAt(InitVars(H0), w, 47, Vars(0x72AB4B91, 0x26628815, 0x9D4BAF93, 0x17AA0DFE, 0xB7755DA1, 0xA80F11F0, 0xFDA24C2E, 0xDECD4715), 0xF40E3585, 0x7A290D5D, Vars(0xA14C14B0, 0x72AB4B91, 0x26628815, 0x9D4BAF93, 0xD57B94A9, 0xB7755DA1, 0xA80F11F0, 0xFDA24C2E));
    RoundAt(InitVars(H0), w, 48, Vars(0xA14C14B0, 0x72AB4B91, 0x26628815, 0x9D4BAF93, 0xD57B94A9, 0xB7755DA1, 0xA80F11F0, 0xFDA24C2E), 0x106AA070, 0x065C43DA, Vars(0x4172328D, 0xA14C14B0, 0x72AB4B91, 0x26628815, 0xFECF0BC6, 0xD57B94A9, 0xB7755DA1, 0xA80F11F0));
  }

  lemma Rounds48(w: seq<Word>)
    requires w == AbcMessageSchedule
    ensures Rounds(InitVars(H0), w, 56) == Vars(0x38CC9913, 0x3EC45CDB, 0xF5702FDB, 0x101FD28F, 0x54CB266B, 0xE50E1B4F, 0x9F4787C3, 0x529E7D00)
  {
    Rounds40(w);
    RoundAt(InitVars(H0), w, 49, Vars(0x4172328D, 0xA14C14B0, 0x72AB4B91, 0x26628815, 0xFECF0BC6, 0xD57B94A9, 0xB7755DA1, 0xA80F11F0), 0x19A4C116, 0xFB3E89CB, Vars(0x05757CEB, 0x4172328D, 0xA14C14B0, 0x72AB4B91, 0xBD714038, 0xFECF0BC6, 0xD57B94A9, 0xB7755DA1));
    RoundAt(InitVars(H0), w, 50, Vars(0x05757CEB, 0x4172328D, 0xA14C14B0, 0x72AB4B91, 0xBD714038, 0xFECF0BC6, 0xD57B94A9, 0xB7755DA1), 0x1E376C08, 0xCC7617DB, Vars(0xF11BFAA8, 0x05757CEB, 0x4172328D, 0xA14C14B0, 0x6E5C390C, 0xBD714038, 0xFECF0BC6, 0xD57B94A9));
    RoundAt(InitVars(H0), w, 51, Vars(0xF11BFAA8, 0x05757CEB, 0x4172328D, 0xA14C14B0, 0x6E5C390C, 0xBD714038, 0xFECF0BC6, 0xD57B94A9), 0x2748774C, 0xB9E66C34, Vars(0x7A0508A1, 0xF11BFAA8, 0x05757CEB, 0x4172328D, 0x52F1CCF7, 0x6E5C390C, 0xBD714038, 0xFECF0BC6));
    RoundAt(InitVars(H0), w, 52, Vars(0x7A0508A1, 0xF11BFAA8, 0x05757CEB, 0x4172328D, 0x52F1CCF7, 0x6E5C390C, 0xBD714038, 0xFECF0BC6), 0x34B0BCB5, 0xA9993667, Vars(0x886E7A22, 0x7A0508A1, 0xF11BFAA8, 0x05757CEB, 0x49231C1E, 0x52F1CCF7, 0x6E5C390C, 0xBD714038));
    RoundAt(InitVars(H0), w, 53, Vars(0x886E7A22, 0x7A0508A1, 0xF11BFAA8, 0x05757CEB, 0x49231C1E, 0x52F1CCF7, 0x6E5C390C, 0xBD714038), 0x391C0CB3, 0x84BADEDD, Vars(0x101FD28F, 0x886E7A22, 0x7A0508A1, 0xF11BFAA8, 0x529E7D00, 0x49231C1E, 0x52F1CCF7, 0x6E5C390C));
    RoundAt(InitVars(H0), w, 54, Vars(0x101FD28F, 0x886E7A22, 0x7A0508A1, 0xF11BFAA8, 0x529E7D00, 0x49231C1E, 0x52F1CCF7, 0x6E5C390C), 0x4ED8AA4A, 0xC21462BC, Vars(0xF5702FDB, 0x101FD28F, 0x886E7A22, 0x7A0508A1, 0x9F4787C3, 0x529E7D00, 0x49231C1E, 0x52F1CCF7));
    RoundAt(InitVars(H0), w, 55, Vars(0xF5702FDB, 0x101FD28F, 0x886E7A22, 0x7A0508A1, 0x9F4787C3, 0x529E7D00, 0x49231C1E, 0x52F1CCF7), 0x5B9CCA4F, 0x1487472C, Vars(0x3EC45CDB, 0xF5702FDB, 0x101FD28F, 0x886E7A22, 0xE50E1B4F, 0x9F4787C3, 0x529E7D00, 0x49231C1E));
    RoundAt(InitVars(H0), w, 56, Vars(0x3EC45CDB, 0xF5702FDB, 0x101FD28F, 0x886E7A22, 0xE50E1B4F, 0x9F4787C3, 0x529E7D00, 0x49231C1E), 0x682E6FF3, 0xB20F7A99, Vars(0x38CC9913, 0x3EC45CDB, 0xF5702FDB, 0x101FD28F, 0x54CB266B, 0xE50E1B4F, 0x9F4787C3, 0x529E7D00));
  }

  lemma Rounds56(w: seq<Word>)
    requires w == AbcMessageSchedule
    ensures Rounds(InitVars(H0), w, 64) == Vars(0x506E3058, 0xD39A2165, 0x04D24D6C, 0xB85E2CE9, 0x5EF50F24, 0xFB121210, 0x948D25B6, 0x961F4894)
  {
    Rounds48(w);
    RoundAt(InitVars(H0), w, 57, Vars(0x38CC9913, 0x3EC45CDB, 0xF5702FDB, 0x101FD28F, 0x54CB266B, 0xE50E1B4F, 0x9F4787C3, 0x529E7D00), 0x748F82EE, 0xEF57B9CD, Vars(0xFCD1887B, 0x38CC9913, 0x3EC45CDB, 0xF5702FDB, 0x9B5E906C, 0x54CB266B, 0xE50E1B4F, 0x9F4787C3));
    RoundAt(InitVars(H0), w, 58, Vars(0xFCD1887B, 0x38CC9913, 0x3EC45CDB, 0xF5702FDB, 0x9B5E906C, 0x54CB266B, 0xE50E1B4F, 0x9F4787C3), 0x78A5636F, 0xEBE6B238, Vars(0xC062D46F, 0xFCD1887B, 0x38CC9913, 0x3EC45CDB, 0x7E44008E, 0x9B5E906C, 0x54CB266B, 0xE50E1B4F));
    RoundAt(InitVars(H0), w, 59, Vars(0xC062D46F, 0xFCD1887B, 0x38CC9913, 0x3EC45CDB, 0x7E44008E, 0x9B5E906C, 0x54CB266B, 0xE50E1B4F), 0x84C87814, 0x9FE3095E, Vars(0xFFB70472, 0xC062D46F, 0xFCD1887B, 0x38CC9913, 0x6D83BFC6, 0x7E44008E, 0x9B5E906C, 0x54CB266B));
    RoundAt(InitVars(H0), w, 60, Vars(0xFFB70472, 0xC062D46F, 0xFCD1887B, 0x38CC9913, 0x6D83BFC6, 0x7E44008E, 0x9B5E906C, 0x54CB266B), 0x8CC70208, 0x78BC8D4B, Vars(0xB6AE8FFF, 0xFFB70472, 0xC062D46F, 0xFCD1887B, 0xB21BAD3D, 0x6D83BFC6, 0x7E44008E, 0x9B5E906C));
    RoundAt(InitVars(H0), w, 61, Vars(0xB6AE8FFF, 0xFFB70472, 0xC062D46F, 0xFCD1887B, 0xB21BAD3D, 0x6D83BFC6, 0x7E44008E, 0x9B5E906C), 0x90BEFFFA, 0xA43FCF15, Vars(0xB85E2CE9, 0xB6AE8FFF, 0xFFB70472, 0xC062D46F, 0x961F4894, 0xB21BAD3D, 0x6D83BFC6, 0x7E44008E));
    RoundAt(InitVars(H0), w, 62, Vars(0xB85E2CE9, 0xB6AE8FFF, 0xFFB70472, 0xC062D46F, 0x961F4894, 0xB21BAD3D, 0x6D83BFC6, 0x7E44008E), 0xA4506CEB, 0x668B2FF8, Vars(0x04D24D6C, 0xB85E2CE9, 0xB6AE8FFF, 0xFFB70472, 0x948D25B6, 0x961F4894, 0xB21BAD3D, 0x6D83BFC6));
    RoundAt(InitVars(H0), w, 63, Vars(0x04D24D6C, 0xB85E2CE9, 0xB6AE8FFF, 0xFFB70472, 0x948D25B6, 0x961F4894, 0xB21BAD3D, 0x6D83BFC6), 0xBEF9A3F7, 0xEEABA2CC, Vars(0xD39A2165, 0x04D24D6C, 0xB85E2CE9, 0xB6AE8FFF, 0xFB121210, 0x948D25B6, 0x961F4894, 0xB21BAD3D));
    RoundAt(InitVars(H0), w, 64, Vars(0xD39A2165, 0x04D24D6C, 0xB85E2CE9, 0xB6AE8FFF, 0xFB121210, 0x948D25B6, 0x961F4894, 0xB21BAD3D), 0xC67178F2, 0x12B1EDEB, Vars(0x506E3058, 0xD39A2165, 0x04D24D6C, 0xB85E2CE9, 0x5EF50F24, 0xFB121210, 0x948D25B6, 0x961F4894));
  }

  lemma Compressed(b: seq<Byte>)
    requires b == AbcMessageBlock
    ensures Compress(H0, b) == [0xBA7816BF, 0x8F01CFEA, 0x414140DE, 0x5DAE2223, 0xB00361A3, 0x96177A9C, 0xB410FF61, 0xF20015AD]
  {
    ScheduleIs(b);
    Rounds56(Schedule(b));
  }

  lemma Digested(hv: seq<Word>)
    requires hv == [0xBA7816BF, 0x8F01CFEA, 0x414140DE, 0x5DAE2223, 0xB00361A3, 0x96177A9C, 0xB410FF61, 0xF20015AD]
    ensures Digest(hv) ==
      [0xBA, 0x78, 0x16, 0xBF, 0x8F, 0x01, 0xCF, 0xEA, 0x41, 0x41, 0x40, 0xDE, 0x5D, 0xAE, 0x22, 0x23] +
      [0xB0, 0x03, 0x61, 0xA3, 0x96, 0x17, 0x7A, 0x9C, 0xB4, 0x10, 0xFF, 0x61, 0xF2, 0x00, 0x15, 0xAD]
  {
  }

  /** SHA-256 of the three-byte message "abc". */
  lemma AbcMessage(m: seq<Byte>)
    requires m == [0x61, 0x62, 0x63]
    ensures Hash(m) ==
      [0xBA, 0x78, 0x16, 0xBF, 0x8F, 0x01, 0xCF, 0xEA, 0x41, 0x41, 0x40, 0xDE, 0x5D, 0xAE, 0x22, 0x23] +
      [0xB0, 0x03, 0x61, 0xA3, 0x96, 0x17, 0x7A, 0x9C, 0xB4, 0x10, 0xFF, 0x61, 0xF2, 0x00, 0x15, 0xAD]
  {
    Padding(m);
    SingleBlockHash(m, AbcMessageBlock);
    Compressed(AbcMessageBlock);
    Digested(Compress(H0, AbcMessageBlock));
  }
}
