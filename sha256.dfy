/**
 * The streaming SHA-256 hasher of the plugin (src/sha256.rs): a 64-byte buffer,
 * the eight-word intermediate hash value and a byte counter, updated in place.
 * Every operation is proved against the reference functions of module Fips180.
 */
module Sha256 {
  import opened Fips180

  class Hasher {
    var state: array<Word>
    var buffer: array<Byte>
    var bufferLen: nat
    var totalLen: nat
    /** Every byte fed to the hasher so far. */
    ghost var absorbed: seq<Byte>
    /** The whole blocks among them, already compressed into the state. */
    ghost var hashed: seq<Byte>

    /** The state is the hash value of the whole blocks compressed so far. */
    ghost predicate Compressed()
      reads this`state, this`hashed, state
    {
      state.Length == 8 && |hashed| % 64 == 0 && state[..] == Absorb(H0, hashed)
    }

    /** The buffer holds the bytes after the last whole block; the counter counts every byte. */
    ghost predicate Valid()
      reads this, state, buffer
    {
      Compressed() && buffer.Length == 64 && bufferLen < 64
      && absorbed == hashed + buffer[..bufferLen] && totalLen == |absorbed|
    }

    constructor ()
      ensures Valid() && absorbed == []
      ensures fresh(state) && fresh(buffer)
    {
      state := new Word[8](i requires 0 <= i < 8 => H0[i]);
      buffer := new Byte[64](_ => 0);
      bufferLen := 0;
      totalLen := 0;
      absorbed := [];
      hashed := [];
      new;
      assert state[..] == H0;
    }

    /** Compresses one 64-byte block into the state (section 6.2.2 of FIPS 180-4). */
    method ProcessBlock(block: seq<Byte>)
      requires Compressed() && |block| == 64
      modifies state, this`hashed
      ensures Compressed() && hashed == old(hashed) + block
    {
      AbsorbBlock(H0, hashed, block);
      var w := MessageSchedule(block);
      var v := CompressionRounds(Vars(state[0], state[1], state[2], state[3], state[4], state[5], state[6], state[7]), w);
      assert Vars(state[0], state[1], state[2], state[3], state[4], state[5], state[6], state[7]) == InitVars(state[..]);
      AddToState(v);
      hashed := hashed + block;
    }

    /** Adds the working variables into the state words, each modulo 2^32. */
    method AddToState(v: Vars)
      requires state.Length == 8
      modifies state
      ensures state[..] == AddVars(old(state[..]), v)
    {
      var a, b, c, d, e, f, g, h := v.a, v.b, v.c, v.d, v.e, v.f, v.g, v.h;
      ghost var hv := state[..];
      state[0], state[1], state[2], state[3], state[4], state[5], state[6], state[7] :=
        Add(state[0], a), Add(state[1], b), Add(state[2], c), Add(state[3], d),
        Add(state[4], e), Add(state[5], f), Add(state[6], g), Add(state[7], h);
      assert state[..] == hv[0 := Add(hv[0], a)][1 := Add(hv[1], b)][2 := Add(hv[2], c)][3 := Add(hv[3], d)]
        [4 := Add(hv[4], e)][5 := Add(hv[5], f)][6 := Add(hv[6], g)][7 := Add(hv[7], h)];
    }

    /** Feeds more bytes to the hasher: tops up a partly full buffer, compresses every whole
      * block, and keeps the rest in the buffer. */
    method Update(data: seq<Byte>)
      requires Valid()
      modifies this, state, buffer
      ensures Valid() && absorbed == old(absorbed) + data
      ensures state == old(state) && buffer == old(buffer)
    {
      ghost var all := absorbed + data;
      totalLen := totalLen + |data|;
      var offset := 0;
      assert data[offset..] == data;

      if bufferLen > 0 {
        offset := FillBuffer(data);
      }

      ghost var pending := buffer[..bufferLen];
      ghost var before, start := hashed, offset;
      offset := ProcessBlocks(data, offset);
      Rejoin(before, pending, data[start..], hashed, data[offset..]);

      if offset < |data| {
        var remaining := |data| - offset;
        var tail := data[offset..];
        assert pending == [];
        CopyToBuffer(0, tail);
        bufferLen := remaining;
        assert buffer[..bufferLen] == tail;
        WithoutEmpty(hashed, tail);
      } else {
        assert data[offset..] == [];
        WithoutEmpty(hashed, pending);
      }
      absorbed := all;
    }

    /** Compresses every whole block of `data` from `offset` on; returns where the unprocessed
      * tail, shorter than a block, starts. */
    method ProcessBlocks(data: seq<Byte>, offset: nat) returns (next: nat)
      requires Compressed() && offset <= |data|
      modifies state, this`hashed
      ensures Compressed() && offset <= next <= |data| && |data| - next < 64
      ensures |data| - offset < 64 ==> next == offset
      ensures hashed + data[next..] == old(hashed) + data[offset..]
    {
      next := offset;
      while next + 64 <= |data|
        invariant Compressed() && offset <= next <= |data|
        invariant |data| - offset < 64 ==> next == offset
        invariant hashed + data[next..] == old(hashed) + data[offset..]
        decreases |data| - next
      {
        var block := data[next..next + 64];
        NextBlock(hashed, data, next);
        ProcessBlock(block);
        next := next + 64;
      }
    }

    /** Tops up a partly full buffer from the front of `data` and compresses it once it is full;
      * returns how many bytes of `data` it took. */
    method FillBuffer(data: seq<Byte>) returns (offset: nat)
      requires Compressed() && buffer.Length == 64 && 0 < bufferLen < 64
      modifies buffer, state, this`bufferLen, this`hashed
      ensures Compressed() && bufferLen < 64 && offset <= |data|
      ensures bufferLen > 0 ==> offset == |data|
      ensures hashed + buffer[..bufferLen] + data[offset..] == old(hashed + buffer[..bufferLen]) + data
    {
      var needed := 64 - bufferLen;
      var take := if needed < |data| then needed else |data|;
      Regroup(hashed, buffer[..bufferLen], data, take);
      CopyToBuffer(bufferLen, data[..take]);
      bufferLen := bufferLen + take;
      offset := take;
      if bufferLen == 64 {
        var full := buffer[..];
        assert buffer[..bufferLen] == full;
        ghost var before := hashed;
        ProcessBlock(full);
        bufferLen := 0;
        assert hashed + buffer[..bufferLen] == before + full;
      }
    }

    /** Copies bytes into the buffer from position `at` on. */
    method CopyToBuffer(at: nat, bytes: seq<Byte>)
      requires buffer.Length == 64 && at + |bytes| <= 64
      modifies buffer
      ensures buffer[..] == old(buffer[..at]) + bytes + old(buffer[at + |bytes|..])
      ensures buffer[..at + |bytes|] == old(buffer[..at]) + bytes
    {
      forall j | 0 <= j < |bytes| {
        buffer[at + j] := bytes[j];
      }
    }

    /** Sets the buffer bytes from position `from` up to `to` to zero. */
    method ZeroBuffer(from: nat, to: nat)
      requires buffer.Length == 64 && from <= to <= 64
      modifies buffer
      ensures buffer[..] == old(buffer[..from]) + Zeros(to - from) + old(buffer[to..])
      ensures buffer[..to] == old(buffer[..from]) + Zeros(to - from)
    {
      forall j | from <= j < to {
        buffer[j] := 0;
      }
    }

    /** Pads the absorbed bytes (section 5.1.1 of FIPS 180-4), compresses the last one or two
      * blocks and returns the big-endian encoding of the state: the SHA-256 of everything fed. */
    method Finalize() returns (digest: seq<Byte>)
      requires Valid()
      modifies this, state, buffer
      ensures digest == Hash(old(absorbed))
    {
      var bitLen := (totalLen * 8) % 0x1_0000_0000_0000_0000;
      ghost var head := PadBuffer();
      var lengthBytes := BigEndian(bitLen, 8);
      CopyToBuffer(56, lengthBytes);
      var last := buffer[..];
      assert last == buffer[..64] == head + lengthBytes;
      ProcessBlock(last);
      digest := WriteDigest();
    }

    /** Appends the 0x80 byte and zeros to the buffered bytes, compressing the buffer first when
      * the length field no longer fits; `head` is the first 56 bytes of the last block. */
    method PadBuffer() returns (ghost head: seq<Byte>)
      requires Valid()
      modifies buffer, state, this`bufferLen, this`hashed
      ensures Compressed() && buffer == old(buffer) && buffer[..56] == head
      ensures Pad(old(absorbed)) == hashed + (head + BigEndian((old(totalLen) * 8) % 0x1_0000_0000_0000_0000, 8))
    {
      ghost var done, rest := hashed, buffer[..bufferLen];
      assert totalLen == |done + rest|;
      ghost var bitLen := (totalLen * 8) % 0x1_0000_0000_0000_0000;

      buffer[bufferLen] := 0x80;
      bufferLen := bufferLen + 1;
      ghost var marked := buffer[..bufferLen];
      assert marked == rest + [0x80];

      if bufferLen > 56 {
        FlushPadded();
        head := Zeros(56);
        PadTwoBlocks(done, rest);
        assert Pad(done + rest) == hashed + (head + BigEndian(bitLen, 8));
      } else {
        ZeroBuffer(bufferLen, 56);
        head := buffer[..56];
        assert head == marked + Zeros(55 - |rest|);
        PadOneBlock(done, rest);
        assert Pad(done + rest) == hashed + (head + BigEndian(bitLen, 8));
      }
    }

    /** Zero-fills the rest of a buffer that has no room left for the length field, compresses it
      * and clears the buffer. */
    method FlushPadded()
      requires Compressed() && buffer.Length == 64 && 56 < bufferLen <= 64
      modifies buffer, state, this`bufferLen, this`hashed
      ensures Compressed() && buffer == old(buffer) && bufferLen == 0 && buffer[..56] == Zeros(56)
      ensures hashed == old(hashed) + (old(buffer[..bufferLen]) + Zeros(64 - old(bufferLen)))
    {
      ghost var marked := buffer[..bufferLen];
      ZeroBuffer(bufferLen, 64);
      var first := buffer[..];
      assert first == buffer[..64] == marked + Zeros(64 - |marked|);
      ProcessBlock(first);
      bufferLen := 0;
      ZeroBuffer(0, 64);
      assert buffer[..56] == buffer[..64][..56];
    }

    /** The state words written out big-endian, one after the other. */
    method WriteDigest() returns (digest: seq<Byte>)
      requires state.Length == 8
      ensures digest == Digest(state[..])
    {
      var result := new Byte[32];
      for i := 0 to 8
        invariant result[..4 * i] == WordsBytes(state[..i])
      {
        var bytes := WordBytes(state[i]);
        result[4 * i] := bytes[0];
        result[4 * i + 1] := bytes[1];
        result[4 * i + 2] := bytes[2];
        result[4 * i + 3] := bytes[3];
        assert state[..i + 1][..i] == state[..i];
      }
      assert state[..8] == state[..];
      DigestIsWordsBytes(state[..]);
      digest := result[..];
    }
  }

  /** The 64-word message schedule of a block, the first part of the hasher's block
    * compression. */
  method MessageSchedule(block: seq<Byte>) returns (w: array<Word>)
    requires |block| == 64
    ensures fresh(w) && w[..] == Schedule(block)
  {
    w := new Word[64];
    for i := 0 to 16
      invariant forall j | 0 <= j < i :: w[j] == ScheduleWord(block, j)
    {
      w[i] := (block[i * 4] as Word << 24) | (block[i * 4 + 1] as Word << 16)
        | (block[i * 4 + 2] as Word << 8) | (block[i * 4 + 3] as Word);
    }
    for i := 16 to 64
      invariant forall j | 0 <= j < i :: w[j] == ScheduleWord(block, j)
    {
      ScheduleWordStep(block, i, w[i - 2], w[i - 7], w[i - 15], w[i - 16]);
      var s0 := SmallSigma0(w[i - 15]);
      var s1 := SmallSigma1(w[i - 2]);
      w[i] := Add(Add(Add(w[i - 16], s0), w[i - 7]), s1);
    }
  }

  /** The 64 rounds of the compression function over a message schedule, starting from the
    * working variables `init`. */
  method CompressionRounds(init: Vars, w: array<Word>) returns (v: Vars)
    requires w.Length == 64
    ensures v == Rounds(init, w[..], 64)
  {
    var a, b, c, d, e, f, g, h := init.a, init.b, init.c, init.d, init.e, init.f, init.g, init.h;
    for i := 0 to 64
      invariant Vars(a, b, c, d, e, f, g, h) == Rounds(init, w[..], i)
    {
      ghost var before := Vars(a, b, c, d, e, f, g, h);
      var s1 := BigSigma1(e);
      var ch := Ch(e, f, g);
      var temp1 := Add(Add(Add(Add(h, s1), ch), K[i]), w[i]);
      var s0 := BigSigma0(a);
      var maj := Maj(a, b, c);
      var temp2 := Add(s0, maj);
      h := g;
      g := f;
      f := e;
      e := Add(d, temp1);
      d := c;
      c := b;
      b := a;
      a := Add(temp1, temp2);
      RoundsStep(init, w[..], i + 1, before);
    }
    v := Vars(a, b, c, d, e, f, g, h);
  }

  /** Moving the first k bytes of the unread data to the end of the buffered ones leaves the
    * whole byte string unchanged. */
  lemma Regroup(hashed: seq<Byte>, pending: seq<Byte>, data: seq<Byte>, k: nat)
    requires k <= |data|
    ensures hashed + (pending + data[..k]) + data[k..] == hashed + pending + data
  {
    assert data == data[..k] + data[k..];
  }

  /** The bytes compressed and left over after a run of whole blocks, with the buffered ones in
    * between: either nothing is buffered or the run found no data at all. */
  lemma Rejoin(before: seq<Byte>, pending: seq<Byte>, rest: seq<Byte>, after: seq<Byte>, tail: seq<Byte>)
    requires after + tail == before + rest
    requires pending == [] || (rest == [] && tail == [])
    ensures after + pending + tail == before + pending + rest
  {
    if pending == [] {
      assert after + pending == after && before + pending == before;
    } else {
      assert after == after + tail && before == before + rest;
    }
  }

  /** Concatenating an empty sequence changes nothing. */
  lemma WithoutEmpty(a: seq<Byte>, b: seq<Byte>)
    ensures a + [] + b == a + b && a + b + [] == a + b
  {
    assert a + [] == a;
  }

  /** Compressing the next whole block of the unread data moves it to the compressed bytes. */
  lemma NextBlock(hashed: seq<Byte>, data: seq<Byte>, offset: nat)
    requires offset + 64 <= |data|
    ensures hashed + data[offset..] == hashed + data[offset..offset + 64] + data[offset + 64..]
  {
    assert data[offset..] == data[offset..offset + 64] + data[offset + 64..];
  }

  /** One step of the schedule recurrence. */
  lemma ScheduleWordStep(block: seq<Byte>, t: nat, x2: Word, x7: Word, x15: Word, x16: Word)
    requires |block| == 64 && 16 <= t < 64
    requires ScheduleWord(block, t - 2) == x2 && ScheduleWord(block, t - 7) == x7
    requires ScheduleWord(block, t - 15) == x15 && ScheduleWord(block, t - 16) == x16
    ensures ScheduleWord(block, t) == Add4(x16, SmallSigma0(x15), x7, SmallSigma1(x2))
  {
  }

  /** One more round applied to the working variables after t - 1 rounds. */
  lemma RoundsStep(init: Vars, w: seq<Word>, t: nat, v: Vars)
    requires |w| == 64 && 0 < t <= 64 && Rounds(init, w, t - 1) == v
    ensures Rounds(init, w, t) == Round(v, K[t - 1], w[t - 1])
  {
  }

  /** SHA-256 of a byte string in one call. */
  method Sha256(data: seq<Byte>) returns (digest: seq<Byte>)
    ensures digest == Hash(data)
  {
    var hasher := new Hasher();
    assert [] + data == data;
    hasher.Update(data);
    digest := hasher.Finalize();
  }

  /** SHA-256 applied twice, as Bitcoin hashes block headers. */
  method DoubleSha256(data: seq<Byte>) returns (digest: seq<Byte>)
    ensures digest == Hash(Hash(data))
  {
    var once := Sha256(data);
    digest := Sha256(once);
  }
}
