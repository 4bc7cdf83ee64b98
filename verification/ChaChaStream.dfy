/**
 The ChaCha20 stream cipher of the storage client: an object holding the state, one block of output and
 the offset of the first unread byte, which xors the key stream into whatever it is given, in pieces of
 any length.
 */
module ChaChaStream {
  import opened Wrappers
  import opened KeyStream
  import opened ChaCha

  // ---------- the initial state ----------

  /** "expand 32-byte k" */
  const CONSTANT_32: seq<Byte> :=
    [0x65, 0x78, 0x70, 0x61, 0x6e, 0x64, 0x20, 0x33, 0x32, 0x2d, 0x62, 0x79, 0x74, 0x65, 0x20, 0x6b]

  /** "expand 16-byte k" */
  const CONSTANT_16: seq<Byte> :=
    [0x65, 0x78, 0x70, 0x61, 0x6e, 0x64, 0x20, 0x31, 0x36, 0x2d, 0x62, 0x79, 0x74, 0x65, 0x20, 0x6b]

  predicate KeyLength(n: nat) {
    n == 16 || n == 32
  }

  predicate NonceLength(n: nat) {
    n == 8 || n == 12
  }

  function LanesFrom<W>(ops: Ops<W>, b: seq<Byte>): Lanes<W>
    requires |b| == 16
  {
    Lanes(ops.word(b[0..4]), ops.word(b[4..8]), ops.word(b[8..12]), ops.word(b[12..16]))
  }

  function Expand<W>(ops: Ops<W>, key: seq<Byte>, nonce: seq<Byte>): State<W>
    requires KeyLength(|key|) && (NonceLength(|nonce|) || |nonce| == 16)
  {
    State(LanesFrom(ops, if |key| == 16 then CONSTANT_16 else CONSTANT_32),
          LanesFrom(ops, key[0..16]),
          LanesFrom(ops, if |key| == 16 then key[0..16] else key[16..32]),
          LanesFrom(ops, Zeros(16 - |nonce|) + nonce))
  }

  /** Section 2.3 of RFC 8439: constants, key, counter and nonce. */
  function RfcState<W>(ops: Ops<W>, constants: Lanes<W>, key: seq<Byte>, counter: W, nonce: seq<Byte>): State<W>
    requires |key| == 32 && |nonce| == 12
  {
    State(constants,
          Lanes(ops.word(key[0..4]), ops.word(key[4..8]), ops.word(key[8..12]), ops.word(key[12..16])),
          Lanes(ops.word(key[16..20]), ops.word(key[20..24]), ops.word(key[24..28]), ops.word(key[28..32])),
          Lanes(counter, ops.word(nonce[0..4]), ops.word(nonce[4..8]), ops.word(nonce[8..12])))
  }

  lemma Four<T>(s: seq<T>, i: nat)
    requires i + 4 <= |s|
    ensures s[i..i + 4] == [s[i], s[i + 1], s[i + 2], s[i + 3]]
  {
  }

  /** Stretches of two sequences with the same bytes read as the same word. */
  lemma SameFour<T>(s: seq<T>, i: nat, t: seq<T>, j: nat)
    requires i + 4 <= |s| && j + 4 <= |t|
    requires s[i] == t[j] && s[i + 1] == t[j + 1] && s[i + 2] == t[j + 2] && s[i + 3] == t[j + 3]
    ensures s[i..i + 4] == t[j..j + 4]
  {
    Four(s, i);
    Four(t, j);
  }

  lemma HalfLanes<W>(ops: Ops<W>, key: seq<Byte>, i: nat)
    requires i + 16 <= |key|
    ensures LanesFrom(ops, key[i..i + 16])
            == Lanes(ops.word(key[i..i + 4]), ops.word(key[i + 4..i + 8]),
                     ops.word(key[i + 8..i + 12]), ops.word(key[i + 12..i + 16]))
  {
    var half := key[i..i + 16];
    SameFour(half, 0, key, i);
    SameFour(half, 4, key, i + 4);
    SameFour(half, 8, key, i + 8);
    SameFour(half, 12, key, i + 12);
  }

  lemma NonceLanes<W>(ops: Ops<W>, prefix: seq<Byte>, nonce: seq<Byte>)
    requires |prefix| == 4 && |nonce| == 12
    ensures LanesFrom(ops, prefix + nonce)
            == Lanes(ops.word(prefix), ops.word(nonce[0..4]), ops.word(nonce[4..8]), ops.word(nonce[8..12]))
  {
    var b := prefix + nonce;
    SameFour(b, 0, prefix, 0);
    SameFour(b, 4, nonce, 0);
    SameFour(b, 8, nonce, 4);
    SameFour(b, 12, nonce, 8);
    assert prefix[0..4] == prefix;
  }

  /** A 32-byte key and a 12-byte nonce give the initial state of the RFC with a zero counter. */
  lemma ExpandIsRfcState<W>(f: Ops<W>, g: Ops<W>, key: seq<Byte>, nonce: seq<Byte>)
    requires f.word == g.word && |key| == 32 && |nonce| == 12
    ensures Expand(f, key, nonce) == RfcState(g, LanesFrom(f, CONSTANT_32), key, f.word(Zeros(4)), nonce)
  {
    HalfLanes(f, key, 0);
    HalfLanes(f, key, 16);
    NonceLanes(f, Zeros(4), nonce);
  }

  /** A 16-byte nonce is a little-endian counter followed by the nonce of the RFC. */
  lemma ExpandWithCounter<W>(f: Ops<W>, g: Ops<W>, key: seq<Byte>, nonce: seq<Byte>)
    requires f.word == g.word && |key| == 32 && |nonce| == 16
    ensures Expand(f, key, nonce) == RfcState(g, LanesFrom(f, CONSTANT_32), key, f.word(nonce[..4]), nonce[4..])
  {
    HalfLanes(f, key, 0);
    HalfLanes(f, key, 16);
    NonceLanes(f, nonce[..4], nonce[4..]);
    assert Zeros(16 - |nonce|) + nonce == nonce[..4] + nonce[4..];
  }

  /** An 8-byte nonce leaves the first two words of the last row at zero. */
  lemma ShortNonceAtEnd<W>(ops: Ops<W>, key: seq<Byte>, nonce: seq<Byte>)
    requires KeyLength(|key|) && |nonce| == 8
    ensures Expand(ops, key, nonce).d ==
            Lanes(ops.word(Zeros(4)), ops.word(Zeros(4)), ops.word(nonce[0..4]), ops.word(nonce[4..8]))
  {
    var row := Zeros(8) + nonce;
    SameFour(row, 0, Zeros(4), 0);
    SameFour(row, 4, Zeros(4), 0);
    SameFour(row, 8, nonce, 0);
    SameFour(row, 12, nonce, 4);
    assert Zeros(4)[0..4] == Zeros(4);
  }

  /** Seeking a cipher to the counter in the first word of a 16-byte nonce gives the state of that nonce. */
  lemma SeekIsCounter<W>(ops: Ops<W>, key: seq<Byte>, nonce: seq<Byte>)
    requires |key| == 32 && |nonce| == 16
    ensures var s := Expand(ops, key, nonce[4..]);
            Expand(ops, key, nonce) == s.(d := s.d.(w0 := ops.word(nonce[..4])))
  {
    ExpandIsRfcState(ops, ops, key, nonce[4..]);
    ExpandWithCounter(ops, ops, key, nonce);
  }

  // ---------- the block counter ----------

  /** The block counter is the first word of the last row; it alone moves from block to block. */
  function Next<W>(ops: Ops<W>, s: State<W>): State<W> {
    s.(d := Lanewise(ops.add, s.d, Lanes(ops.one, ops.zero, ops.zero, ops.zero)))
  }

  function Cipher<W>(ops: Ops<W>): Generator<State<W>> {
    Generator(s => Block(ops, s), s => Next(ops, s))
  }

  /** The cipher of RFC 8439, section 2.4: the block function, and word 12 counting the blocks. */
  function RfcCipher<W>(ops: Ops<W>): Generator<State<W>> {
    Generator(s => RfcBlock(ops, s), s => RfcNext(ops, s))
  }

  function RfcNext<W>(ops: Ops<W>, s: State<W>): State<W> {
    Put(s, 12, ops.add(At(s, 12), ops.one))
  }

  const EXHAUSTED: nat := 0xFFFF_FFFF

  /** Words count modulo 2^32, and adding zero changes nothing. */
  ghost predicate CountsAt<W>(ops: Ops<W>, x: W) {
    && ops.value(x) <= EXHAUSTED
    && (x == ops.zero <==> ops.value(x) == 0)
    && ops.value(ops.add(x, ops.one)) == (if ops.value(x) == EXHAUSTED then 0 else ops.value(x) + 1)
    && ops.add(x, ops.zero) == x
  }

  ghost predicate Counts<W(!new)>(ops: Ops<W>) {
    forall x :: CountsAt(ops, x)
  }

  /** The counter of a fresh cipher, four zero bytes, is zero. */
  ghost predicate StartsAtZero<W>(ops: Ops<W>) {
    ops.value(ops.word(Zeros(4))) == 0
  }

  /** The bytes that can be had before the counter wraps; the block with counter 2^32 - 1 is not among them. */
  function Limit<W>(ops: Ops<W>, origin: State<W>): int {
    BLOCK_SIZE * (EXHAUSTED - ops.value(origin.d.w0))
  }

  lemma NextCountsWord12<W(!new)>(f: Ops<W>, g: Ops<W>, s: State<W>)
    requires SameOps(f, g) && Counts(f)
    ensures Next(f, s) == RfcNext(g, s)
  {
    assert CountsAt(f, s.d.w1) && CountsAt(f, s.d.w2) && CountsAt(f, s.d.w3);
  }

  lemma CipherAt<W>(ops: Ops<W>, s: State<W>)
    ensures Cipher(ops).block(s) == Block(ops, s) && Cipher(ops).next(s) == Next(ops, s)
  {
  }

  lemma RfcCipherAt<W>(ops: Ops<W>, s: State<W>)
    ensures RfcCipher(ops).block(s) == RfcBlock(ops, s) && RfcCipher(ops).next(s) == RfcNext(ops, s)
  {
  }

  lemma CiphersAgreeAt<W(!new)>(f: Ops<W>, g: Ops<W>, s: State<W>)
    requires SameOps(f, g) && Counts(f)
    ensures Cipher(f).block(s) == RfcCipher(g).block(s) && Cipher(f).next(s) == RfcCipher(g).next(s)
  {
    CipherAt(f, s);
    RfcCipherAt(g, s);
    BlocksAgree(f, g, s);
    NextCountsWord12(f, g, s);
  }

  /** The cipher, reading its key stream anywhere, is the cipher of the RFC, which goes block by block. */
  lemma CryptIsRfc<W(!new)>(f: Ops<W>, g: Ops<W>, s: State<W>, data: seq<Byte>)
    requires SameOps(f, g) && Counts(f)
    ensures Crypt(Cipher(f), s, 0, data) == BlockByBlock(RfcCipher(g), s, data)
  {
    var mine, rfc := Cipher(f), RfcCipher(g);
    forall t ensures mine.block(t) == rfc.block(t) && mine.next(t) == rfc.next(t) {
      CiphersAgreeAt(f, g, t);
    }
    CryptIsBlockByBlock(mine, rfc, s, data);
  }

  // ---------- the cipher object ----------

  /** All the rounds of one block and the addition that closes it. */
  method Mix<W>(ops: Ops<W>, start: State<W>) returns (s: State<W>)
    ensures s == Mixed(ops, start, Rounds())
  {
    s := start;
    ghost var double := x => DoubleRound(ops, x);
    for i := 0 to Rounds()
      invariant s == Times(double, i, start)
    {
      s := Round(ops, s);
      s := Swizzle(s);
      s := Round(ops, s);
      s := Unswizzle(s);
    }
    s := State(Lanewise(ops.add, s.a, start.a), Lanewise(ops.add, s.b, start.b),
               Lanewise(ops.add, s.c, start.c), Lanewise(ops.add, s.d, start.d));
  }

  /** Writes the words of a state out, four bytes each. */
  method StateToBuffer<W>(bytes: W -> FourBytes, words: seq<W>, output: array<Byte>)
    requires output.Length == 4 * |words|
    modifies output
    ensures output[..] == Serialized(bytes, words)
  {
    for i := 0 to |words|
      invariant output[..4 * i] == Serialized(bytes, words[..i])
    {
      var b := bytes(words[i]);
      output[4 * i], output[4 * i + 1], output[4 * i + 2], output[4 * i + 3] := b[0], b[1], b[2], b[3];
      assert output[..4 * i] == Serialized(bytes, words[..i]);
      assert output[..4 * (i + 1)] == output[..4 * i] + b;
      assert words[..i + 1][..i] == words[..i];
    }
    assert words[..|words|] == words;
  }

  /** Xors `count` bytes of block n, from `offset` on, into `input` from i on. */
  method XorInto<S>(block: seq<Byte>, offset: nat, input: seq<Byte>, i: nat, count: nat, dest: array<Byte>,
                    ghost g: Generator<S>, ghost origin: S, ghost n: nat, ghost start: nat)
    requires block == g.block(After(g, origin, n)) && offset + count <= BLOCK_SIZE
    requires i + count <= |input| == dest.Length && start + i == BLOCK_SIZE * n + offset
    modifies dest
    ensures forall k :: i <= k < i + count ==> dest[k] == CryptByte(g, origin, start, input, k)
    ensures forall k :: (0 <= k < i || i + count <= k < |input|) ==> dest[k] == old(dest[k])
  {
    for j := 0 to count
      invariant forall k :: i <= k < i + j ==> dest[k] == CryptByte(g, origin, start, input, k)
      invariant forall k :: (0 <= k < i || i + j <= k < |input|) ==> dest[k] == old(dest[k])
    {
      CryptByteInBlock(g, origin, n, offset + j, start, input, i + j);
      dest[i + j] := input[i + j] ^ block[offset + j];
    }
  }

  /** Names the states at which the generator is looked into. */
  ghost predicate Asked<W>(s: State<W>) { true }

  ghost predicate Generates<W(!new)>(g: Generator<State<W>>, ops: Ops<W>) {
    match g
    case Generator(block, next) =>
      forall s {:trigger Asked(s)} :: Asked(s) ==> block(s) == Block(ops, s) && next(s) == Next(ops, s)
  }

  lemma GeneratesBlock<W(!new)>(g: Generator<State<W>>, ops: Ops<W>, s: State<W>)
    requires Generates(g, ops)
    ensures g.block(s) == Block(ops, s)
  {
    assert Asked(s);
  }

  lemma GeneratesNext<W(!new)>(g: Generator<State<W>>, ops: Ops<W>, s: State<W>)
    requires Generates(g, ops)
    ensures g.next(s) == Next(ops, s)
  {
    assert Asked(s);
  }

  lemma CipherGenerates<W(!new)>(ops: Ops<W>)
    ensures Generates(Cipher(ops), ops)
  {
    forall s: State<W> ensures Cipher(ops).block(s) == Block(ops, s) && Cipher(ops).next(s) == Next(ops, s) {
      CipherAt(ops, s);
    }
  }

  /** What the object enciphers is what the cipher of its operations enciphers. */
  lemma GeneratedCrypt<W(!new)>(g: Generator<State<W>>, ops: Ops<W>, origin: State<W>, pos: nat, data: seq<Byte>)
    requires Generates(g, ops)
    ensures Crypt(g, origin, pos, data) == Crypt(Cipher(ops), origin, pos, data)
  {
    var cipher := Cipher(ops);
    forall s ensures g.block(s) == cipher.block(s) && g.next(s) == cipher.next(s) {
      GeneratesBlock(g, ops, s);
      GeneratesNext(g, ops, s);
      CipherAt(ops, s);
    }
    CryptsAgree(g, cipher, origin, pos, data);
  }

  class ChaCha20<W(==,!new)> {
    const ops: Ops<W>
    const output: array<Byte>
    var state: State<W>
    var offset: nat

    /** The generator of the key stream, the state the stream started from and the blocks made since. */
    ghost const generator: Generator<State<W>>
    ghost var origin: State<W>
    ghost var blocks: nat

    /** The state is where the key stream has got to. */
    ghost predicate Placed()
      reads this
    {
      && Counts(ops) && Generates(generator, ops)
      && output.Length == BLOCK_SIZE
      && state == After(generator, origin, blocks)
      && ops.value(state.d.w0) == ops.value(origin.d.w0) + blocks <= EXHAUSTED
    }

    ghost predicate Valid()
      reads this, output
    {
      && Placed()
      && offset <= BLOCK_SIZE
      && (blocks == 0 ==> offset == BLOCK_SIZE)
      && (blocks > 0 ==> output[..] == generator.block(After(generator, origin, blocks - 1)))
    }

    /** The number of bytes of key stream used up. */
    ghost function Position(): int
      reads this
    {
      BLOCK_SIZE * blocks + offset - BLOCK_SIZE
    }

    constructor (ops: Ops<W>, key: seq<Byte>, nonce: seq<Byte>)
      requires Counts(ops)
      requires KeyLength(|key|) && (NonceLength(|nonce|) || |nonce| == 16)
      ensures Valid() && fresh(output)
      ensures this.ops == ops
      ensures state == origin == Expand(ops, key, nonce) && Position() == 0
    {
      this.ops := ops;
      generator := Cipher(ops);
      state := Expand(ops, key, nonce);
      output := new Byte[BLOCK_SIZE](_ => 0);
      offset := BLOCK_SIZE;
      origin := Expand(ops, key, nonce);
      blocks := 0;
      new;
      CipherGenerates(ops);
      assert CountsAt(ops, state.d.w0);
    }

    method MakeBlock()
      requires Generates(generator, ops) && output.Length == BLOCK_SIZE
      modifies output
      ensures output[..] == generator.block(state)
    {
      var mixed := Mix(ops, state);
      StateToBuffer(ops.bytes, WordsOf(mixed), output);
      GeneratesBlock(generator, ops, state);
    }

    /** The next block into the output buffer; panics once the counter comes round to zero. */
    method Update() returns (r: Outcome<()>)
      requires Placed()
      modifies this, output
      ensures origin == old(origin)
      ensures r.Panic? <==> ops.value(old(state).d.w0) == EXHAUSTED
      ensures r.Done? ==> Valid() && offset == 0 && blocks == old(blocks) + 1
    {
      MakeBlock();
      GeneratesNext(generator, ops, state);
      assert CountsAt(ops, state.d.w0);
      state := Next(ops, state);
      assert CountsAt(ops, state.d.w0);
      blocks := blocks + 1;
      if state.d.w0 == ops.zero {
        return Panic;
      }
      offset := 0;
      return Done(());
    }

    /** Makes sure that there is a byte to read. */
    method Refill() returns (r: Outcome<()>)
      requires Valid()
      modifies this, output
      ensures origin == old(origin)
      ensures r.Panic? <==> old(Position()) == Limit(ops, origin)
      ensures r.Done? ==> Valid() && blocks > 0 && offset < BLOCK_SIZE && Position() == old(Position())
    {
      if offset == BLOCK_SIZE {
        r := Update();
      } else {
        r := Done(());
      }
    }

    /** Spends on `input`, from i on, as many of the bytes in the buffer as it can use. */
    method Spend(input: seq<Byte>, i: nat, dest: array<Byte>, ghost start: nat) returns (end: nat)
      requires Valid() && blocks > 0 && offset < BLOCK_SIZE && Position() == start + i
      requires i < |input| == dest.Length && dest != output
      modifies `offset, dest
      ensures Valid() && i < end <= |input| && Position() == start + end
      ensures forall k :: i <= k < end ==> dest[k] == CryptByte(generator, origin, start, input, k)
      ensures forall k :: (0 <= k < i || end <= k < |input|) ==> dest[k] == old(dest[k])
    {
      var count := if BLOCK_SIZE - offset <= |input| - i then BLOCK_SIZE - offset else |input| - i;
      ghost var made, from := blocks, offset;
      XorInto(output[..], offset, input, i, count, dest, generator, origin, blocks - 1, start);
      assert blocks == made && offset == from;
      offset := offset + count;
      assert Position() == start + (i + count);
      return i + count;
    }

    /**
     Xors the key stream into `input`, from the current position on, whatever is left in the buffer;
     panics exactly when the stream does not reach that far.
     */
    method Process(input: seq<Byte>, dest: array<Byte>) returns (r: Outcome<()>)
      requires Valid() && |input| == dest.Length && dest != output
      modifies this, output, dest
      ensures origin == old(origin)
      ensures r.Panic? <==> old(Position()) + |input| > Limit(ops, origin)
      ensures r.Done? ==> Valid() && Position() == old(Position()) + |input|
      ensures r.Done? ==> dest[..] == Crypt(generator, origin, old(Position()), input)
    {
      ghost var start := Position();
      var i := 0;
      while i < |input|
        invariant Valid() && origin == old(origin) && i <= |input| && Position() == start + i
        invariant forall k :: 0 <= k < i ==> dest[k] == CryptByte(generator, origin, start, input, k)
      {
        var ready := Refill();
        if ready.Panic? {
          return Panic;
        }
        i := Spend(input, i, dest, start);
      }
      Complete(generator, origin, start, input, dest[..]);
      return Done(());
    }

    /** As `Process`, with the input overwritten by the output. */
    method ProcessInPlace(data: array<Byte>) returns (r: Outcome<()>)
      requires Valid() && data != output
      modifies this, output, data
      ensures origin == old(origin)
      ensures r.Panic? <==> old(Position()) + data.Length > Limit(ops, origin)
      ensures r.Done? ==> Valid() && Position() == old(Position()) + data.Length
      ensures r.Done? ==> data[..] == Crypt(generator, origin, old(Position()), old(data[..]))
    {
      ghost var start, input := Position(), data[..];
      var i := 0;
      while i < data.Length
        invariant Valid() && origin == old(origin) && i <= data.Length && Position() == start + i
        invariant forall k :: 0 <= k < i ==> data[k] == CryptByte(generator, origin, start, input, k)
        invariant forall k :: i <= k < data.Length ==> data[k] == input[k]
      {
        var ready := Refill();
        if ready.Panic? {
          return Panic;
        }
        ghost var now := data[..];
        var end := Spend(data[..], i, data, start);
        forall k | i <= k < end ensures data[k] == CryptByte(generator, origin, start, input, k) {
          assert data[k] == CryptByte(generator, origin, start, now, k);
        }
        i := end;
      }
      Complete(generator, origin, start, input, data[..]);
      return Done(());
    }

    /** Moves to a block chosen by its counter; the key stream starts again from there. */
    method SeekToBlock(counter: W) returns (r: Outcome<()>)
      requires Valid()
      modifies this, output
      ensures origin == old(state).(d := old(state).d.(w0 := counter))
      ensures r.Panic? <==> ops.value(counter) == EXHAUSTED
      ensures r.Done? ==> Valid() && Position() == 0
    {
      state := state.(d := state.d.(w0 := counter));
      origin, blocks := state, 0;
      assert CountsAt(ops, counter);
      r := Update();
    }

    /** The next bytes of the key stream themselves. */
    method ReadStream(n: nat) returns (r: Outcome<seq<Byte>>)
      requires Valid() && Position() == 0
      modifies this, output
      ensures r.Panic? <==> n > Limit(ops, origin)
      ensures origin == old(origin)
      ensures r.Done? ==> r.value == Crypt(generator, origin, 0, Zeros(n))
    {
      var bytes := new Byte[n](_ => 0);
      ghost var zeros := bytes[..];
      assert zeros == Zeros(n);
      var done := ProcessInPlace(bytes);
      r := if done.Panic? then Panic else Done(bytes[..]);
    }
  }

  /** A fresh cipher over a whole buffer. */
  method Encipher<W(==,!new)>(ops: Ops<W>, key: seq<Byte>, nonce: seq<Byte>, data: array<Byte>)
    returns (r: Outcome<()>)
    requires Counts(ops) && KeyLength(|key|) && (NonceLength(|nonce|) || |nonce| == 16)
    modifies data
    ensures r.Panic? <==> data.Length > Limit(ops, Expand(ops, key, nonce))
    ensures r.Done? ==> data[..] == Crypt(Cipher(ops), Expand(ops, key, nonce), 0, old(data[..]))
  {
    var cipher := new ChaCha20(ops, key, nonce);
    GeneratedCrypt(cipher.generator, ops, cipher.origin, 0, data[..]);
    r := cipher.ProcessInPlace(data);
  }

  /** The first 32 bytes of one block, the counter being the first word of the nonce. */
  method GetSingleBlock<W(==,!new)>(ops: Ops<W>, key: seq<Byte>, nonce: seq<Byte>) returns (r: Outcome<seq<Byte>>)
    requires Counts(ops) && |key| == 32 && |nonce| == 16
    ensures r.Panic? <==> ops.value(Expand(ops, key, nonce).d.w0) == EXHAUSTED
    ensures r.Done? ==> r.value == Crypt(Cipher(ops), Expand(ops, key, nonce), 0, Zeros(32))
  {
    var cipher := new ChaCha20(ops, key, nonce);
    assert CountsAt(ops, Expand(ops, key, nonce).d.w0);
    GeneratedCrypt(cipher.generator, ops, cipher.origin, 0, Zeros(32));
    r := cipher.ReadStream(32);
  }

  /** A cipher moved to a block before anything is read from it. */
  method SeekAndRead<W(==,!new)>(ops: Ops<W>, key: seq<Byte>, nonce: seq<Byte>, counter: W)
    returns (r: Outcome<seq<Byte>>)
    requires Counts(ops) && |key| == 32 && |nonce| == 12
    ensures r.Panic? <==> ops.value(counter) == EXHAUSTED
    ensures var s := Expand(ops, key, nonce);
            r.Done? ==> r.value == Crypt(Cipher(ops), s.(d := s.d.(w0 := counter)), 0, Zeros(32))
  {
    var cipher := new ChaCha20(ops, key, nonce);
    assert CountsAt(ops, counter);
    var sought := cipher.SeekToBlock(counter);
    if sought.Panic? {
      return Panic;
    }
    GeneratedCrypt(cipher.generator, ops, cipher.origin, 0, Zeros(32));
    r := cipher.ReadStream(32);
  }

  /** The single block is what a cipher with the short nonce gives after seeking to the counter, panics included. */
  method SingleBlockBySeeking<W(==,!new)>(ops: Ops<W>, key: seq<Byte>, nonce: seq<Byte>)
    returns (single: Outcome<seq<Byte>>, sought: Outcome<seq<Byte>>)
    requires Counts(ops) && |key| == 32 && |nonce| == 16
    ensures single == sought
  {
    single := GetSingleBlock(ops, key, nonce);
    sought := SeekAndRead(ops, key, nonce[4..], ops.word(nonce[..4]));
    SeekIsCounter(ops, key, nonce);
  }
}
