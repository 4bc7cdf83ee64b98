/**
 The 32-bit words of ChaCha20: the operations of the storage client beside those of RFC 8439, and the two
 initial states. With these, what is proved of all word operations becomes the conformance of the client's
 cipher to the RFC.
 */
module ChaChaWords {
  import opened KeyStream
  import opened ChaCha
  import opened ChaChaStream

  type Word = bv32

  function Plus(x: Word, y: Word): Word { x + y }

  // The `rotate!` macro on one lane: xor, then the two shifts xored together.

  function Shift16(x: Word, y: Word): Word { ((x ^ y) << 16) ^ ((x ^ y) >> 16) }
  function Shift12(x: Word, y: Word): Word { ((x ^ y) << 12) ^ ((x ^ y) >> 20) }
  function Shift8(x: Word, y: Word): Word { ((x ^ y) << 8) ^ ((x ^ y) >> 24) }
  function Shift7(x: Word, y: Word): Word { ((x ^ y) << 7) ^ ((x ^ y) >> 25) }

  // The addition and the rotations of section 2.1 of RFC 8439.

  function AddModulo(x: Word, y: Word): Word { y + x }
  function Rotate16(x: Word, y: Word): Word { (x ^ y).RotateLeft(16) }
  function Rotate12(x: Word, y: Word): Word { (x ^ y).RotateLeft(12) }
  function Rotate8(x: Word, y: Word): Word { (x ^ y).RotateLeft(8) }
  function Rotate7(x: Word, y: Word): Word { (x ^ y).RotateLeft(7) }

  function LeBytes(w: Word): FourBytes {
    [(w & 0xFF) as Byte, ((w >> 8) & 0xFF) as Byte, ((w >> 16) & 0xFF) as Byte, (w >> 24) as Byte]
  }

  function FromLeBytes(b: FourBytes): Word {
    (b[0] as Word) | ((b[1] as Word) << 8) | ((b[2] as Word) << 16) | ((b[3] as Word) << 24)
  }

  function ByteValue(b: Byte): nat { b as int }

  function Number(value: Byte -> nat, b: FourBytes): nat {
    value(b[0]) + 0x100 * value(b[1]) + 0x1_0000 * value(b[2]) + 0x100_0000 * value(b[3])
  }

  /** A word as a number, read from its bytes. */
  function Value(byte: Byte -> nat): Word -> nat {
    (w: Word) => Number(byte, LeBytes(w))
  }

  function SourceWords(byte: Byte -> nat): Ops<Word> {
    Ops(Plus, Shift16, Shift12, Shift8, Shift7, 0, 1, LeBytes, FromLeBytes, Value(byte))
  }

  function SourceOps(): Ops<Word> {
    SourceWords(ByteValue)
  }

  function RfcOps(): Ops<Word> {
    Ops(AddModulo, Rotate16, Rotate12, Rotate8, Rotate7, 0, 1, LeBytes, FromLeBytes, Value(ByteValue))
  }

  lemma ShiftsRotate(x: Word, y: Word)
    ensures Shift16(x, y) == Rotate16(x, y) && Shift12(x, y) == Rotate12(x, y)
    ensures Shift8(x, y) == Rotate8(x, y) && Shift7(x, y) == Rotate7(x, y)
  {
  }

  lemma SourceOpsAreRfcOps()
    ensures SameOps(SourceOps(), RfcOps())
  {
    forall x: Word, y: Word {
      ShiftsRotate(x, y);
    }
  }

  lemma LeRoundTrip(w: Word)
    ensures FromLeBytes(LeBytes(w)) == w
  {
  }

  // ---------- words count modulo 2^32 ----------

  /** Bytes count modulo 2^8. */
  ghost predicate ByteCounts(value: Byte -> nat, b: Byte) {
    && value(b) <= 0xFF
    && (value(b) == 0 <==> b == 0)
    && (value(b) == 0xFF <==> b == 0xFF)
    && (b != 0xFF ==> value(b + 1) == value(b) + 1)
  }

  lemma ByteValueCounts(b: Byte)
    ensures ByteCounts(ByteValue, b)
  {
  }

  /** Adding one adds one to the lowest byte that is not full and empties the full ones below it. */
  ghost predicate Carry(b: FourBytes, c: FourBytes) {
    if b[0] != 0xFF then c == [b[0] + 1, b[1], b[2], b[3]]
    else if b[1] != 0xFF then c == [0, b[1] + 1, b[2], b[3]]
    else if b[2] != 0xFF then c == [0, 0, b[2] + 1, b[3]]
    else if b[3] != 0xFF then c == [0, 0, 0, b[3] + 1]
    else c == [0, 0, 0, 0]
  }

  lemma WordCarry(w: Word)
    ensures Carry(LeBytes(w), LeBytes(w + 1))
  {
  }

  lemma ZeroBytes(w: Word)
    ensures w == 0 <==> LeBytes(w) == [0, 0, 0, 0]
  {
  }

  lemma NumberBounds(value: Byte -> nat, b: FourBytes)
    requires forall x :: ByteCounts(value, x)
    ensures Number(value, b) <= EXHAUSTED
    ensures Number(value, b) == 0 <==> b == [0, 0, 0, 0]
  {
    assert ByteCounts(value, b[0]) && ByteCounts(value, b[1]) && ByteCounts(value, b[2]) && ByteCounts(value, b[3]);
  }

  lemma NumberSuccessor(value: Byte -> nat, b: FourBytes, c: FourBytes)
    requires forall x :: ByteCounts(value, x)
    requires Carry(b, c)
    ensures Number(value, c) == if Number(value, b) == EXHAUSTED then 0 else Number(value, b) + 1
  {
    assert ByteCounts(value, 0);
    assert ByteCounts(value, b[0]) && ByteCounts(value, b[1]) && ByteCounts(value, b[2]) && ByteCounts(value, b[3]);
  }

  lemma NumberCounts(value: Byte -> nat, w: Word)
    requires forall x :: ByteCounts(value, x)
    ensures Number(value, LeBytes(w)) <= EXHAUSTED
    ensures w == 0 <==> Number(value, LeBytes(w)) == 0
    ensures Number(value, LeBytes(w + 1))
            == if Number(value, LeBytes(w)) == EXHAUSTED then 0 else Number(value, LeBytes(w)) + 1
  {
    NumberBounds(value, LeBytes(w));
    ZeroBytes(w);
    WordCarry(w);
    NumberSuccessor(value, LeBytes(w), LeBytes(w + 1));
  }

  lemma BytesCount()
    ensures forall x :: ByteCounts(ByteValue, x)
  {
    forall x ensures ByteCounts(ByteValue, x) {
      ByteValueCounts(x);
    }
  }

  lemma WordsCountAt(value: Byte -> nat, x: Word)
    requires forall b :: ByteCounts(value, b)
    ensures CountsAt(SourceWords(value), x)
  {
    NumberCounts(value, x);
  }

  lemma SourceCounts()
    ensures Counts(SourceOps())
  {
    BytesCount();
    forall x: Word ensures CountsAt(SourceOps(), x) {
      WordsCountAt(ByteValue, x);
    }
  }

  // ---------- conformance ----------

  /** The constant words of section 2.3. */
  const RFC_CONSTANTS: Lanes<Word> := Lanes(0x61707865, 0x3320646e, 0x79622d32, 0x6b206574)

  lemma Constant()
    ensures LanesFrom(SourceOps(), CONSTANT_32) == RFC_CONSTANTS
  {
    Four(CONSTANT_32, 0);
    Four(CONSTANT_32, 4);
    Four(CONSTANT_32, 8);
    Four(CONSTANT_32, 12);
  }

  lemma ZeroWord()
    ensures SourceOps().word(Zeros(4)) == 0
  {
  }

  lemma SourceStartsAtZero()
    ensures StartsAtZero(SourceOps())
  {
    SourceCounts();
    ZeroWord();
    assert CountsAt(SourceOps(), SourceOps().word(Zeros(4)));
  }

  function RfcInitial(key: seq<Byte>, counter: Word, nonce: seq<Byte>): State<Word>
    requires |key| == 32 && |nonce| == 12
  {
    RfcState(RfcOps(), RFC_CONSTANTS, key, counter, nonce)
  }

  /** The block the client computes is the block of the RFC, for every key, counter and nonce. */
  lemma BlockConforms(key: seq<Byte>, counter: Word, nonce: seq<Byte>)
    requires |key| == 32 && |nonce| == 12
    ensures Block(SourceOps(), RfcInitial(key, counter, nonce)) == RfcBlock(RfcOps(), RfcInitial(key, counter, nonce))
  {
    SourceOpsAreRfcOps();
    BlocksAgree(SourceOps(), RfcOps(), RfcInitial(key, counter, nonce));
  }

  /** So is everything the client enciphers under a 32-byte key and a 12-byte nonce, from counter zero. */
  lemma CipherConforms(key: seq<Byte>, nonce: seq<Byte>, data: seq<Byte>)
    requires |key| == 32 && |nonce| == 12
    ensures Crypt(Cipher(SourceOps()), Expand(SourceOps(), key, nonce), 0, data)
            == BlockByBlock(RfcCipher(RfcOps()), RfcInitial(key, 0, nonce), data)
  {
    SourceOpsAreRfcOps();
    SourceCounts();
    Constant();
    ZeroWord();
    ExpandIsRfcState(SourceOps(), RfcOps(), key, nonce);
    CryptIsRfc(SourceOps(), RfcOps(), RfcInitial(key, 0, nonce), data);
  }

  /** With a 16-byte nonce it is the cipher of the RFC started at the counter in the first word. */
  lemma CounterConforms(key: seq<Byte>, nonce: seq<Byte>, data: seq<Byte>)
    requires |key| == 32 && |nonce| == 16
    ensures Crypt(Cipher(SourceOps()), Expand(SourceOps(), key, nonce), 0, data)
            == BlockByBlock(RfcCipher(RfcOps()), RfcInitial(key, FromLeBytes(nonce[..4]), nonce[4..]), data)
  {
    SourceOpsAreRfcOps();
    SourceCounts();
    Constant();
    ExpandWithCounter(SourceOps(), RfcOps(), key, nonce);
    CryptIsRfc(SourceOps(), RfcOps(), RfcInitial(key, FromLeBytes(nonce[..4]), nonce[4..]), data);
  }

  /** The words of "expand 16-byte k". */
  const SHORT_CONSTANTS: Lanes<Word> := Lanes(0x61707865, 0x3120646e, 0x79622d36, 0x6b206574)

  function FourWords(b: seq<Byte>): Lanes<Word>
    requires |b| == 16
  {
    Lanes(FromLeBytes(b[0..4]), FromLeBytes(b[4..8]), FromLeBytes(b[8..12]), FromLeBytes(b[12..16]))
  }

  lemma ShortConstant()
    ensures LanesFrom(SourceOps(), CONSTANT_16) == SHORT_CONSTANTS
  {
    Four(CONSTANT_16, 0);
    Four(CONSTANT_16, 4);
    Four(CONSTANT_16, 8);
    Four(CONSTANT_16, 12);
  }

  /** A 16-byte key fills both rows of the key, under constants of its own. */
  lemma ShortKeyTwice(key: seq<Byte>, nonce: seq<Byte>)
    requires |key| == 16 && |nonce| == 16
    ensures Expand(SourceOps(), key, nonce) ==
            State(SHORT_CONSTANTS, FourWords(key), FourWords(key), FourWords(nonce))
  {
    ShortConstant();
    assert key[0..16] == key && Zeros(0) + nonce == nonce;
  }
}
