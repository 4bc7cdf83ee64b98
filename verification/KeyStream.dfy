/**
 Stream ciphers over any block generator: the key stream is the blocks of the successive states, and
 enciphering xors it in. Everything said here is about the arrangement of blocks, not their contents.
 */
module KeyStream {
  type Byte = bv8

  const BLOCK_SIZE := 64

  function Zeros(n: nat): (r: seq<Byte>)
    ensures |r| == n
  {
    seq(n, _ => 0)
  }

  type Bytes64 = b: seq<Byte> | |b| == 64 ghost witness Zeros(64)

  /** What a state yields, and the state that follows it. */
  datatype Generator<!S> = Generator(block: S -> Bytes64, next: S -> S)

  function After<S>(g: Generator<S>, s: S, n: nat): S {
    if n == 0 then s else g.next(After(g, s, n - 1))
  }

  /** Byte number p of the key stream that starts at `origin`. */
  function KeyByte<S>(g: Generator<S>, origin: S, p: nat): Byte {
    g.block(After(g, origin, p / BLOCK_SIZE))[p % BLOCK_SIZE]
  }

  /** Byte number k of the data, enciphered from position `pos` on. */
  function CryptByte<S>(g: Generator<S>, origin: S, pos: nat, data: seq<Byte>, k: nat): Byte
    requires k < |data|
  {
    data[k] ^ KeyByte(g, origin, pos + k)
  }

  function Crypt<S>(g: Generator<S>, origin: S, pos: nat, data: seq<Byte>): (r: seq<Byte>)
    ensures |r| == |data|
  {
    seq(|data|, k requires 0 <= k < |data| => CryptByte(g, origin, pos, data, k))
  }

  /** Every byte of the data with both key streams on it. */
  ghost predicate BothOn<S, T>(g: Generator<S>, a: S, h: Generator<T>, b: T, data: seq<Byte>, r: seq<Byte>) {
    |r| == |data| && forall k | 0 <= k < |data| :: r[k] == data[k] ^ KeyByte(g, a, k) ^ KeyByte(h, b, k)
  }

  /** One key stream after another gives the bytes with both on them, and those only. */
  lemma CryptBothIff<S, T>(g: Generator<S>, a: S, h: Generator<T>, b: T, data: seq<Byte>, r: seq<Byte>)
    ensures Crypt(h, b, 0, Crypt(g, a, 0, data)) == r <==> BothOn(g, a, h, b, data, r)
  {
    var c := Crypt(h, b, 0, Crypt(g, a, 0, data));
    assert forall k | 0 <= k < |data| :: c[k] == data[k] ^ KeyByte(g, a, k) ^ KeyByte(h, b, k);
  }

  lemma {:induction false} AfterShift<S>(g: Generator<S>, s: S, n: nat)
    ensures After(g, g.next(s), n) == After(g, s, n + 1)
  {
    if n > 0 {
      AfterShift(g, s, n - 1);
    }
  }

  lemma KeyByteInBlock<S>(g: Generator<S>, origin: S, n: nat, j: nat)
    requires j < BLOCK_SIZE
    ensures KeyByte(g, origin, BLOCK_SIZE * n + j) == g.block(After(g, origin, n))[j]
  {
    assert (BLOCK_SIZE * n + j) / BLOCK_SIZE == n && (BLOCK_SIZE * n + j) % BLOCK_SIZE == j;
  }

  lemma CryptByteInBlock<S>(g: Generator<S>, origin: S, n: nat, j: nat, pos: nat, data: seq<Byte>, k: nat)
    requires j < BLOCK_SIZE && k < |data| && pos + k == BLOCK_SIZE * n + j
    ensures CryptByte(g, origin, pos, data, k) == data[k] ^ g.block(After(g, origin, n))[j]
  {
    KeyByteInBlock(g, origin, n, j);
  }

  lemma KeyByteShift<S>(g: Generator<S>, origin: S, p: nat)
    ensures KeyByte(g, origin, BLOCK_SIZE + p) == KeyByte(g, g.next(origin), p)
  {
    AfterShift(g, origin, p / BLOCK_SIZE);
    assert (BLOCK_SIZE + p) / BLOCK_SIZE == p / BLOCK_SIZE + 1 && (BLOCK_SIZE + p) % BLOCK_SIZE == p % BLOCK_SIZE;
  }

  lemma XorTwice(x: Byte, k: Byte)
    ensures (x ^ k) ^ k == x
  {
  }

  /** Deciphering is enciphering again at the same place. */
  lemma CryptTwice<S>(g: Generator<S>, origin: S, pos: nat, data: seq<Byte>)
    ensures Crypt(g, origin, pos, Crypt(g, origin, pos, data)) == data
  {
    forall k | 0 <= k < |data| ensures Crypt(g, origin, pos, Crypt(g, origin, pos, data))[k] == data[k] {
      XorTwice(data[k], KeyByte(g, origin, pos + k));
    }
  }

  /** Pieces enciphered one after the other are the whole enciphered at once. */
  lemma CryptAppend<S>(g: Generator<S>, origin: S, pos: nat, a: seq<Byte>, b: seq<Byte>)
    ensures Crypt(g, origin, pos, a + b) == Crypt(g, origin, pos, a) + Crypt(g, origin, pos + |a|, b)
  {
    forall k | |a| <= k < |a + b|
      ensures Crypt(g, origin, pos, a + b)[k] == Crypt(g, origin, pos + |a|, b)[k - |a|]
    {
      assert pos + k == pos + |a| + (k - |a|);
    }
  }

  lemma CryptNextBlock<S>(g: Generator<S>, origin: S, data: seq<Byte>)
    ensures Crypt(g, origin, BLOCK_SIZE, data) == Crypt(g, g.next(origin), 0, data)
  {
    forall k | 0 <= k < |data|
      ensures CryptByte(g, origin, BLOCK_SIZE, data, k) == CryptByte(g, g.next(origin), 0, data, k)
    {
      KeyByteShift(g, origin, k);
    }
  }

  // ---------- the same, block by block ----------

  function XorPrefix(data: seq<Byte>, block: seq<Byte>): (r: seq<Byte>)
    requires |data| <= |block|
    ensures |r| == |data|
  {
    seq(|data|, k requires 0 <= k < |data| && |data| <= |block| => data[k] ^ block[k])
  }

  function BlockByBlock<S>(g: Generator<S>, s: S, data: seq<Byte>): seq<Byte>
    decreases |data|
  {
    if |data| <= BLOCK_SIZE then XorPrefix(data, g.block(s))
    else XorPrefix(data[..BLOCK_SIZE], g.block(s)) + BlockByBlock(g, g.next(s), data[BLOCK_SIZE..])
  }

  ghost predicate Agree<S(!new)>(f: Generator<S>, g: Generator<S>) {
    forall s :: f.block(s) == g.block(s) && f.next(s) == g.next(s)
  }

  lemma CryptInBlock<S>(g: Generator<S>, origin: S, data: seq<Byte>)
    requires |data| <= BLOCK_SIZE
    ensures Crypt(g, origin, 0, data) == XorPrefix(data, g.block(origin))
  {
    forall k | 0 <= k < |data| ensures CryptByte(g, origin, 0, data, k) == data[k] ^ g.block(origin)[k] {
      KeyByteInBlock(g, origin, 0, k);
    }
  }

  /** Reading the key stream byte by byte is the same as xoring block by block. */
  lemma {:induction false} CryptIsBlockByBlock<S(!new)>(f: Generator<S>, g: Generator<S>, s: S, data: seq<Byte>)
    requires Agree(f, g)
    ensures Crypt(f, s, 0, data) == BlockByBlock(g, s, data)
    decreases |data|
  {
    if |data| <= BLOCK_SIZE {
      CryptInBlock(f, s, data);
    } else {
      var first, rest := data[..BLOCK_SIZE], data[BLOCK_SIZE..];
      assert data == first + rest;
      CryptInBlock(f, s, first);
      CryptAppend(f, s, 0, first, rest);
      CryptNextBlock(f, s, rest);
      CryptIsBlockByBlock(f, g, f.next(s), rest);
    }
  }

  lemma {:induction false} AfterAgrees<S(!new)>(f: Generator<S>, g: Generator<S>, s: S, n: nat)
    requires Agree(f, g)
    ensures After(f, s, n) == After(g, s, n)
  {
    if n > 0 {
      AfterAgrees(f, g, s, n - 1);
    }
  }

  lemma CryptsAgree<S(!new)>(f: Generator<S>, g: Generator<S>, origin: S, pos: nat, data: seq<Byte>)
    requires Agree(f, g)
    ensures Crypt(f, origin, pos, data) == Crypt(g, origin, pos, data)
  {
    forall k | 0 <= k < |data|
      ensures CryptByte(f, origin, pos, data, k) == CryptByte(g, origin, pos, data, k)
    {
      AfterAgrees(f, g, origin, (pos + k) / BLOCK_SIZE);
    }
  }

  /** Every byte enciphered is the whole enciphered. */
  lemma Complete<S>(g: Generator<S>, origin: S, pos: nat, data: seq<Byte>, result: seq<Byte>)
    requires |result| == |data|
    requires forall k :: 0 <= k < |data| ==> result[k] == CryptByte(g, origin, pos, data, k)
    ensures result == Crypt(g, origin, pos, data)
  {
  }
}
