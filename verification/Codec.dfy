/**
 What the storage client does to a value on its way to the server and back: a MAC over key, version and
 value is appended, and the whole is enciphered under a nonce derived from key and version.
 */
module Codec {
  import opened Wrappers
  import opened KeyStream
  import opened ChaCha
  import opened ChaChaStream
  import ChaChaWords

  const TAG_SIZE := 32

  type Digest = b: seq<Byte> | |b| == 32 ghost witness Zeros(32)

  /** HMAC-SHA256 under a secret, and SHA-256. */
  datatype Hashes = Hashes(hmac: (seq<Byte>, seq<Byte>) -> Digest, sha256: seq<Byte> -> Digest)

  function BeBytes(v: bv64): (r: seq<Byte>)
    ensures |r| == 8
  {
    [(v >> 56) as Byte, ((v >> 48) & 0xFF) as Byte, ((v >> 40) & 0xFF) as Byte, ((v >> 32) & 0xFF) as Byte,
     ((v >> 24) & 0xFF) as Byte, ((v >> 16) & 0xFF) as Byte, ((v >> 8) & 0xFF) as Byte, (v & 0xFF) as Byte]
  }

  /** Everything a value is bound to; `encrypts` is the "crypt" feature of the build. */
  datatype Context<!W> = Context(
    ops: Ops<W>, hashes: Hashes, encrypts: bool, secret: seq<Byte>, key: seq<Byte>, version: bv64)

  function Tag<W>(c: Context<W>, value: seq<Byte>): Digest {
    c.hashes.hmac(c.secret, MacInput(c, value))
  }

  function Nonce<W>(c: Context<W>): (r: seq<Byte>)
    ensures |r| == 12
  {
    c.hashes.sha256(c.key + BeBytes(c.version))[..12]
  }

  /** The bytes a single cipher can produce from counter zero. */
  const CAPACITY := BLOCK_SIZE * EXHAUSTED

  /** What the cipher asserts of its key, and the length at which its counter runs out. */
  predicate Fits<W>(c: Context<W>, length: nat) {
    c.encrypts ==> KeyLength(|c.secret|) && length <= CAPACITY
  }

  function Ciphered<W>(c: Context<W>, data: seq<Byte>): (r: seq<Byte>)
    requires c.encrypts ==> KeyLength(|c.secret|)
  {
    if c.encrypts then Crypt(Cipher(c.ops), Expand(c.ops, c.secret, Nonce(c)), 0, data) else data
  }

  function Sealed<W>(c: Context<W>, value: seq<Byte>): seq<Byte>
    requires c.encrypts ==> KeyLength(|c.secret|)
  {
    Ciphered(c, value + Tag(c, value))
  }

  /** The value inside deciphered bytes, if their tag is right. */
  function Untagged<W>(c: Context<W>, plain: seq<Byte>): Option<seq<Byte>> {
    if |plain| < TAG_SIZE then None
    else
      var value := plain[..|plain| - TAG_SIZE];
      if plain[|plain| - TAG_SIZE..] == Tag(c, value) then Some(value) else None
  }

  function Opened<W>(c: Context<W>, stored: seq<Byte>): Option<seq<Byte>>
    requires c.encrypts ==> KeyLength(|c.secret|)
  {
    Untagged(c, Ciphered(c, stored))
  }

  lemma CipheredTwice<W>(c: Context<W>, data: seq<Byte>)
    requires c.encrypts ==> KeyLength(|c.secret|)
    ensures Ciphered(c, Ciphered(c, data)) == data && |Ciphered(c, data)| == |data|
  {
    if c.encrypts {
      CryptTwice(Cipher(c.ops), Expand(c.ops, c.secret, Nonce(c)), 0, data);
    }
  }

  lemma UntaggedIff<W>(c: Context<W>, plain: seq<Byte>, value: seq<Byte>)
    ensures Untagged(c, plain) == Some(value) <==> plain == value + Tag(c, value)
  {
    var tagged := value + Tag(c, value);
    assert tagged[..|tagged| - TAG_SIZE] == value && tagged[|tagged| - TAG_SIZE..] == Tag(c, value);
    if |plain| >= TAG_SIZE {
      assert plain == plain[..|plain| - TAG_SIZE] + plain[|plain| - TAG_SIZE..];
    }
  }

  /**
   What comes back is what was put, and nothing else is accepted: reading yields a value exactly from the
   bytes that putting this value under this key and version would have stored.
   */
  lemma OpenedIff<W>(c: Context<W>, stored: seq<Byte>, value: seq<Byte>)
    requires c.encrypts ==> KeyLength(|c.secret|)
    ensures Opened(c, stored) == Some(value) <==> stored == Sealed(c, value)
  {
    CipheredTwice(c, stored);
    CipheredTwice(c, value + Tag(c, value));
    UntaggedIff(c, Ciphered(c, stored), value);
  }

  /** What the MAC is computed over. */
  function MacInput<W>(c: Context<W>, value: seq<Byte>): seq<Byte> {
    c.key + BeBytes(c.version) + value
  }

  lemma BeBytesInjective(v: bv64, w: bv64)
    requires BeBytes(v) == BeBytes(w)
    ensures v == w
  {
    var a, b := BeBytes(v), BeBytes(w);
    assert a[0] == b[0] && a[1] == b[1] && a[2] == b[2] && a[3] == b[3];
    assert a[4] == b[4] && a[5] == b[5] && a[6] == b[6] && a[7] == b[7];
  }

  /** Big-endian: the bytes put together again, the first one highest. */
  lemma BeBytesSpec(v: bv64)
    ensures var b := BeBytes(v);
            v == ((b[0] as bv64) << 56) | ((b[1] as bv64) << 48) | ((b[2] as bv64) << 40) | ((b[3] as bv64) << 32)
                 | ((b[4] as bv64) << 24) | ((b[5] as bv64) << 16) | ((b[6] as bv64) << 8) | (b[7] as bv64)
  {
  }

  /** For one value the MAC input tells key and version apart, although nothing in it says where the key ends. */
  lemma MacInputBinds<W>(a: Context<W>, b: Context<W>, value: seq<Byte>)
    ensures MacInput(a, value) == MacInput(b, value) <==> a.key == b.key && a.version == b.version
  {
    if MacInput(a, value) == MacInput(b, value) {
      var input := MacInput(a, value);
      var n := |a.key|;
      assert |input| == n + 8 + |value| == |b.key| + 8 + |value|;
      assert a.key == input[..n] == b.key;
      assert BeBytes(a.version) == input[n..n + 8] == BeBytes(b.version);
      BeBytesInjective(a.version, b.version);
    }
  }

  /** What is left over of b's key and version where a's key and version end. */
  function Overhang<W>(a: Context<W>, b: Context<W>): (r: seq<Byte>)
    requires |a.key| <= |b.key|
    ensures |r| == |b.key| - |a.key|
  {
    (b.key[|a.key|..] + BeBytes(b.version))[8..]
  }

  /** Read in one piece, b's key and version begin with those of a. */
  predicate Overlaps<W>(a: Context<W>, b: Context<W>)
    requires |a.key| <= |b.key|
  {
    a.key <= b.key && (b.key[|a.key|..] + BeBytes(b.version))[..8] == BeBytes(a.version)
  }

  /**
   Two values have one MAC input exactly if the longer key and its version begin with the shorter key and
   its version, and the value under the shorter key begins with what is left over of them.
   */
  lemma MacInputsMeet<W>(a: Context<W>, b: Context<W>, v: seq<Byte>, w: seq<Byte>)
    requires |a.key| <= |b.key|
    ensures MacInput(a, v) == MacInput(b, w) <==> Overlaps(a, b) && v == Overhang(a, b) + w
  {
    var n := |a.key|;
    var rest := b.key[n..] + BeBytes(b.version);
    assert MacInput(a, v) == a.key + (BeBytes(a.version) + v);
    assert MacInput(b, w) == b.key[..n] + (rest + w);
    SplitEqual(a.key, BeBytes(a.version) + v, b.key[..n], rest + w);
    assert rest + w == rest[..8] + (rest[8..] + w);
    SplitEqual(BeBytes(a.version), v, rest[..8], rest[8..] + w);
  }

  lemma SplitEqual(a: seq<Byte>, b: seq<Byte>, c: seq<Byte>, d: seq<Byte>)
    requires |a| == |c|
    ensures a + b == c + d <==> a == c && b == d
  {
    assert (a + b)[..|a|] == a && (a + b)[|a|..] == b;
    assert (c + d)[..|c|] == c && (c + d)[|c|..] == d;
  }

  /** Two MAC inputs that differ and have the same MAC. */
  predicate Collide<W>(a: Context<W>, v: seq<Byte>, b: Context<W>, w: seq<Byte>) {
    MacInput(a, v) != MacInput(b, w) && Tag(a, v) == Tag(b, w)
  }

  /**
   Without encryption, the tag made for one value, key and version is accepted with another value under
   another key and version exactly if their MAC inputs are the same or collide.
   */
  lemma RetaggedIff<W>(from: Context<W>, to: Context<W>, value: seq<Byte>, other: seq<Byte>)
    requires !from.encrypts && !to.encrypts && from.hashes == to.hashes && from.secret == to.secret
    ensures Opened(to, other + Tag(from, value)) == Some(other) <==>
            MacInput(from, value) == MacInput(to, other) || Collide(from, value, to, other)
  {
    OpenedIff(to, other + Tag(from, value), other);
    assert Sealed(to, other) == other + Tag(to, other);
    if other + Tag(from, value) == other + Tag(to, other) {
      SameTail(other, Tag(from, value), other, Tag(to, other));
    }
  }

  /**
   A value moves between keys: eight zero bytes of it, taken for a version, go over to the key, and what is
   left is accepted there with the old tag.
   */
  lemma CutValueAccepted<W>(from: Context<W>, to: Context<W>, value: seq<Byte>)
    requires !from.encrypts && !to.encrypts && from.hashes == to.hashes && from.secret == to.secret
    requires from.key == [] && from.version == to.version == 0 && to.key == BeBytes(0)
    ensures var zeros := BeBytes(0);
            Opened(to, Sealed(from, zeros + value)[|zeros|..]) == Some(value)
  {
    var zeros := BeBytes(0);
    var tag := Tag(from, zeros + value);
    assert (to.key[0..] + BeBytes(0))[..8] == BeBytes(0) && (to.key[0..] + BeBytes(0))[8..] == BeBytes(0);
    MacInputsMeet(from, to, zeros + value, value);
    RetaggedIff(from, to, zeros + value, value);
    assert Sealed(from, zeros + value) == zeros + value + tag;
    assert (zeros + value + tag)[|zeros|..] == value + tag;
  }

  /**
   Without encryption, bytes stored under one key and version are accepted under another only as the same
   value, and only if the key and the version are the same or the two MAC inputs differ and collide.
   */
  lemma MovedIff<W>(from: Context<W>, to: Context<W>, value: seq<Byte>, other: seq<Byte>)
    requires !from.encrypts && !to.encrypts && from.hashes == to.hashes && from.secret == to.secret
    ensures Opened(to, Sealed(from, value)) == Some(other) <==>
            && other == value
            && ((from.key == to.key && from.version == to.version) || Collide(from, value, to, value))
  {
    OpenedIff(to, Sealed(from, value), other);
    MacInputBinds(from, to, value);
    assert Ciphered(from, value + Tag(from, value)) == value + Tag(from, value);
    if value + Tag(from, value) == other + Tag(to, other) {
      SameTail(value, Tag(from, value), other, Tag(to, other));
    }
  }

  // ---------- the nonce ----------

  /** Nonces are the same exactly if the hashes of key and version agree in their first twelve bytes. */
  lemma NoncesAgreeIff<W>(a: Context<W>, b: Context<W>)
    ensures Nonce(a) == Nonce(b) <==>
            forall i | 0 <= i < 12 ::
              a.hashes.sha256(a.key + BeBytes(a.version))[i] == b.hashes.sha256(b.key + BeBytes(b.version))[i]
  {
    var x, y := a.hashes.sha256(a.key + BeBytes(a.version)), b.hashes.sha256(b.key + BeBytes(b.version));
    assert Nonce(a) == x[..12] && Nonce(b) == y[..12];
    assert forall i | 0 <= i < 12 :: x[..12][i] == x[i] && y[..12][i] == y[i];
  }

  /** Where the key stream of a context starts: keyed with the secret, its nonce from key and version. */
  function Start<W>(c: Context<W>): State<W>
    requires KeyLength(|c.secret|)
  {
    Expand(c.ops, c.secret, c.hashes.sha256(c.key + BeBytes(c.version))[..12])
  }

  /** With encryption, moved bytes are accepted exactly if both key streams leave a value with a right tag. */
  lemma MovedEncryptedIff<W>(from: Context<W>, to: Context<W>, value: seq<Byte>, other: seq<Byte>)
    requires from.encrypts && to.encrypts && KeyLength(|from.secret|) && KeyLength(|to.secret|)
    ensures Opened(to, Sealed(from, value)) == Some(other) <==>
            BothOn(Cipher(from.ops), Start(from), Cipher(to.ops), Start(to),
                   value + Tag(from, value), other + Tag(to, other))
  {
    var data, tagged := value + Tag(from, value), other + Tag(to, other);
    UntaggedIff(to, Ciphered(to, Ciphered(from, data)), other);
    CryptBothIff(Cipher(from.ops), Start(from), Cipher(to.ops), Start(to), data, tagged);
  }

  /**
   The stored form in full: key, big-endian version and value under HMAC, the tag after the value, and both
   under the cipher of RFC 8439, keyed with the secret, from counter zero, the nonce being the first twelve
   bytes of the hash of key and version.
   */
  lemma StoredForm(c: Context<ChaChaWords.Word>, value: seq<Byte>)
    requires c.ops == ChaChaWords.SourceOps() && c.encrypts && |c.secret| == 32
    ensures var version := BeBytes(c.version);
            var nonce := c.hashes.sha256(c.key + version)[..12];
            var tag := c.hashes.hmac(c.secret, c.key + version + value);
            Sealed(c, value) ==
            BlockByBlock(RfcCipher(ChaChaWords.RfcOps()), ChaChaWords.RfcInitial(c.secret, 0, nonce), value + tag)
  {
    ChaChaWords.CipherConforms(c.secret, Nonce(c), value + Tag(c, value));
  }

  lemma SameTail(a: seq<Byte>, x: Digest, b: seq<Byte>, y: Digest)
    requires a + x == b + y
    ensures a == b && x == y
  {
    assert |a| == |b|;
    assert a == (a + x)[..|a|] == (b + y)[..|b|] == b;
    assert x == (a + x)[|a|..] == (b + y)[|b|..] == y;
  }

  // ---------- in place ----------

  lemma WholeCapacity<W>(c: Context<W>)
    requires KeyLength(|c.secret|) && StartsAtZero(c.ops)
    ensures Limit(c.ops, Expand(c.ops, c.secret, Nonce(c))) == CAPACITY
  {
    var b := Zeros(4) + Nonce(c);
    SameFour(b, 0, Zeros(4), 0);
    assert Zeros(4)[0..4] == Zeros(4);
  }

  class Value<W(==,!new)> {
    var value: seq<Byte>

    constructor (value: seq<Byte>)
      ensures this.value == value
    {
      this.value := value;
    }

    method AppendHmac(c: Context<W>)
      modifies this
      ensures value == old(value) + Tag(c, old(value))
    {
      var hmac := Tag(c, value);
      value := value + hmac;
    }

    method CryptValue(c: Context<W>) returns (r: Outcome<()>)
      requires Counts(c.ops) && StartsAtZero(c.ops)
      modifies this
      ensures r.Done? <==> Fits(c, |old(value)|)
      ensures r.Done? ==> value == Ciphered(c, old(value))
    {
      if !c.encrypts {
        return Done(());
      }
      if !KeyLength(|c.secret|) {
        return Panic;
      }
      WholeCapacity(c);
      var buffer := new Byte[|value|](i requires 0 <= i < |value| reads this => value[i]);
      assert buffer[..] == value;
      r := Encipher(c.ops, c.secret, Nonce(c), buffer);
      value := buffer[..];
    }

    method PrepareForPut(c: Context<W>) returns (r: Outcome<()>)
      requires Counts(c.ops) && StartsAtZero(c.ops)
      modifies this
      ensures r.Done? <==> Fits(c, |old(value)| + TAG_SIZE)
      ensures r.Done? ==> value == Sealed(c, old(value))
    {
      AppendHmac(c);
      r := CryptValue(c);
    }

    /** Cuts the tag off and compares it; a value too short to hold one is left as it is. */
    method RemoveAndCheckHmac(c: Context<W>) returns (r: Result<()>)
      modifies this
      ensures r.Ok? <==> Untagged(c, old(value)).Some?
      ensures r.Ok? ==> value == Untagged(c, old(value)).value
      ensures r.Refused? ==>
                value == if |old(value)| < TAG_SIZE then old(value) else old(value)[..|old(value)| - TAG_SIZE]
    {
      if |value| < TAG_SIZE {
        return Refused;
      }
      var expected := value[|value| - TAG_SIZE..];
      value := value[..|value| - TAG_SIZE];
      var hmac := Tag(c, value);
      return if hmac == expected then Ok(()) else Refused;
    }

    method ProcessFromGet(c: Context<W>) returns (r: Outcome<Result<()>>)
      requires Counts(c.ops) && StartsAtZero(c.ops)
      modifies this
      ensures r.Done? <==> Fits(c, |old(value)|)
      ensures r.Done? ==> (r.value.Ok? <==> Opened(c, old(value)).Some?)
      ensures r.Done? && r.value.Ok? ==> Opened(c, old(value)) == Some(value)
    {
      var crypted := CryptValue(c);
      if crypted.Panic? {
        return Panic;
      }
      var checked := RemoveAndCheckHmac(c);
      return Done(checked);
    }
  }
}
