/**
 The ChaCha20 block function as the storage client computes it, four lanes at a time, and the block
 function of RFC 8439, section 2.3, that it is meant to be.

 Both are written over a record of word operations, so that the equivalence of the two shapes, lanes
 with swizzling against columns and diagonals, is one argument about any word operations. The operations
 themselves are in the module ChaChaWords.
 */
module ChaCha {
  import opened KeyStream

  type FourBytes = b: seq<Byte> | |b| == 4 witness [0, 0, 0, 0]

  /**
   Addition, and "xor into the first, then rotate left by n" for the four rotations in use; the words
   zero and one, words as little-endian bytes and back, and the number a word stands for.
   */
  datatype Ops<!W> = Ops(
    add: (W, W) -> W, turn16: (W, W) -> W, turn12: (W, W) -> W, turn8: (W, W) -> W, turn7: (W, W) -> W,
    zero: W, one: W, bytes: W -> FourBytes, word: FourBytes -> W, value: W -> nat)

  datatype Lanes<W> = Lanes(w0: W, w1: W, w2: W, w3: W)
  datatype State<W> = State(a: Lanes<W>, b: Lanes<W>, c: Lanes<W>, d: Lanes<W>)

  // ---------- four lanes at a time ----------

  function Lanewise<W>(f: (W, W) -> W, x: Lanes<W>, y: Lanes<W>): Lanes<W> {
    Lanes(f(x.w0, y.w0), f(x.w1, y.w1), f(x.w2, y.w2), f(x.w3, y.w3))
  }

  /** The `round!` macro. */
  function Round<W>(ops: Ops<W>, s: State<W>): State<W> {
    var a := Lanewise(ops.add, s.a, s.b);
    var d := Lanewise(ops.turn16, s.d, a);
    var c := Lanewise(ops.add, s.c, d);
    var b := Lanewise(ops.turn12, s.b, c);
    var a' := Lanewise(ops.add, a, b);
    var d' := Lanewise(ops.turn8, d, a');
    var c' := Lanewise(ops.add, c, d');
    var b' := Lanewise(ops.turn7, b, c');
    State(a', b', c', d')
  }

  /** `swizzle!(b, c, d)` */
  function Swizzle<W>(s: State<W>): State<W> {
    State(s.a,
          Lanes(s.b.w1, s.b.w2, s.b.w3, s.b.w0),
          Lanes(s.c.w2, s.c.w3, s.c.w0, s.c.w1),
          Lanes(s.d.w3, s.d.w0, s.d.w1, s.d.w2))
  }

  /** `swizzle!(d, c, b)` */
  function Unswizzle<W>(s: State<W>): State<W> {
    State(s.a,
          Lanes(s.b.w3, s.b.w0, s.b.w1, s.b.w2),
          Lanes(s.c.w2, s.c.w3, s.c.w0, s.c.w1),
          Lanes(s.d.w1, s.d.w2, s.d.w3, s.d.w0))
  }

  function DoubleRound<W>(ops: Ops<W>, s: State<W>): State<W> {
    Unswizzle(Round(ops, Swizzle(Round(ops, s))))
  }

  function Times<A>(step: A -> A, n: nat, x: A): A {
    if n == 0 then x else step(Times(step, n - 1, x))
  }

  function Sum<W>(ops: Ops<W>, r: State<W>, s: State<W>): State<W> {
    State(Lanewise(ops.add, r.a, s.a), Lanewise(ops.add, r.b, s.b),
          Lanewise(ops.add, r.c, s.c), Lanewise(ops.add, r.d, s.d))
  }

  /** The mixed state of one block: n double rounds, and the state they started from added in. */
  function Mixed<W>(ops: Ops<W>, s: State<W>, n: nat): State<W> {
    Sum(ops, Times(x => DoubleRound(ops, x), n, s), s)
  }

  function WordsOf<W>(s: State<W>): (r: seq<W>)
    ensures |r| == 16
  {
    [s.a.w0, s.a.w1, s.a.w2, s.a.w3, s.b.w0, s.b.w1, s.b.w2, s.b.w3,
     s.c.w0, s.c.w1, s.c.w2, s.c.w3, s.d.w0, s.d.w1, s.d.w2, s.d.w3]
  }

  function Serialized<W>(bytes: W -> FourBytes, words: seq<W>): (r: seq<Byte>)
    ensures |r| == 4 * |words|
  {
    if words == [] then [] else Serialized(bytes, words[..|words| - 1]) + bytes(words[|words| - 1])
  }

  function Rounds(): nat { 10 }

  /** The block of key stream that a state stands for. */
  function Block<W>(ops: Ops<W>, s: State<W>): Bytes64
  {
    Serialized(ops.bytes, WordsOf(Mixed(ops, s, Rounds())))
  }

  // ---------- RFC 8439 ----------

  datatype Quad<W> = Quad(a: W, b: W, c: W, d: W)

  /** Section 2.1. */
  function QuarterRound<W>(ops: Ops<W>, q: Quad<W>): Quad<W> {
    var a := ops.add(q.a, q.b);
    var d := ops.turn16(q.d, a);
    var c := ops.add(q.c, d);
    var b := ops.turn12(q.b, c);
    var a' := ops.add(a, b);
    var d' := ops.turn8(d, a');
    var c' := ops.add(c, d');
    var b' := ops.turn7(b, c');
    Quad(a', b', c', d')
  }

  // The state is a matrix of words, numbered row by row from 0 to 15.

  function InRow<W>(l: Lanes<W>, j: nat): W {
    if j == 0 then l.w0 else if j == 1 then l.w1 else if j == 2 then l.w2 else l.w3
  }

  function At<W>(s: State<W>, i: nat): W {
    if i < 4 then InRow(s.a, i)
    else if i < 8 then InRow(s.b, i - 4)
    else if i < 12 then InRow(s.c, i - 8)
    else InRow(s.d, i - 12)
  }

  function PutInRow<W>(l: Lanes<W>, j: nat, w: W): Lanes<W> {
    if j == 0 then l.(w0 := w) else if j == 1 then l.(w1 := w) else if j == 2 then l.(w2 := w) else l.(w3 := w)
  }

  function Put<W>(s: State<W>, i: nat, w: W): State<W> {
    if i < 4 then s.(a := PutInRow(s.a, i, w))
    else if i < 8 then s.(b := PutInRow(s.b, i - 4, w))
    else if i < 12 then s.(c := PutInRow(s.c, i - 8, w))
    else s.(d := PutInRow(s.d, i - 12, w))
  }

  /** QUARTERROUND(x, y, z, w) of section 2.2. */
  function QuarterRoundAt<W>(ops: Ops<W>, s: State<W>, x: nat, y: nat, z: nat, w: nat): State<W> {
    var q := QuarterRound(ops, Quad(At(s, x), At(s, y), At(s, z), At(s, w)));
    Put(Put(Put(Put(s, x, q.a), y, q.b), z, q.c), w, q.d)
  }

  function ColumnRounds<W>(ops: Ops<W>, s: State<W>): State<W> {
    var s1 := QuarterRoundAt(ops, s, 0, 4, 8, 12);
    var s2 := QuarterRoundAt(ops, s1, 1, 5, 9, 13);
    var s3 := QuarterRoundAt(ops, s2, 2, 6, 10, 14);
    QuarterRoundAt(ops, s3, 3, 7, 11, 15)
  }

  function DiagonalRounds<W>(ops: Ops<W>, s: State<W>): State<W> {
    var s1 := QuarterRoundAt(ops, s, 0, 5, 10, 15);
    var s2 := QuarterRoundAt(ops, s1, 1, 6, 11, 12);
    var s3 := QuarterRoundAt(ops, s2, 2, 7, 8, 13);
    QuarterRoundAt(ops, s3, 3, 4, 9, 14)
  }

  /** inner_block of section 2.3.1. */
  function InnerBlock<W>(ops: Ops<W>, s: State<W>): State<W> {
    DiagonalRounds(ops, ColumnRounds(ops, s))
  }

  /** Ten times one after the other. */
  function Ten<A>(f: A -> A, x: A): A {
    f(f(f(f(f(f(f(f(f(f(x))))))))))
  }

  /** The words of a state. */
  function RfcWords(): nat { 16 }

  /** The first n words of a working state, the initial state added in, each as its bytes. */
  function RfcSerialized<W>(ops: Ops<W>, working: State<W>, initial: State<W>, n: nat): (r: seq<Byte>)
    ensures |r| == 4 * n
  {
    if n == 0 then []
    else RfcSerialized(ops, working, initial, n - 1) + ops.bytes(ops.add(At(working, n - 1), At(initial, n - 1)))
  }

  /** chacha20_block of section 2.3.1, on the state it sets up: ten times inner_block. */
  function RfcBlock<W>(ops: Ops<W>, s: State<W>): Bytes64 {
    RfcSerialized(ops, Ten(x => InnerBlock(ops, x), s), s, RfcWords())
  }

  // ---------- the two shapes agree for all word operations ----------

  ghost predicate SameOps<W(!new)>(f: Ops<W>, g: Ops<W>) {
    && f.bytes == g.bytes
    && f.one == g.one
    && forall x, y ::
         && f.add(x, y) == g.add(x, y) && f.turn16(x, y) == g.turn16(x, y) && f.turn12(x, y) == g.turn12(x, y)
         && f.turn8(x, y) == g.turn8(x, y) && f.turn7(x, y) == g.turn7(x, y)
  }

  /** Every lane goes through a quarter round of its own. */
  function RoundByLane<W>(ops: Ops<W>, s: State<W>): State<W> {
    var q0 := QuarterRound(ops, Quad(s.a.w0, s.b.w0, s.c.w0, s.d.w0));
    var q1 := QuarterRound(ops, Quad(s.a.w1, s.b.w1, s.c.w1, s.d.w1));
    var q2 := QuarterRound(ops, Quad(s.a.w2, s.b.w2, s.c.w2, s.d.w2));
    var q3 := QuarterRound(ops, Quad(s.a.w3, s.b.w3, s.c.w3, s.d.w3));
    State(Lanes(q0.a, q1.a, q2.a, q3.a), Lanes(q0.b, q1.b, q2.b, q3.b),
          Lanes(q0.c, q1.c, q2.c, q3.c), Lanes(q0.d, q1.d, q2.d, q3.d))
  }

  lemma QuarterRoundsAgree<W(!new)>(f: Ops<W>, g: Ops<W>, q: Quad<W>)
    requires SameOps(f, g)
    ensures QuarterRound(f, q) == QuarterRound(g, q)
  {
  }

  lemma RoundLanes<W(!new)>(f: Ops<W>, g: Ops<W>, s: State<W>)
    requires SameOps(f, g)
    ensures Round(f, s) == RoundByLane(g, s)
  {
    assert Round(f, s) == RoundByLane(f, s);
    QuarterRoundsAgree(f, g, Quad(s.a.w0, s.b.w0, s.c.w0, s.d.w0));
    QuarterRoundsAgree(f, g, Quad(s.a.w1, s.b.w1, s.c.w1, s.d.w1));
    QuarterRoundsAgree(f, g, Quad(s.a.w2, s.b.w2, s.c.w2, s.d.w2));
    QuarterRoundsAgree(f, g, Quad(s.a.w3, s.b.w3, s.c.w3, s.d.w3));
  }

  lemma ColumnsByLane<W>(ops: Ops<W>, s: State<W>)
    ensures ColumnRounds(ops, s) == RoundByLane(ops, s)
  {
  }

  lemma DiagonalsByLane<W>(ops: Ops<W>, s: State<W>)
    ensures DiagonalRounds(ops, s) == Unswizzle(RoundByLane(ops, Swizzle(s)))
  {
  }

  /** Round, swizzle, round, unswizzle is the column rounds followed by the diagonal rounds. */
  lemma DoubleRoundAgrees<W(!new)>(f: Ops<W>, g: Ops<W>, s: State<W>)
    requires SameOps(f, g)
    ensures DoubleRound(f, s) == InnerBlock(g, s)
  {
    RoundLanes(f, g, s);
    ColumnsByLane(g, s);
    var middle := RoundByLane(g, s);
    RoundLanes(f, g, Swizzle(middle));
    DiagonalsByLane(g, middle);
  }

  lemma {:induction false} TimesAgree<A(!new)>(f: A -> A, g: A -> A, n: nat, x: A)
    requires forall a :: f(a) == g(a)
    ensures Times(f, n, x) == Times(g, n, x)
  {
    if n > 0 {
      TimesAgree(f, g, n - 1, x);
    }
  }

  /** Lanes with swizzling compute what columns and diagonals compute, whatever the word operations. */
  lemma MixedAgree<W(!new)>(f: Ops<W>, g: Ops<W>, s: State<W>, n: nat)
    requires SameOps(f, g)
    ensures Times(x => DoubleRound(f, x), n, s) == Times(x => InnerBlock(g, x), n, s)
  {
    var double := x => DoubleRound(f, x);
    var inner := x => InnerBlock(g, x);
    forall a ensures double(a) == inner(a) {
      DoubleRoundAgrees(f, g, a);
    }
    TimesAgree(double, inner, n, s);
  }

  lemma TenTimes<A>(f: A -> A, x: A)
    ensures Times(f, Rounds(), x) == Ten(f, x)
  {
    assert Times(f, 5, x) == f(f(f(f(f(x)))));
  }

  lemma WordsSummed<W>(f: Ops<W>, r: State<W>, s: State<W>, i: nat)
    requires i < 16
    ensures WordsOf(Sum(f, r, s))[i] == f.add(At(r, i), At(s, i))
  {
  }

  /** Adding lane by lane and writing the words in order is adding and writing word by word. */
  lemma {:induction false} SerializedAgree<W(!new)>(f: Ops<W>, g: Ops<W>, r: State<W>, s: State<W>, n: nat)
    requires SameOps(f, g) && n <= 16
    ensures Serialized(f.bytes, WordsOf(Sum(f, r, s))[..n]) == RfcSerialized(g, r, s, n)
  {
    if n > 0 {
      var words := WordsOf(Sum(f, r, s));
      SerializedAgree(f, g, r, s, n - 1);
      assert words[..n][..n - 1] == words[..n - 1];
      WordsSummed(f, r, s, n - 1);
    }
  }

  lemma BlocksAgree<W(!new)>(f: Ops<W>, g: Ops<W>, s: State<W>)
    requires SameOps(f, g)
    ensures Block(f, s) == RfcBlock(g, s)
  {
    var inner := x => InnerBlock(g, x);
    MixedAgree(f, g, s, Rounds());
    TenTimes(inner, s);
    WordsAgree(f, g, Ten(inner, s), s);
  }

  lemma WordsAgree<W(!new)>(f: Ops<W>, g: Ops<W>, r: State<W>, s: State<W>)
    requires SameOps(f, g)
    ensures Serialized(f.bytes, WordsOf(Sum(f, r, s))) == RfcSerialized(g, r, s, RfcWords())
  {
    var words := WordsOf(Sum(f, r, s));
    assert words[..RfcWords()] == words;
    SerializedAgree(f, g, r, s, RfcWords());
  }
}
