/**
 The compact store of the counterparty's revocation secrets.

 A counterparty reveals one secret per revoked commitment, for the indices 2^48 - 1, 2^48 - 2, ...
 The secrets form the tree of BOLT 3 ("Efficient Per-commitment Secret Storage"), so that 49 slots
 are enough to answer for every secret ever revealed.  SHA-256 is a parameter of the model.
 */
module CommitmentSecrets {
  import opened Wrappers

  type Secret = s: seq<bv8> | |s| == 32 witness seq(32, _ => 0)
  type Hash = Secret -> Secret

  datatype Slot = Slot(secret: Secret, idx: nat)

  const LEVELS: nat := 48
  /** 1 << 48: one past the largest index, and the index of an unused slot. */
  const TOP: nat := 0x1_0000_0000_0000

  // ---------- bits of an index ----------

  function Pow2(n: nat): (r: nat)
    ensures r > 0
  {
    if n == 0 then 1 else 2 * Pow2(n - 1)
  }

  /** idx & (1 << i) == (1 << i) */
  predicate Bit(idx: nat, i: nat) {
    if i == 0 then idx % 2 == 1 else Bit(idx / 2, i - 1)
  }

  /** idx & ((1 << i) - 1) */
  function Low(idx: nat, i: nat): (r: nat)
    ensures r <= idx && r < Pow2(i)
  {
    if i == 0 then 0 else idx % 2 + 2 * Low(idx / 2, i - 1)
  }

  /** idx & !((1 << i) - 1) */
  function Clear(idx: nat, i: nat): nat {
    idx - Low(idx, i)
  }

  lemma {:induction false} LowStep(x: nat, i: nat)
    ensures Low(x, i + 1) == Low(x, i) + if Bit(x, i) then Pow2(i) else 0
  {
    if i > 0 {
      LowStep(x / 2, i - 1);
    }
  }

  lemma {:induction false} LowMono(x: nat, j: nat, i: nat)
    requires j <= i
    ensures Low(x, j) <= Low(x, i)
    decreases i - j
  {
    if j < i {
      LowStep(x, i - 1);
      LowMono(x, j, i - 1);
    }
  }

  /** Adding less than 2^i to a number whose low i bits are clear sets exactly those bits. */
  lemma {:induction false} LowAdd(x: nat, d: nat, i: nat)
    requires Low(x, i) == 0 && d < Pow2(i)
    ensures Low(x + d, i) == d
  {
    if i > 0 {
      LowAdd(x / 2, d / 2, i - 1);
      assert (x + d) / 2 == x / 2 + d / 2 && (x + d) % 2 == d % 2;
    }
  }

  lemma {:induction false} ClearLow(x: nat, i: nat)
    ensures Low(Clear(x, i), i) == 0
  {
    if i > 0 {
      ClearLow(x / 2, i - 1);
      assert Clear(x, i) == 2 * Clear(x / 2, i - 1);
    }
  }

  lemma {:induction false} ClearBit(x: nat, low: nat, i: nat)
    requires low <= i
    ensures Bit(Clear(x, low), i) <==> Bit(x, i)
  {
    if low > 0 {
      ClearBit(x / 2, low - 1, i - 1);
      assert Clear(x, low) == 2 * Clear(x / 2, low - 1);
    }
  }

  lemma {:induction false} LowAll(x: nat, i: nat)
    requires x < Pow2(i)
    ensures Low(x, i) == x
  {
    if i > 0 {
      LowAll(x / 2, i - 1);
    }
  }

  lemma {:induction false} Pow2Mono(i: nat, j: nat)
    requires i <= j
    ensures Pow2(i) <= Pow2(j)
    decreases j - i
  {
    if i < j {
      Pow2Mono(i, j - 1);
    }
  }

  lemma {:induction false} Pow2Add(i: nat, j: nat)
    ensures Pow2(i + j) == Pow2(i) * Pow2(j)
  {
    if i > 0 {
      Pow2Add(i - 1, j);
    }
  }

  lemma Pow2Top()
    ensures Pow2(LEVELS) == TOP
  {
    assert Pow2(12) == 4096;
    Pow2Add(12, 12);
    Pow2Add(24, 24);
  }

  // ---------- the slot of an index ----------

  /** The lowest set bit among the first `n`, or `n` when they are all clear. */
  function LowestBit(idx: nat, n: nat): (p: nat)
    ensures p <= n
    ensures forall j | 0 <= j < p :: !Bit(idx, j)
    ensures p < n ==> Bit(idx, p)
  {
    if n == 0 then 0
    else
      var p := LowestBit(idx, n - 1);
      if p < n - 1 || Bit(idx, n - 1) then p else n
  }

  /** The slot of an index: its lowest set bit, or 48. */
  function Place(idx: nat): nat {
    LowestBit(idx, LEVELS)
  }

  lemma {:induction false} PlaceLow(idx: nat, p: nat)
    requires p <= Place(idx)
    ensures Low(idx, p) == 0
  {
    if p > 0 {
      PlaceLow(idx, p - 1);
      LowStep(idx, p - 1);
    }
  }

  /** The slot number counts the trailing zero bits. */
  lemma PlaceSpec(idx: nat, p: nat)
    requires p <= LEVELS
    ensures p <= Place(idx) <==> Low(idx, p) == 0
  {
    if p <= Place(idx) {
      PlaceLow(idx, p);
    } else {
      var q := Place(idx);
      LowStep(idx, q);
      LowMono(idx, q + 1, p);
    }
  }

  // ---------- deriving a secret ----------

  /** res[bit / 8] ^= 1 << (bit & 7) */
  function Flip(s: Secret, bit: nat): Secret
    requires bit < LEVELS
  {
    s[bit / 8 := s[bit / 8] ^ ((1 as bv8) << (bit % 8))]
  }

  function DeriveBit(sha: Hash, s: Secret, bit: nat, idx: nat): Secret
    requires bit < LEVELS
  {
    if Bit(idx, bit) then sha(Flip(s, bit)) else s
  }

  /** From the secret of a tree node, the secret `idx` below it: the lowest `bits` bits, highest first. */
  function Derive(sha: Hash, s: Secret, bits: nat, idx: nat): Secret
    requires bits <= LEVELS
    decreases bits
  {
    if bits == 0 then s else Derive(sha, DeriveBit(sha, s, bits - 1, idx), bits - 1, idx)
  }

  lemma {:induction false} DeriveNothing(sha: Hash, s: Secret, bits: nat, idx: nat)
    requires bits <= LEVELS && Low(idx, bits) == 0
    ensures Derive(sha, s, bits, idx) == s
  {
    if bits > 0 {
      LowStep(idx, bits - 1);
      DeriveNothing(sha, s, bits - 1, idx);
    }
  }

  /** Deriving all the way down is deriving to an inner node and then on from there. */
  lemma {:induction false} DeriveThrough(sha: Hash, s: Secret, bits: nat, low: nat, idx: nat)
    requires low <= bits <= LEVELS
    ensures Derive(sha, s, bits, idx) == Derive(sha, Derive(sha, s, bits, Clear(idx, low)), low, idx)
    decreases bits
  {
    if bits == low {
      ClearLow(idx, low);
      DeriveNothing(sha, s, low, Clear(idx, low));
    } else {
      ClearBit(idx, low, bits - 1);
      DeriveThrough(sha, DeriveBit(sha, s, bits - 1, idx), bits - 1, low, idx);
    }
  }

  // ---------- the store ----------

  type Store = s: seq<Slot> | |s| == LEVELS + 1 witness seq(49, _ => Slot(seq(32, _ => 0), TOP))

  function EmptyStore(): Store {
    seq(LEVELS + 1, _ => Slot(seq(32, _ => 0), TOP))
  }

  /** The slots below `pos` all derive from `secret`. */
  predicate Chains(sha: Hash, store: Store, pos: nat, secret: Secret)
    requires pos <= LEVELS
  {
    forall i | 0 <= i < pos :: Derive(sha, secret, pos, store[i].idx) == store[i].secret
  }

  function MinIn(slots: seq<Slot>): (m: nat)
    ensures m <= TOP && forall i | 0 <= i < |slots| :: m <= slots[i].idx
    ensures m == TOP || exists i | 0 <= i < |slots| :: slots[i].idx == m
  {
    if slots == [] then TOP
    else
      var m := MinIn(slots[..|slots| - 1]);
      if slots[|slots| - 1].idx < m then slots[|slots| - 1].idx else m
  }

  /** Offer the secret of an index; None when it does not chain with what was seen before. */
  function Provide(sha: Hash, store: Store, idx: nat, secret: Secret): Option<Store> {
    if !Chains(sha, store, Place(idx), secret) then None
    else if MinIn(store) <= idx then Some(store)
    else Some(store[Place(idx) := Slot(secret, idx)])
  }

  /** The answer of the first of the `n` lowest slots that covers `idx`. */
  function Search(sha: Hash, store: Store, idx: nat, n: nat): Option<Secret>
    requires n <= LEVELS + 1
  {
    if n == 0 then None
    else
      var found := Search(sha, store, idx, n - 1);
      if found.Some? then found
      else if Clear(idx, n - 1) == store[n - 1].idx then
        Some(Derive(sha, store[n - 1].secret, n - 1, idx))
      else None
  }

  lemma {:induction false} SearchStays(sha: Hash, store: Store, idx: nat, n: nat, m: nat)
    requires n <= m <= LEVELS + 1 && Search(sha, store, idx, n).Some?
    ensures Search(sha, store, idx, m) == Search(sha, store, idx, n)
    decreases m - n
  {
    if n < m {
      SearchStays(sha, store, idx, n, m - 1);
    }
  }

  /** The stored secret of an index; Panic where the closing `assert!` fails. */
  function Get(sha: Hash, store: Store, idx: nat): Outcome<Option<Secret>> {
    var found := Search(sha, store, idx, |store|);
    if found.Some? || idx < MinIn(store) then Done(found) else Panic
  }

  /** `CounterpartyCommitmentSecrets`, updated in place. */
  class Secrets {
    var oldSecrets: Store

    constructor ()
      ensures oldSecrets == EmptyStore()
    {
      oldSecrets := EmptyStore();
    }

    static method PlaceSecret(idx: nat) returns (p: nat)
      ensures p == Place(idx)
    {
      var i := 0;
      while i < LEVELS
        invariant i <= LEVELS && forall j | 0 <= j < i :: !Bit(idx, j)
      {
        if Bit(idx, i) {
          return i;
        }
        i := i + 1;
      }
      p := LEVELS;
    }

    static method DeriveSecret(sha: Hash, secret: Secret, bits: nat, idx: nat) returns (res: Secret)
      requires bits <= LEVELS
      ensures res == Derive(sha, secret, bits, idx)
    {
      res := secret;
      for i := 0 to bits
        invariant Derive(sha, res, bits - i, idx) == Derive(sha, secret, bits, idx)
      {
        var bitpos := bits - 1 - i;
        if Bit(idx, bitpos) {
          res := sha(Flip(res, bitpos));
        }
      }
    }

    method GetMinSeenSecret() returns (min: nat)
      ensures min == MinIn(oldSecrets)
    {
      min := TOP;
      for i := 0 to |oldSecrets|
        invariant min == MinIn(oldSecrets[..i])
      {
        assert oldSecrets[..i + 1][..i] == oldSecrets[..i];
        if oldSecrets[i].idx < min {
          min := oldSecrets[i].idx;
        }
      }
      assert oldSecrets[..|oldSecrets|] == oldSecrets;
    }

    method ProvideSecret(sha: Hash, idx: nat, secret: Secret) returns (r: Result<()>)
      modifies this
      ensures r.Ok? <==> Provide(sha, old(oldSecrets), idx, secret).Some?
      ensures oldSecrets ==
              if r.Ok? then Provide(sha, old(oldSecrets), idx, secret).value else old(oldSecrets)
    {
      var pos := PlaceSecret(idx);
      for i := 0 to pos
        invariant oldSecrets == old(oldSecrets)
        invariant forall k | 0 <= k < i :: Derive(sha, secret, pos, oldSecrets[k].idx) == oldSecrets[k].secret
      {
        var derived := DeriveSecret(sha, secret, pos, oldSecrets[i].idx);
        if derived != oldSecrets[i].secret {
          return Refused;
        }
      }
      var min := GetMinSeenSecret();
      if min <= idx {
        return Ok(());
      }
      oldSecrets := oldSecrets[pos := Slot(secret, idx)];
      r := Ok(());
    }

    method GetSecret(sha: Hash, idx: nat) returns (r: Outcome<Option<Secret>>)
      ensures r == Get(sha, oldSecrets, idx)
    {
      for i := 0 to |oldSecrets|
        invariant Search(sha, oldSecrets, idx, i) == None
      {
        if Clear(idx, i) == oldSecrets[i].idx {
          var s := DeriveSecret(sha, oldSecrets[i].secret, i, idx);
          SearchStays(sha, oldSecrets, idx, i + 1, |oldSecrets|);
          return Done(Some(s));
        }
      }
      var min := GetMinSeenSecret();
      r := if idx < min then Done(None) else Panic;
    }
  }

  // ---------- what the store holds after a run of secrets ----------

  /** Whether no index of `lo..hi` belongs in slot `i`. */
  ghost predicate NoneAt(i: nat, lo: nat, hi: nat) {
    forall j | lo <= j < hi :: Place(j) != i
  }

  /** Slot `i` holds the most recent index that belongs there, or is unused if there is none. */
  ghost predicate SlotLatest(slot: Slot, i: nat, k: nat) {
    && k <= slot.idx <= TOP
    && NoneAt(i, k, slot.idx)
    && (slot.idx < TOP ==> Place(slot.idx) == i)
  }

  /** Every index answered by slot `i` is answered with the secret that was revealed for it. */
  ghost predicate SlotAnswers(sha: Hash, slot: Slot, i: nat, given: seq<Secret>)
    requires i <= LEVELS && |given| <= TOP
  {
    forall j | TOP - |given| <= j < TOP && Clear(j, i) == slot.idx ::
      Derive(sha, slot.secret, i, j) == given[TOP - 1 - j]
  }

  /** `store` is what accepting the secrets `given`, for TOP - 1, TOP - 2, ..., leaves behind. */
  ghost predicate Holds(sha: Hash, store: Store, given: seq<Secret>) {
    && |given| <= TOP
    && forall i | 0 <= i <= LEVELS ::
         SlotLatest(store[i], i, TOP - |given|) && SlotAnswers(sha, store[i], i, given)
  }

  lemma EmptyHolds(sha: Hash)
    ensures Holds(sha, EmptyStore(), [])
  {
  }

  lemma PlaceBelow(k: nat, p: nat, i: nat)
    requires Place(k) == p && i < p
    ensures Place(k + Pow2(i)) == i
  {
    var j := k + Pow2(i);
    PlaceSpec(k, i + 1);
    assert Low(j, i + 1) == Pow2(i) by {
      LowAdd(k, Pow2(i), i + 1);
    }
    LowStep(j, i);
    PlaceSpec(j, i);
    PlaceSpec(j, i + 1);
  }

  lemma NoneBelow(k: nat, p: nat, i: nat)
    requires Place(k) == p && i < p
    ensures NoneAt(i, k + 1, k + Pow2(i))
  {
    PlaceSpec(k, i);
    forall j | k + 1 <= j < k + Pow2(i)
      ensures Place(j) != i
    {
      LowAdd(k, j - k, i);
      PlaceSpec(j, i);
    }
  }

  /** Below a node k of height p, slot i < p must hold k + 2^i. */
  lemma SlotBelow(k: nat, p: nat, i: nat, slot: Slot)
    requires k < TOP && Place(k) == p && i < p && SlotLatest(slot, i, k + 1)
    ensures slot.idx == k + Pow2(i) < TOP
  {
    PlaceBelow(k, p, i);
    NoneBelow(k, p, i);
    PlaceSpec(k, p);
    BelowTop(k, p, i);
  }

  lemma BelowTop(k: nat, p: nat, i: nat)
    requires k < TOP && Low(k, p) == 0 && i < p <= LEVELS
    ensures k + Pow2(i) < TOP
  {
    Pow2Top();
    LowAll(k, LEVELS);
    Pow2Mono(i + 1, p);
    CarryFree(k, p, LEVELS);
  }

  /** A multiple of 2^p below 2^q leaves room for 2^p - 1 more. */
  lemma {:induction false} CarryFree(k: nat, p: nat, q: nat)
    requires p <= q && Low(k, p) == 0
    ensures Low(k, q) + Pow2(p) <= Pow2(q)
    decreases q - p
  {
    if p < q {
      CarryFree(k, p, q - 1);
      LowStep(k, q - 1);
    }
  }

  /** Each index strictly below node k falls under exactly the slot of its highest offset bit. */
  lemma {:induction false} SlotCovering(k: nat, p: nat, q: nat, j: nat) returns (i: nat)
    requires Place(k) == p && q <= p && k < j < k + Pow2(q)
    ensures i < q && Clear(j, i) == k + Pow2(i)
    decreases q
  {
    if j < k + Pow2(q - 1) {
      i := SlotCovering(k, p, q - 1, j);
    } else {
      i := q - 1;
      PlaceBelow(k, p, i);
      PlaceSpec(k + Pow2(i), i);
      LowAdd(k + Pow2(i), j - k - Pow2(i), i);
    }
  }

  /** `secret` for index k = TOP - 1 - |given| derives every secret already revealed below node k. */
  ghost predicate Consistent(sha: Hash, given: seq<Secret>, secret: Secret)
    requires |given| < TOP
  {
    var k := TOP - 1 - |given|;
    DerivesBelow(sha, given, secret, k, Place(k))
  }

  ghost predicate DerivesBelow(sha: Hash, given: seq<Secret>, secret: Secret, k: nat, p: nat)
    requires p <= LEVELS && TOP - |given| == k + 1
  {
    forall j | k < j < TOP && Clear(j, p) == k :: DerivesAs(sha, given, secret, p, j)
  }

  /** At height p, `secret` derives what was revealed for index j. */
  ghost predicate DerivesAs(sha: Hash, given: seq<Secret>, secret: Secret, p: nat, j: nat)
    requires p <= LEVELS && TOP - |given| <= j < TOP
  {
    Derive(sha, secret, p, j) == given[TOP - 1 - j]
  }

  lemma ChainsGivesConsistent(sha: Hash, store: Store, given: seq<Secret>, secret: Secret)
    requires Holds(sha, store, given) && |given| < TOP
    requires Chains(sha, store, Place(TOP - 1 - |given|), secret)
    ensures Consistent(sha, given, secret)
  {
    var k := TOP - 1 - |given|;
    var p := Place(k);
    forall j | k < j < TOP && Clear(j, p) == k
      ensures DerivesAs(sha, given, secret, p, j)
    {
      var i := SlotCovering(k, p, p, j);
      SlotBelow(k, p, i, store[i]);
      DeriveThrough(sha, secret, p, i, j);
    }
  }

  lemma ClearBelow(k: nat, p: nat, i: nat)
    requires Place(k) == p && i < p
    ensures Clear(k + Pow2(i), p) == k
  {
    PlaceLow(k, p);
    ClearUnder(k, p, i);
  }

  lemma ClearUnder(k: nat, p: nat, i: nat)
    requires Low(k, p) == 0 && i < p
    ensures Clear(k + Pow2(i), p) == k
  {
    Pow2Below(i, p);
    ClearAdd(k, Pow2(i), p);
  }

  lemma Pow2Below(i: nat, p: nat)
    requires i < p
    ensures Pow2(i) < Pow2(p)
  {
    Pow2Mono(i + 1, p);
  }

  lemma ClearAdd(x: nat, d: nat, i: nat)
    requires Low(x, i) == 0 && d < Pow2(i)
    ensures Clear(x + d, i) == x
  {
    LowAdd(x, d, i);
  }

  lemma SlotDerives(sha: Hash, slot: Slot, given: seq<Secret>, secret: Secret, k: nat, p: nat, i: nat)
    requires TOP - |given| == k + 1 && Place(k) == p && i < p
    requires SlotLatest(slot, i, k + 1) && SlotAnswers(sha, slot, i, given)
    requires DerivesBelow(sha, given, secret, k, p)
    ensures Derive(sha, secret, p, slot.idx) == slot.secret
  {
    SlotBelow(k, p, i, slot);
    ClearBelow(k, p, i);
    PlaceBelow(k, p, i);
    PlaceSpec(slot.idx, i);
    DeriveNothing(sha, slot.secret, i, slot.idx);
    assert DerivesAs(sha, given, secret, p, slot.idx);
  }

  lemma ConsistentGivesChains(sha: Hash, store: Store, given: seq<Secret>, secret: Secret)
    requires Holds(sha, store, given) && |given| < TOP
    requires Consistent(sha, given, secret)
    ensures Chains(sha, store, Place(TOP - 1 - |given|), secret)
  {
    var k := TOP - 1 - |given|;
    forall i | 0 <= i < Place(k)
      ensures Derive(sha, secret, Place(k), store[i].idx) == store[i].secret
    {
      SlotDerives(sha, store[i], given, secret, k, Place(k), i);
    }
  }

  lemma NewSlotAnswers(sha: Hash, given: seq<Secret>, secret: Secret)
    requires |given| < TOP && Consistent(sha, given, secret)
    ensures var k := TOP - 1 - |given|;
            SlotAnswers(sha, Slot(secret, k), Place(k), given + [secret])
  {
    var k := TOP - 1 - |given|;
    var p := Place(k);
    forall j | k <= j < TOP && Clear(j, p) == k
      ensures Derive(sha, secret, p, j) == (given + [secret])[TOP - 1 - j]
    {
      if j == k {
        PlaceSpec(k, p);
        DeriveNothing(sha, secret, p, k);
        assert (given + [secret])[TOP - 1 - k] == secret;
      } else {
        assert DerivesAs(sha, given, secret, p, j);
      }
    }
  }

  lemma OldSlotStays(sha: Hash, slot: Slot, i: nat, given: seq<Secret>, secret: Secret)
    requires i <= LEVELS && |given| < TOP && Place(TOP - 1 - |given|) != i
    requires SlotLatest(slot, i, TOP - |given|) && SlotAnswers(sha, slot, i, given)
    ensures SlotLatest(slot, i, TOP - 1 - |given|) && SlotAnswers(sha, slot, i, given + [secret])
  {
  }

  /** Exactly the secrets from which the revealed ones below them derive are accepted. */
  lemma ProvideIff(sha: Hash, store: Store, given: seq<Secret>, secret: Secret)
    requires Holds(sha, store, given) && |given| < TOP
    ensures Provide(sha, store, TOP - 1 - |given|, secret).Some? <==> Consistent(sha, given, secret)
  {
    if Consistent(sha, given, secret) {
      ConsistentGivesChains(sha, store, given, secret);
    } else if Chains(sha, store, Place(TOP - 1 - |given|), secret) {
      ChainsGivesConsistent(sha, store, given, secret);
    }
  }

  /** Accepting the next secret keeps the store complete. */
  lemma ProvideKeeps(sha: Hash, store: Store, given: seq<Secret>, secret: Secret)
    requires Holds(sha, store, given) && |given| < TOP
    requires Provide(sha, store, TOP - 1 - |given|, secret).Some?
    ensures Holds(sha, Provide(sha, store, TOP - 1 - |given|, secret).value, given + [secret])
  {
    ProvideIff(sha, store, given, secret);
    NewSlotAnswers(sha, given, secret);
    UpdatedHolds(sha, store, given, secret);
    assert MinIn(store) > TOP - 1 - |given|;
  }

  lemma UpdatedHolds(sha: Hash, store: Store, given: seq<Secret>, secret: Secret)
    requires Holds(sha, store, given) && |given| < TOP
    requires var k := TOP - 1 - |given|; SlotAnswers(sha, Slot(secret, k), Place(k), given + [secret])
    ensures var k := TOP - 1 - |given|; Holds(sha, store[Place(k) := Slot(secret, k)], given + [secret])
  {
    var k := TOP - 1 - |given|;
    forall i | 0 <= i <= LEVELS && i != Place(k)
      ensures SlotLatest(store[i], i, k) && SlotAnswers(sha, store[i], i, given + [secret])
    {
      OldSlotStays(sha, store[i], i, given, secret);
    }
  }

  lemma MinHeld(sha: Hash, store: Store, given: seq<Secret>)
    requires Holds(sha, store, given) && given != []
    ensures MinIn(store) == TOP - |given|
  {
    var k := TOP - |given|;
    assert SlotLatest(store[Place(k)], Place(k), k);
  }

  /** Offering an index again never changes the store. */
  lemma ProvideAgain(sha: Hash, store: Store, given: seq<Secret>, idx: nat, secret: Secret)
    requires Holds(sha, store, given) && TOP - |given| <= idx < TOP
    ensures Provide(sha, store, idx, secret).Some? ==> Provide(sha, store, idx, secret).value == store
  {
    MinHeld(sha, store, given);
  }

  /** An accepted secret is new exactly when its index is below all those on file. */
  lemma ProvideChanges(sha: Hash, store: Store, idx: nat, secret: Secret)
    requires Provide(sha, store, idx, secret).Some?
    ensures Provide(sha, store, idx, secret).value != store <==> idx < MinIn(store)
  {
    if idx < MinIn(store) {
      var after := Provide(sha, store, idx, secret).value;
      assert after[Place(idx)].idx == idx < store[Place(idx)].idx;
    }
  }

  /** Reading panics exactly for an index that no slot covers although one at or below it was seen. */
  lemma GetStopsIff(sha: Hash, store: Store, idx: nat)
    requires idx < TOP
    ensures Get(sha, store, idx).Panic? <==>
            && (forall i | 0 <= i <= LEVELS :: Clear(idx, i) != store[i].idx)
            && (exists i | 0 <= i <= LEVELS :: store[i].idx <= idx)
  {
    SearchNone(sha, store, idx, LEVELS + 1);
  }

  lemma {:induction false} SearchNone(sha: Hash, store: Store, idx: nat, n: nat)
    requires n <= LEVELS + 1
    ensures Search(sha, store, idx, n).None? <==> forall i | 0 <= i < n :: Clear(idx, i) != store[i].idx
  {
    if n > 0 {
      SearchNone(sha, store, idx, n - 1);
    }
  }

  // ---------- reading the store back ----------

  lemma SlotOfClear(j: nat, k: nat, i: nat, slot: Slot)
    requires i < LEVELS && j < TOP && SlotLatest(slot, i, k)
    requires Clear(j, i + 1) < k <= Clear(j, i)
    ensures slot.idx == Clear(j, i)
  {
    var m, b := Clear(j, i), Clear(j, i + 1);
    LowStep(j, i);
    ClearLow(j, i);
    ClearBit(j, i, i);
    PlaceSpec(m, i);
    LowStep(m, i);
    PlaceSpec(m, i + 1);
    ClearLow(j, i + 1);
    LowMono(b, i, i + 1);
    forall d | k <= d < m
      ensures Place(d) != i
    {
      LowAdd(b, d - b, i);
      PlaceSpec(d, i);
    }
  }

  /** Every index at or above the smallest revealed one is covered by some slot. */
  lemma {:induction false} CoveringSlot(store: Store, j: nat, k: nat, i: nat) returns (c: nat)
    requires i <= LEVELS && k <= Clear(j, i) && j < TOP
    requires forall n | 0 <= n <= LEVELS :: SlotLatest(store[n], n, k)
    ensures c <= LEVELS && Clear(j, c) == store[c].idx
    decreases LEVELS - i
  {
    if i == LEVELS {
      c := i;
      Pow2Top();
      LowAll(j, LEVELS);
      PlaceZero();
    } else if k <= Clear(j, i + 1) {
      c := CoveringSlot(store, j, k, i + 1);
    } else {
      c := i;
      SlotOfClear(j, k, i, store[i]);
    }
  }

  lemma PlaceZero()
    ensures Place(0) == LEVELS
  {
    Pow2Top();
    LowAll(0, LEVELS);
    PlaceSpec(0, LEVELS);
  }

  lemma {:induction false} SearchAnswers(sha: Hash, store: Store, given: seq<Secret>, j: nat, n: nat)
    requires Holds(sha, store, given) && TOP - |given| <= j < TOP && n <= LEVELS + 1
    ensures Search(sha, store, j, n).Some? ==> Search(sha, store, j, n).value == given[TOP - 1 - j]
    ensures Search(sha, store, j, n).None? ==> forall i | 0 <= i < n :: Clear(j, i) != store[i].idx
  {
    if n > 0 {
      SearchAnswers(sha, store, given, j, n - 1);
    }
  }

  lemma {:induction false} SearchMisses(sha: Hash, store: Store, idx: nat, n: nat)
    requires n <= LEVELS + 1 && forall i | 0 <= i <= LEVELS :: idx < store[i].idx
    ensures Search(sha, store, idx, n).None?
  {
    if n > 0 {
      SearchMisses(sha, store, idx, n - 1);
    }
  }

  /** Every revealed secret can be read back, the others are not there, and no assertion fires. */
  lemma GetHeld(sha: Hash, store: Store, given: seq<Secret>, idx: nat)
    requires Holds(sha, store, given) && idx < TOP
    ensures Get(sha, store, idx) ==
            Done(if TOP - |given| <= idx then Some(given[TOP - 1 - idx]) else None)
  {
    if TOP - |given| <= idx {
      SearchAnswers(sha, store, given, idx, |store|);
      var c := CoveringSlot(store, idx, TOP - |given|, 0);
    } else {
      SearchMisses(sha, store, idx, |store|);
    }
  }

  // ---------- whole runs ----------

  /** Offer the secrets of TOP - 1, TOP - 2, ... in turn to a fresh store. */
  function Fill(sha: Hash, given: seq<Secret>): Option<Store>
    requires |given| <= TOP
  {
    if given == [] then Some(EmptyStore())
    else
      var n := |given| - 1;
      var before := Fill(sha, given[..n]);
      if before.None? then None else Provide(sha, before.value, TOP - 1 - n, given[n])
  }

  /** Every secret of the run derives all those revealed earlier below it. */
  ghost predicate AllConsistent(sha: Hash, given: seq<Secret>)
    requires |given| <= TOP
  {
    forall n | 0 <= n < |given| :: Consistent(sha, given[..n], given[n])
  }

  lemma AllConsistentStep(sha: Hash, given: seq<Secret>)
    requires 0 < |given| <= TOP
    ensures var n := |given| - 1;
            AllConsistent(sha, given) <==>
            AllConsistent(sha, given[..n]) && Consistent(sha, given[..n], given[n])
  {
    var prior := given[..|given| - 1];
    forall m | 0 <= m < |prior|
      ensures Consistent(sha, prior[..m], prior[m]) == Consistent(sha, given[..m], given[m])
    {
      assert prior[..m] == given[..m];
    }
  }

  lemma {:induction false} FillHolds(sha: Hash, given: seq<Secret>)
    requires |given| <= TOP && Fill(sha, given).Some?
    ensures Holds(sha, Fill(sha, given).value, given)
  {
    if given == [] {
      EmptyHolds(sha);
    } else {
      var n := |given| - 1;
      FillHolds(sha, given[..n]);
      LastHolds(sha, Fill(sha, given[..n]).value, given, Fill(sha, given).value);
    }
  }

  lemma LastHolds(sha: Hash, before: Store, given: seq<Secret>, after: Store)
    requires 0 < |given| <= TOP && Holds(sha, before, given[..|given| - 1])
    requires Provide(sha, before, TOP - |given|, given[|given| - 1]) == Some(after)
    ensures Holds(sha, after, given)
  {
    var n := |given| - 1;
    ProvideKeeps(sha, before, given[..n], given[n]);
    assert given[..n] + [given[n]] == given;
  }

  lemma FillStep(sha: Hash, given: seq<Secret>)
    requires 0 < |given| <= TOP && Fill(sha, given[..|given| - 1]).Some?
    ensures var n := |given| - 1;
            Fill(sha, given).Some? <==> Consistent(sha, given[..n], given[n])
  {
    var n := |given| - 1;
    var before := Fill(sha, given[..n]).value;
    FillHolds(sha, given[..n]);
    FillNext(sha, given, before);
    ProvideIff(sha, before, given[..n], given[n]);
  }

  lemma FillNext(sha: Hash, given: seq<Secret>, before: Store)
    requires 0 < |given| <= TOP && Fill(sha, given[..|given| - 1]) == Some(before)
    ensures Fill(sha, given) == Provide(sha, before, TOP - |given|, given[|given| - 1])
  {
  }

  /** A run is accepted exactly when every secret derives all those revealed earlier below it. */
  lemma {:induction false} FillAccepts(sha: Hash, given: seq<Secret>)
    requires |given| <= TOP
    ensures Fill(sha, given).Some? <==> AllConsistent(sha, given)
  {
    if given != [] {
      var n := |given| - 1;
      FillAccepts(sha, given[..n]);
      AllConsistentStep(sha, given);
      if Fill(sha, given[..n]).Some? {
        FillStep(sha, given);
      }
    }
  }

  /** After any accepted run, 49 slots give back every secret of it. */
  lemma Recovery(sha: Hash, given: seq<Secret>, idx: nat)
    requires |given| <= TOP && Fill(sha, given).Some? && idx < TOP
    ensures Get(sha, Fill(sha, given).value, idx) ==
            Done(if TOP - |given| <= idx then Some(given[TOP - 1 - idx]) else None)
  {
    FillHolds(sha, given);
    GetHeld(sha, Fill(sha, given).value, given, idx);
  }

  // ---------- generating secrets as BOLT 3 says ----------

  /** A secret as 256 bits, the low bits of each byte first. */
  predicate BitOf(s: Secret, b: nat)
    requires b < 256
  {
    (s[b / 8] >> (b % 8)) & 1 == 1
  }

  /** Flipping a bit changes that bit and no other. */
  lemma FlipsOneBit(s: Secret, bit: nat, b: nat)
    requires bit < LEVELS && b < 256
    ensures BitOf(Flip(s, bit), b) <==> (BitOf(s, b) != (b == bit))
  {
    if b / 8 == bit / 8 {
      FlipsInByte(s[b / 8], bit % 8, b % 8);
      assert b == bit <==> b % 8 == bit % 8;
    }
  }

  lemma FlipsInByte(x: bv8, i: nat, j: nat)
    requires i < 8 && j < 8
    ensures ((x ^ ((1 as bv8) << i)) >> j) & 1 == 1 <==> ((x >> j) & 1 == 1) != (i == j)
  {
    ByteFlip(x, i);
    BitByMask(x, j);
    BitByMask(x ^ MASKS[i], j);
    MaskMeets(x, MASKS[i], MASKS[j]);
    MasksApart(i, j);
    OneBit(x, j);
  }

  lemma BitByMask(x: bv8, j: nat)
    requires j < 8
    ensures (x >> j) & 1 == 1 <==> x & MASKS[j] != 0
  {
    if j == 0 {} else if j == 1 {} else if j == 2 {} else if j == 3 {} else if j == 4 {} else if j == 5 {}
    else if j == 6 {} else {}
  }

  lemma MaskMeets(x: bv8, a: bv8, b: bv8)
    ensures (x ^ a) & b == (x & b) ^ (a & b)
  {
  }

  lemma MasksApart(i: nat, j: nat)
    requires i < 8 && j < 8
    ensures MASKS[i] & MASKS[j] == if i == j then MASKS[j] else 0
  {
  }

  lemma OneBit(x: bv8, j: nat)
    requires j < 8
    ensures (x & MASKS[j]) ^ 0 == x & MASKS[j]
    ensures (x & MASKS[j]) ^ MASKS[j] != 0 <==> x & MASKS[j] == 0
  {
  }

  const MASKS: seq<bv8> := [0x01, 0x02, 0x04, 0x08, 0x10, 0x20, 0x40, 0x80]

  lemma ByteFlip(x: bv8, i: nat)
    requires i < 8
    ensures x ^ ((1 as bv8) << i) == x ^ MASKS[i]
  {
    if i == 0 {} else if i == 1 {} else if i == 2 {} else if i == 3 {} else if i == 4 {} else if i == 5 {}
    else if i == 6 {} else {}
  }

  /** flip(B): the (B mod 8) bit of the (B div 8) byte is alternated. */
  function Bolt3Flip(p: Secret, b: nat): Secret
    requires b < LEVELS
  {
    seq(32, i requires 0 <= i < 32 => if i == b / 8 then p[i] ^ MASKS[b % 8] else p[i])
  }

  /** generate_from_seed: for each set bit of the index below n, from the highest down, flip it in P and hash P. */
  function GenerateFromSeed(sha: Hash, p: Secret, n: nat, index: nat): Secret
    requires n <= LEVELS
    decreases n
  {
    if n == 0 then p
    else
      var b := n - 1;
      GenerateFromSeed(sha, if Bit(index, b) then sha(Bolt3Flip(p, b)) else p, b, index)
  }

  lemma DivideTwice(x: nat, p: nat)
    requires p > 0
    ensures x / 2 / p == x / (2 * p)
  {
    var q, r := x / 2 / p, x / 2 % p;
    var low := 2 * r + x % 2;
    assert x == 2 * p * q + low && 0 <= low < 2 * p;
    QuotientIs(x, 2 * p, q, low);
  }

  lemma QuotientIs(x: nat, d: nat, q: nat, r: nat)
    requires x == d * q + r && r < d
    ensures x / d == q
  {
    var q', r' := x / d, x % d;
    assert x == d * q' + r' && r' < d;
    if q > q' {
      Further(d, q', q);
    } else if q < q' {
      Further(d, q, q');
    }
  }

  lemma {:induction false} Further(d: nat, a: nat, b: nat)
    requires a < b
    ensures d * a + d <= d * b
  {
    assert d * (b - 1) + d == d * b;
    if a < b - 1 {
      Further(d, a, b - 1);
    }
  }

  /** Bit i of a number is what is left of it over 2^i, modulo two. */
  lemma {:induction false} BitSpec(idx: nat, i: nat)
    ensures Bit(idx, i) <==> idx / Pow2(i) % 2 == 1
  {
    if i > 0 {
      BitSpec(idx / 2, i - 1);
      DivideTwice(idx, Pow2(i - 1));
    }
  }

  lemma FlipsAgree(s: Secret, b: nat)
    requires b < LEVELS
    ensures Flip(s, b) == Bolt3Flip(s, b)
  {
    ByteFlip(s[b / 8], b % 8);
  }

  /** The derivation of the program, all the way down, generates from a seed. */
  lemma {:induction false} DeriveGenerates(sha: Hash, s: Secret, n: nat, index: nat)
    requires n <= LEVELS
    ensures Derive(sha, s, n, index) == GenerateFromSeed(sha, s, n, index)
    decreases n
  {
    if n > 0 {
      FlipsAgree(s, n - 1);
      DeriveGenerates(sha, DeriveBit(sha, s, n - 1, index), n - 1, index);
    }
  }

  /** The bits of an index. */
  function IndexBits(): nat { 48 }

  /** The secrets a counterparty generates from one seed, as BOLT 3 asks. */
  ghost predicate FromSeed(sha: Hash, seed: Secret, given: seq<Secret>) {
    && |given| <= TOP
    && forall n | 0 <= n < |given| :: given[n] == GenerateFromSeed(sha, seed, IndexBits(), TOP - 1 - n)
  }

  /** A counterparty that follows BOLT 3 is never refused. */
  lemma HonestAccepted(sha: Hash, seed: Secret, given: seq<Secret>)
    requires FromSeed(sha, seed, given)
    ensures Fill(sha, given).Some?
  {
    forall n | 0 <= n < |given|
      ensures Consistent(sha, given[..n], given[n])
    {
      SeedConsistent(sha, seed, given, n);
    }
    FillAccepts(sha, given);
  }

  /** What a seed generates for an index is derived from what it generates for the node above. */
  lemma SeedThrough(sha: Hash, seed: Secret, p: nat, j: nat)
    requires p <= LEVELS
    ensures GenerateFromSeed(sha, seed, IndexBits(), j) ==
            Derive(sha, GenerateFromSeed(sha, seed, IndexBits(), Clear(j, p)), p, j)
  {
    DeriveThrough(sha, seed, IndexBits(), p, j);
    DeriveGenerates(sha, seed, IndexBits(), j);
    DeriveGenerates(sha, seed, IndexBits(), Clear(j, p));
  }

  lemma SeedDerives(sha: Hash, seed: Secret, given: seq<Secret>, n: nat, p: nat, j: nat)
    requires FromSeed(sha, seed, given) && n < |given| && p <= LEVELS
    requires TOP - 1 - n < j < TOP && Clear(j, p) == TOP - 1 - n
    ensures DerivesAs(sha, given[..n], given[n], p, j)
  {
    SeedThrough(sha, seed, p, j);
    assert given[TOP - 1 - j] == GenerateFromSeed(sha, seed, IndexBits(), TOP - 1 - (TOP - 1 - j));
    assert given[n] == GenerateFromSeed(sha, seed, IndexBits(), TOP - 1 - n);
  }

  lemma SeedConsistent(sha: Hash, seed: Secret, given: seq<Secret>, n: nat)
    requires FromSeed(sha, seed, given) && n < |given|
    ensures Consistent(sha, given[..n], given[n])
  {
    var k := TOP - 1 - n;
    forall j | k < j < TOP && Clear(j, Place(k)) == k
      ensures DerivesAs(sha, given[..n], given[n], Place(k), j)
    {
      SeedDerives(sha, seed, given, n, Place(k), j);
    }
  }
}
