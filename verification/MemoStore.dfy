/**
 The memo store of the thread-local persister: an ordered map from string keys to revisioned values, and
 the set of the keys written since the context was entered. The store is taken to be used by one context
 at a time.
 */
module MemoStore {
  import opened Wrappers
  import opened OrderedMap

  type Octet = n: int | 0 <= n < 256

  datatype Entry = Entry(revision: nat, value: seq<Octet>)

  type Store = seq<Pair<Entry>>

  // ---------- keys ----------

  type Digit = n: int | 0 <= n < 16

  function HexDigit(n: Digit): char {
    if n < 10 then '0' + n as char else 'a' + (n - 10) as char
  }

  function Hex(b: seq<Octet>): string {
    if b == [] then [] else [HexDigit(b[0] / 16), HexDigit(b[0] % 16)] + Hex(b[1..])
  }

  function Nibble(c: char): Option<Digit> {
    if '0' <= c <= '9' then Some((c - '0') as int)
    else if 'a' <= c <= 'f' then Some((c - 'a') as int + 10)
    else if 'A' <= c <= 'F' then Some((c - 'A') as int + 10)
    else None
  }

  function Unhex(s: string): Option<seq<Octet>> {
    if s == [] then Some([])
    else if |s| == 1 then None
    else
      match (Nibble(s[0]), Nibble(s[1]), Unhex(s[2..]))
      case (Some(high), Some(low), Some(rest)) => Some([Joined(high, low)] + rest)
      case _ => None
  }

  function Joined(high: Digit, low: Digit): Octet {
    16 * high + low
  }

  function MakeKey(prefix: string, key: seq<Octet>): Key {
    prefix + "/" + Hex(key)
  }

  function MakeKey2(prefix: string, key1: seq<Octet>, key2: seq<Octet>): Key {
    prefix + "/" + Hex(key1) + "/" + Hex(key2)
  }

  lemma NibbleDigit(n: Digit)
    ensures Nibble(HexDigit(n)) == Some(n) && HexDigit(n) != '/'
  {
  }

  lemma UnhexPair(c: char, d: char, high: Digit, low: Digit, rest: string)
    requires Nibble(c) == Some(high) && Nibble(d) == Some(low) && Unhex(rest).Some?
    ensures Unhex([c, d] + rest) == Some([Joined(high, low)] + Unhex(rest).value)
  {
    assert ([c, d] + rest)[2..] == rest;
  }

  lemma {:induction false} UnhexHex(b: seq<Octet>)
    ensures Unhex(Hex(b)) == Some(b)
  {
    if b != [] {
      UnhexHex(b[1..]);
      var high, low := b[0] / 16, b[0] % 16;
      NibbleDigit(high);
      NibbleDigit(low);
      UnhexPair(HexDigit(high), HexDigit(low), high, low, Hex(b[1..]));
      assert b == [b[0]] + b[1..];
    }
  }

  lemma {:induction false} HexNoSlash(b: seq<Octet>)
    ensures '/' !in Hex(b)
  {
    if b != [] {
      HexNoSlash(b[1..]);
      NibbleDigit(b[0] / 16);
      NibbleDigit(b[0] % 16);
    }
  }

  /** A slash ends a segment that has none. */
  lemma SegmentEnds(a: string, b: string, c: string)
    requires '/' !in a && '/' !in b && a + "/" <= b + "/" + c
    ensures a == b
  {
    var whole := b + "/" + c;
    assert whole[|b|] == '/' == (a + "/")[|a|] == whole[|a|];
    assert forall i :: 0 <= i < |a| ==> a[i] == (a + "/")[i] == whole[i];
    assert forall i :: 0 <= i < |b| ==> b[i] == whole[i];
  }

  // ---------- inserting and removing ----------

  datatype Memo = Memo(store: Store, dirty: seq<Pair<()>>)

  function Written(m: Memo, key: Key, entry: Entry): Memo {
    Memo(Insert(m.store, key, entry), Insert(m.dirty, key, ()))
  }

  function DoInsert(m: Memo, key: Key, value: seq<Octet>): Outcome<Memo> {
    match Get(m.store, key)
    case Some(existing) =>
      if existing.value == value then Done(m) else Done(Written(m, key, Entry(existing.revision + 1, value)))
    case None =>
      if Get(m.dirty, key).Some? then Panic else Done(Written(m, key, Entry(0, value)))
  }

  function DoRemove(m: Memo, key: Key): Memo {
    var revision := match Get(m.store, key) case Some(existing) => existing.revision + 1 case None => 0;
    Written(m, key, Entry(revision, []))
  }

  datatype Op = InsertOp(key: Key, value: seq<Octet>) | RemoveOp(key: Key)

  function Step(m: Memo, op: Op): Outcome<Memo> {
    match op
    case InsertOp(key, value) => DoInsert(m, key, value)
    case RemoveOp(key) => Done(DoRemove(m, key))
  }

  function Run(m: Memo, ops: seq<Op>): Outcome<Memo> {
    if ops == [] then Done(m)
    else
      match Run(m, ops[..|ops| - 1])
      case Panic => Panic
      case Done(before) => Step(before, ops[|ops| - 1])
  }

  // ---------- what a key should hold, from the operations alone ----------

  function ValueAfter(entry: Store, ops: seq<Op>, k: Key): Option<seq<Octet>> {
    if ops == [] then
      match Get(entry, k) case Some(e) => Some(e.value) case None => None
    else
      var last := ops[|ops| - 1];
      if last.key != k then ValueAfter(entry, ops[..|ops| - 1], k)
      else if last.InsertOp? then Some(last.value)
      else Some([])
  }

  /** Removes, and inserts of something other than what was there. */
  function Writes(entry: Store, ops: seq<Op>, k: Key): nat {
    if ops == [] then 0
    else
      var before, last := ops[..|ops| - 1], ops[|ops| - 1];
      if last.key == k && (last.RemoveOp? || ValueAfter(entry, before, k) != Some(last.value))
      then Writes(entry, before, k) + 1
      else Writes(entry, before, k)
  }

  /** The revision of a key, minus one when it is not there, so that its first write is revision zero. */
  function Revision(s: Store, k: Key): int {
    match Get(s, k) case Some(e) => e.revision case None => -1
  }

  /** A key holds what it should, at the revision it should, and is dirty when it was written. */
  ghost predicate TracksAt(entry: Store, ops: seq<Op>, m: Memo, k: Key) {
    && (match Get(m.store, k) case Some(e) => ValueAfter(entry, ops, k) == Some(e.value)
                              case None => ValueAfter(entry, ops, k).None?)
    && Revision(m.store, k) == Revision(entry, k) + Writes(entry, ops, k)
    && (Get(m.dirty, k).Some? <==> Writes(entry, ops, k) > 0)
    && (Get(m.dirty, k).None? ==> Get(m.store, k) == Get(entry, k))
  }

  ghost predicate Tracks(entry: Store, ops: seq<Op>, m: Memo) {
    && Ascending(m.store) && Ascending(m.dirty)
    && forall k :: TracksAt(entry, ops, m, k)
  }

  lemma WrittenGets(m: Memo, key: Key, entry: Entry, k: Key)
    ensures Get(Written(m, key, entry).store, k) == if k == key then Some(entry) else Get(m.store, k)
    ensures Get(Written(m, key, entry).dirty, k) == if k == key then Some(()) else Get(m.dirty, k)
  {
    GetInsert(m.store, key, entry, k);
    GetInsert(m.dirty, key, (), k);
  }

  lemma InsertTracksAt(entry: Store, ops: seq<Op>, m: Memo, key: Key, value: seq<Octet>, k: Key)
    requires TracksAt(entry, ops, m, key) && TracksAt(entry, ops, m, k)
    ensures DoInsert(m, key, value).Done?
    ensures TracksAt(entry, ops + [InsertOp(key, value)], DoInsert(m, key, value).value, k)
  {
    var after := ops + [InsertOp(key, value)];
    assert after[..|after| - 1] == ops;
    var revision := match Get(m.store, key) case Some(existing) => existing.revision + 1 case None => 0;
    WrittenGets(m, key, Entry(revision, value), k);
  }

  lemma RemoveTracksAt(entry: Store, ops: seq<Op>, m: Memo, key: Key, k: Key)
    requires TracksAt(entry, ops, m, key) && TracksAt(entry, ops, m, k)
    ensures TracksAt(entry, ops + [RemoveOp(key)], DoRemove(m, key), k)
  {
    var after := ops + [RemoveOp(key)];
    assert after[..|after| - 1] == ops;
    var revision := match Get(m.store, key) case Some(existing) => existing.revision + 1 case None => 0;
    WrittenGets(m, key, Entry(revision, []), k);
  }

  lemma StepTracksAt(entry: Store, ops: seq<Op>, m: Memo, op: Op, k: Key)
    requires TracksAt(entry, ops, m, op.key) && TracksAt(entry, ops, m, k)
    ensures Step(m, op).Done? && TracksAt(entry, ops + [op], Step(m, op).value, k)
  {
    match op
    case InsertOp(key, value) => InsertTracksAt(entry, ops, m, key, value, k);
    case RemoveOp(key) => RemoveTracksAt(entry, ops, m, key, k);
  }

  lemma StepTracks(entry: Store, ops: seq<Op>, m: Memo, op: Op)
    requires Tracks(entry, ops, m)
    ensures Step(m, op).Done? && Tracks(entry, ops + [op], Step(m, op).value)
  {
    assert TracksAt(entry, ops, m, op.key);
    StepTracksAt(entry, ops, m, op, op.key);
    forall k ensures TracksAt(entry, ops + [op], Step(m, op).value, k) {
      assert TracksAt(entry, ops, m, k);
      StepTracksAt(entry, ops, m, op, k);
    }
    StepAscending(m, op);
  }

  lemma StepAscending(m: Memo, op: Op)
    requires Ascending(m.store) && Ascending(m.dirty) && Step(m, op).Done?
    ensures Ascending(Step(m, op).value.store) && Ascending(Step(m, op).value.dirty)
  {
    InsertAscending(m.dirty, op.key, ());
    if Step(m, op).value != m {
      var revision := match Get(m.store, op.key) case Some(existing) => existing.revision + 1 case None => 0;
      InsertAscending(m.store, op.key, Entry(revision, if op.InsertOp? then op.value else []));
    }
  }

  /**
   In every run of inserts and removes the assertion on dirty keys holds, and the store ends up with what
   the operations alone say: for each key its last value and a revision that grew by the number of writes.
   */
  lemma {:induction false} RunTracks(entry: Store, ops: seq<Op>)
    requires Ascending(entry)
    ensures Run(Memo(entry, []), ops).Done? && Tracks(entry, ops, Run(Memo(entry, []), ops).value)
  {
    if ops != [] {
      var before, last := ops[..|ops| - 1], ops[|ops| - 1];
      RunTracks(entry, before);
      StepTracks(entry, before, Run(Memo(entry, []), before).value, last);
      assert ops == before + [last];
    }
  }

  // ---------- the mutations of a context ----------

  /** The dirty keys with what they hold; every one of them has to be in the store. */
  function DirtyEntries(dirty: seq<Pair<()>>, store: Store): Outcome<Store> {
    if dirty == [] then Done([])
    else
      match (Get(store, dirty[0].key), DirtyEntries(dirty[1..], store))
      case (Some(e), Done(rest)) => Done([Pair(dirty[0].key, e)] + rest)
      case _ => Panic
  }

  /** Mutations stored one after the other into a map. */
  function Replayed(s: Store, mutations: Store): Store
    decreases |mutations|
  {
    if mutations == [] then s
    else Replayed(Insert(s, mutations[0].key, mutations[0].value), mutations[1..])
  }

  lemma {:induction false} DirtyEntriesHold(dirty: seq<Pair<()>>, store: Store)
    requires Ascending(dirty)
    requires forall i :: 0 <= i < |dirty| ==> Get(store, dirty[i].key).Some?
    ensures DirtyEntries(dirty, store).Done?
    ensures var r := DirtyEntries(dirty, store).value;
            |r| == |dirty| && forall i :: 0 <= i < |dirty| ==>
              r[i].key == dirty[i].key && Get(store, dirty[i].key) == Some(r[i].value)
  {
    if dirty != [] {
      assert Get(store, dirty[0].key).Some?;
      assert forall i :: 0 <= i < |dirty[1..]| ==> dirty[1..][i] == dirty[i + 1];
      DirtyEntriesHold(dirty[1..], store);
    }
  }

  lemma {:induction false} SameKeysAscending<V, U>(s: seq<Pair<V>>, t: seq<Pair<U>>)
    requires Ascending(s) && |s| == |t| && forall i :: 0 <= i < |s| ==> s[i].key == t[i].key
    ensures Ascending(t)
  {
    if s != [] {
      forall i | 0 <= i < |t[1..]| ensures Less(t[0].key, t[1..][i].key) {
        assert s[1..][i].key == t[1..][i].key;
      }
      SameKeysAscending(s[1..], t[1..]);
    }
  }

  lemma {:induction false} GetReplayed(s: Store, mutations: Store, k: Key)
    requires Ascending(mutations)
    ensures Get(Replayed(s, mutations), k)
            == if Get(mutations, k).Some? then Get(mutations, k) else Get(s, k)
    decreases |mutations|
  {
    if mutations != [] {
      var first := mutations[0];
      GetReplayed(Insert(s, first.key, first.value), mutations[1..], k);
      GetInsert(s, first.key, first.value, k);
      if k == first.key {
        GetAbove(k, mutations[1..]);
      }
    }
  }

  lemma {:induction false} ReplayedAscending(s: Store, mutations: Store)
    requires Ascending(s)
    ensures Ascending(Replayed(s, mutations))
    decreases |mutations|
  {
    if mutations != [] {
      InsertAscending(s, mutations[0].key, mutations[0].value);
      ReplayedAscending(Insert(s, mutations[0].key, mutations[0].value), mutations[1..]);
    }
  }

  lemma DirtyEntriesGet(m: Memo, k: Key)
    requires Ascending(m.dirty)
    requires forall i :: 0 <= i < |m.dirty| ==> Get(m.store, m.dirty[i].key).Some?
    ensures DirtyEntries(m.dirty, m.store).Done?
    ensures Ascending(DirtyEntries(m.dirty, m.store).value)
    ensures Get(DirtyEntries(m.dirty, m.store).value, k) == if Get(m.dirty, k).Some? then Get(m.store, k) else None
  {
    DirtyEntriesHold(m.dirty, m.store);
    var r := DirtyEntries(m.dirty, m.store).value;
    SameKeysAscending(m.dirty, r);
    if Get(m.dirty, k).Some? {
      var i := GetIsAt(m.dirty, k);
      GetAt(r, i);
    } else if Get(r, k).Some? {
      var i := GetIsAt(r, k);
      GetAt(m.dirty, i);
    }
  }

  lemma DirtyInStore(entry: Store, ops: seq<Op>, m: Memo, i: nat)
    requires Tracks(entry, ops, m) && i < |m.dirty|
    ensures Get(m.store, m.dirty[i].key).Some?
  {
    GetAt(m.dirty, i);
    assert TracksAt(entry, ops, m, m.dirty[i].key);
  }

  /**
   Whatever a context did, its mutations are all there is to tell: they can be had without a failing
   unwrap, and storing them over the store as it was entered gives the store as it was left.
   */
  lemma MutationsSuffice(entry: Store, ops: seq<Op>)
    requires Ascending(entry)
    ensures Run(Memo(entry, []), ops).Done?
    ensures var m := Run(Memo(entry, []), ops).value;
            && DirtyEntries(m.dirty, m.store).Done?
            && Replayed(entry, DirtyEntries(m.dirty, m.store).value) == m.store
  {
    RunTracks(entry, ops);
    var m := Run(Memo(entry, []), ops).value;
    forall i | 0 <= i < |m.dirty| ensures Get(m.store, m.dirty[i].key).Some? {
      DirtyInStore(entry, ops, m, i);
    }
    DirtyEntriesHold(m.dirty, m.store);
    ReplayRestores(entry, ops, m);
  }

  lemma ReplayRestores(entry: Store, ops: seq<Op>, m: Memo)
    requires Ascending(entry) && Tracks(entry, ops, m)
    requires forall i :: 0 <= i < |m.dirty| ==> Get(m.store, m.dirty[i].key).Some?
    requires DirtyEntries(m.dirty, m.store).Done?
    ensures Replayed(entry, DirtyEntries(m.dirty, m.store).value) == m.store
  {
    var mutations := DirtyEntries(m.dirty, m.store).value;
    ReplayedAscending(entry, mutations);
    forall k ensures Get(Replayed(entry, mutations), k) == Get(m.store, k) {
      DirtyEntriesGet(m, k);
      GetReplayed(entry, mutations, k);
      assert TracksAt(entry, ops, m, k);
    }
    Canonical(Replayed(entry, mutations), m.store);
  }

  function Prepended(s: Store, rest: Outcome<Store>): (r: Outcome<Store>)
    ensures s == [] ==> r == rest
  {
    match rest
    case Panic => Panic
    case Done(t) => assert s == [] ==> s + t == t; Done(s + t)
  }

  lemma PrependedTwice(s: Store, p: Pair<Entry>, rest: Outcome<Store>)
    ensures Prepended(s + [p], rest) == Prepended(s, Prepended([p], rest))
  {
    if rest.Done? {
      assert s + [p] + rest.value == s + ([p] + rest.value);
    }
  }

  // ---------- the object ----------

  class State {
    var store: Store
    var dirty: seq<Pair<()>>

    ghost predicate Valid()
      reads this
    {
      Ascending(store) && Ascending(dirty)
    }

    function Value(): Memo
      reads this
    {
      Memo(store, dirty)
    }

    /** A context entered on a store: nothing is dirty yet. */
    constructor (store: Store)
      requires Ascending(store)
      ensures Valid() && Value() == Memo(store, [])
    {
      this.store := store;
      dirty := [];
    }

    /** Panics only where a key is dirty that the store does not hold. */
    method Insert(fullKey: Key, value: seq<Octet>) returns (r: Outcome<()>)
      requires Valid()
      modifies this
      ensures Valid()
      ensures match DoInsert(old(Value()), fullKey, value)
              case Panic => r.Panic? && Value() == old(Value())
              case Done(after) => r.Done? && Value() == after
    {
      var existing := Get(store, fullKey);
      var revision := 0;
      if existing.Some? {
        if existing.value.value == value {
          return Done(());
        }
        revision := existing.value.revision + 1;
      } else if Get(dirty, fullKey).Some? {
        return Panic;
      }
      InsertAscending(store, fullKey, Entry(revision, value));
      InsertAscending(dirty, fullKey, ());
      store := OrderedMap.Insert(store, fullKey, Entry(revision, value));
      dirty := OrderedMap.Insert(dirty, fullKey, ());
      return Done(());
    }

    method Remove(fullKey: Key)
      requires Valid()
      modifies this
      ensures Valid() && Value() == DoRemove(old(Value()), fullKey)
    {
      var existing := Get(store, fullKey);
      var revision := if existing.Some? then existing.value.revision + 1 else 0;
      InsertAscending(store, fullKey, Entry(revision, []));
      InsertAscending(dirty, fullKey, ());
      store := OrderedMap.Insert(store, fullKey, Entry(revision, []));
      dirty := OrderedMap.Insert(dirty, fullKey, ());
    }

    /** The dirty keys in order, each with its entry. */
    method GetDirty() returns (r: Outcome<Store>)
      ensures r == DirtyEntries(dirty, store)
    {
      var mutations: Store := [];
      var i := 0;
      assert dirty[0..] == dirty;
      while i < |dirty|
        invariant i <= |dirty|
        invariant DirtyEntries(dirty, store) == Prepended(mutations, DirtyEntries(dirty[i..], store))
      {
        var entry := Get(store, dirty[i].key);
        assert dirty[i..][1..] == dirty[i + 1..];
        if entry.None? {
          return Panic;
        }
        PrependedTwice(mutations, Pair(dirty[i].key, entry.value), DirtyEntries(dirty[i + 1..], store));
        mutations := mutations + [Pair(dirty[i].key, entry.value)];
        i := i + 1;
      }
      assert mutations + [] == mutations;
      return Done(mutations);
    }
  }
}
