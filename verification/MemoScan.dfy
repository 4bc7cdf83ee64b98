/**
 Prefix scans of the memo store: reading back everything of one kind, or everything nested under one key,
 from composite keys whose last segment is hex.
 */
module MemoScan {
  import opened Wrappers
  import opened OrderedMap
  import opened MemoStore

  datatype Found = Found(key: seq<Octet>, entry: Entry)

  /** What follows the prefix of each key, decoded; a tail that is not hex panics. */
  function Decoded(s: Store, n: nat): Outcome<seq<Found>>
    requires forall i :: 0 <= i < |s| ==> n <= |s[i].key|
  {
    if s == [] then Done([])
    else
      match (Unhex(s[0].key[n..]), Decoded(s[1..], n))
      case (Some(key), Done(rest)) => Done([Found(key, s[0].value)] + rest)
      case _ => Panic
  }

  lemma {:induction false} TakenLongEnough(s: Store, p: Key)
    ensures forall i :: 0 <= i < |TakeWhilePrefixed(s, p)| ==> p <= TakeWhilePrefixed(s, p)[i].key
  {
    if s != [] && p <= s[0].key {
      TakenLongEnough(s[1..], p);
    }
  }

  function Scan(s: Store, p: Key): Outcome<seq<Found>> {
    var taken := TakeWhilePrefixed(Range(s, p), p);
    assert forall i :: 0 <= i < |taken| ==> |p| <= |taken[i].key| by { TakenLongEnough(Range(s, p), p); }
    Decoded(taken, |p|)
  }

  function GetPrefix(s: Store, prefix: string): Outcome<seq<Found>> {
    Scan(s, MakeKey(prefix, []))
  }

  function GetPrefix2(s: Store, prefix: string, key1: seq<Octet>): Outcome<seq<Found>> {
    Scan(s, MakeKey2(prefix, key1, []))
  }

  // ---------- a scan finds exactly what is there ----------

  predicate Readable(k: Key, p: Key) {
    p <= k ==> Unhex(k[|p|..]).Some?
  }

  /** Keys under a prefix are written as this store writes them: the prefix and lower-case hex. */
  ghost predicate HexTail(k: Key, p: Key) {
    p <= k ==> exists b :: k == p + Hex(b)
  }

  ghost predicate Holds(s: Store, k: Key, e: Entry) {
    exists i :: 0 <= i < |s| && s[i] == Pair(k, e)
  }

  lemma HoldsIff(s: Store, k: Key, e: Entry)
    requires Ascending(s)
    ensures Holds(s, k, e) <==> Get(s, k) == Some(e)
  {
    if Holds(s, k, e) {
      var i :| 0 <= i < |s| && s[i] == Pair(k, e);
      GetAt(s, i);
    }
    if Get(s, k) == Some(e) {
      var i := GetIsAt(s, k);
    }
  }

  lemma {:induction false} PrefixedAre(s: Store, p: Key)
    ensures forall i :: 0 <= i < |Prefixed(s, p)| ==> p <= Prefixed(s, p)[i].key
  {
    if s != [] {
      PrefixedAre(s[1..], p);
    }
  }

  function DecodedUnder(s: Store, p: Key): Outcome<seq<Found>> {
    PrefixedAre(s, p);
    Decoded(Prefixed(s, p), |p|)
  }

  lemma ScanIsDecoded(s: Store, p: Key)
    requires Ascending(s)
    ensures Scan(s, p) == DecodedUnder(s, p)
  {
    ScanFindsAll(s, p);
  }

  /** A scan succeeds exactly when all it has to read is hex. */
  lemma {:induction false} DecodesIff(s: Store, p: Key)
    ensures DecodedUnder(s, p).Done? <==> forall i :: 0 <= i < |s| ==> Readable(s[i].key, p)
  {
    if s != [] {
      DecodesIff(s[1..], p);
      PrefixedAre(s, p);
      assert p <= s[0].key ==> Prefixed(s, p)[1..] == Prefixed(s[1..], p);
      assert forall i :: 0 < i < |s| ==> s[i] == s[1..][i - 1];
      if forall i :: 0 <= i < |s| ==> Readable(s[i].key, p) {
        assert forall i :: 0 <= i < |s[1..]| ==> s[1..][i] == s[i + 1];
        assert Readable(s[0].key, p);
      }
    }
  }

  lemma HexTailReadable(k: Key, p: Key)
    requires HexTail(k, p)
    ensures Readable(k, p)
    ensures p <= k ==> k == p + Hex(Unhex(k[|p|..]).value)
  {
    if p <= k {
      var b :| k == p + Hex(b);
      assert k[|p|..] == Hex(b);
      UnhexHex(b);
    }
  }

  /** Entry by entry: what is decoded under a prefix is what the store holds there. */
  lemma {:induction false} DecodedHolds(s: Store, p: Key, b: seq<Octet>, e: Entry)
    requires forall i :: 0 <= i < |s| ==> HexTail(s[i].key, p)
    ensures DecodedUnder(s, p).Done?
    ensures Found(b, e) in DecodedUnder(s, p).value <==> Holds(s, p + Hex(b), e)
  {
    if s != [] {
      assert HexTail(s[0].key, p);
      assert forall i :: 0 <= i < |s[1..]| ==> s[1..][i] == s[i + 1];
      DecodedHolds(s[1..], p, b, e);
      HoldsHead(s, p + Hex(b), e);
      if p <= s[0].key {
        HexTailReadable(s[0].key, p);
        PrefixedAre(s, p);
        assert Prefixed(s, p)[1..] == Prefixed(s[1..], p);
        TailIs(s[0].key, p, b);
      }
    }
  }

  lemma TailIs(k: Key, p: Key, b: seq<Octet>)
    requires HexTail(k, p) && p <= k
    ensures Unhex(k[|p|..]) == Some(b) <==> k == p + Hex(b)
  {
    HexTailReadable(k, p);
    if k == p + Hex(b) {
      assert k[|p|..] == Hex(b);
      UnhexHex(b);
    }
  }

  lemma HoldsHead(s: Store, k: Key, e: Entry)
    requires s != []
    ensures Holds(s, k, e) <==> s[0] == Pair(k, e) || Holds(s[1..], k, e)
  {
    assert forall i :: 0 < i < |s| ==> s[i] == s[1..][i - 1];
    assert forall i :: 0 <= i < |s[1..]| ==> s[1..][i] == s[i + 1];
  }

  /** A scan returns the decoded rest of each key under the prefix with its entry, and nothing else. */
  lemma ScanExact(s: Store, p: Key, b: seq<Octet>, e: Entry)
    requires Ascending(s) && forall i :: 0 <= i < |s| ==> HexTail(s[i].key, p)
    ensures Scan(s, p).Done?
    ensures Found(b, e) in Scan(s, p).value <==> Get(s, p + Hex(b)) == Some(e)
  {
    ScanIsDecoded(s, p);
    DecodedHolds(s, p, b, e);
    HoldsIff(s, p + Hex(b), e);
  }

  predicate Distinct(r: seq<Found>) {
    r == [] || ((forall f :: f in r[1..] ==> f.key != r[0].key) && Distinct(r[1..]))
  }

  lemma {:induction false} DecodedDistinct(s: Store, p: Key)
    requires Ascending(s) && forall i :: 0 <= i < |s| ==> HexTail(s[i].key, p)
    ensures DecodedUnder(s, p).Done? && Distinct(DecodedUnder(s, p).value)
  {
    if s != [] {
      assert HexTail(s[0].key, p);
      assert forall i :: 0 <= i < |s[1..]| ==> s[1..][i] == s[i + 1];
      DecodedDistinct(s[1..], p);
      if p <= s[0].key {
        HexTailReadable(s[0].key, p);
        PrefixedAre(s, p);
        assert Prefixed(s, p)[1..] == Prefixed(s[1..], p);
        var rest := DecodedUnder(s[1..], p).value;
        assert DecodedUnder(s, p).value[1..] == rest;
        forall f | f in rest ensures f.key != Unhex(s[0].key[|p|..]).value {
          DecodedHolds(s[1..], p, f.key, f.entry);
          var i :| 0 <= i < |s[1..]| && s[1..][i] == Pair(p + Hex(f.key), f.entry);
          LessStrict(s[0].key, s[1..][i].key);
        }
      }
    }
  }

  // ---------- the keys of the persister ----------

  const NODE_KINDS: set<string> := {"node/entry", "node/state", "node/tracker", "node/allowlist"}
  const CHANNEL := "channel"

  ghost predicate NodeKey(k: Key) {
    exists kind, b :: kind in NODE_KINDS && k == MakeKey(kind, b)
  }

  ghost predicate ChannelKey(k: Key) {
    exists b1, b2 :: k == MakeKey2(CHANNEL, b1, b2)
  }

  /** The keys under which the persister stores anything. */
  ghost predicate WellFormed(s: Store) {
    forall i :: 0 <= i < |s| ==> NodeKey(s[i].key) || ChannelKey(s[i].key)
  }

  lemma {:induction false} InsertWellFormed(s: Store, k: Key, e: Entry)
    requires WellFormed(s) && (NodeKey(k) || ChannelKey(k))
    ensures WellFormed(Insert(s, k, e))
  {
    if s != [] {
      assert forall i :: 0 <= i < |s[1..]| ==> s[1..][i] == s[i + 1];
      assert NodeKey(s[0].key) || ChannelKey(s[0].key);
      InsertWellFormed(s[1..], k, e);
    }
  }

  lemma KindsApart(kind: string, other: string, tail: string)
    requires kind in NODE_KINDS && other in NODE_KINDS && kind + "/" <= other + "/" + tail
    ensures kind == other
  {
    assert (kind + "/")[5] == (other + "/" + tail)[5];
  }

  lemma FirstLetters(k: Key)
    ensures NodeKey(k) ==> k != [] && k[0] == 'n'
    ensures ChannelKey(k) ==> k != [] && k[0] == 'c'
  {
  }

  lemma NodeKeyTail(k: Key, kind: string)
    requires kind in NODE_KINDS && (NodeKey(k) || ChannelKey(k))
    ensures HexTail(k, MakeKey(kind, []))
  {
    var p := MakeKey(kind, []);
    assert p == kind + "/";
    if p <= k {
      assert p[0] == 'n' == k[0];
      FirstLetters(k);
      var other, b :| other in NODE_KINDS && k == MakeKey(other, b);
      KindsApart(kind, other, Hex(b));
      assert k == p + Hex(b);
    }
  }

  lemma SegmentsUnder(head: string, a: string, b: string, c: string)
    requires '/' !in a && '/' !in b && head + a + "/" <= head + b + "/" + c
    ensures a == b && head + b + "/" + c == (head + a + "/") + c
  {
    var n := |head|;
    var p, k := head + a + "/", head + b + "/" + c;
    assert p[n..] == a + "/" && k[n..] == b + "/" + c;
    assert p[n..] <= k[n..];
    SegmentEnds(a, b, c);
  }

  lemma ChannelKeyTail(k: Key, key1: seq<Octet>)
    requires NodeKey(k) || ChannelKey(k)
    ensures HexTail(k, MakeKey2(CHANNEL, key1, []))
  {
    var p := MakeKey2(CHANNEL, key1, []);
    assert p == CHANNEL + "/" + Hex(key1) + "/";
    if p <= k {
      assert p[0] == 'c' == k[0];
      FirstLetters(k);
      var b1, b2 :| k == MakeKey2(CHANNEL, b1, b2);
      HexNoSlash(key1);
      HexNoSlash(b1);
      SegmentsUnder(CHANNEL + "/", Hex(key1), Hex(b1), Hex(b2));
    }
  }

  /** Reading one kind back: every key of that kind once, with its entry, and nothing of another kind. */
  lemma NodesExact(s: Store, kind: string, b: seq<Octet>, e: Entry)
    requires Ascending(s) && WellFormed(s) && kind in NODE_KINDS
    ensures GetPrefix(s, kind).Done? && Distinct(GetPrefix(s, kind).value)
    ensures Found(b, e) in GetPrefix(s, kind).value <==> Get(s, MakeKey(kind, b)) == Some(e)
  {
    var p := MakeKey(kind, []);
    forall i | 0 <= i < |s| ensures HexTail(s[i].key, p) {
      NodeKeyTail(s[i].key, kind);
    }
    ScanExact(s, p, b, e);
    ScanIsDecoded(s, p);
    DecodedDistinct(s, p);
    assert p + Hex(b) == MakeKey(kind, b);
  }

  /** Reading the channels of one node back: every channel once, and none of another node. */
  lemma ChannelsExact(s: Store, node: seq<Octet>, channel: seq<Octet>, e: Entry)
    requires Ascending(s) && WellFormed(s)
    ensures GetPrefix2(s, CHANNEL, node).Done? && Distinct(GetPrefix2(s, CHANNEL, node).value)
    ensures Found(channel, e) in GetPrefix2(s, CHANNEL, node).value
            <==> Get(s, MakeKey2(CHANNEL, node, channel)) == Some(e)
  {
    var p := MakeKey2(CHANNEL, node, []);
    forall i | 0 <= i < |s| ensures HexTail(s[i].key, p) {
      ChannelKeyTail(s[i].key, node);
    }
    ScanExact(s, p, channel, e);
    ScanIsDecoded(s, p);
    DecodedDistinct(s, p);
    assert p + Hex(channel) == MakeKey2(CHANNEL, node, channel);
  }

  /** Keys do not collide: a key names its kind, its node and its channel. */
  lemma KeysInjective(n1: seq<Octet>, c1: seq<Octet>, n2: seq<Octet>, c2: seq<Octet>)
    requires MakeKey2(CHANNEL, n1, c1) == MakeKey2(CHANNEL, n2, c2)
    ensures n1 == n2 && c1 == c2
  {
    var p := CHANNEL + "/" + Hex(n1) + "/";
    assert p <= p + Hex(c1) == CHANNEL + "/" + Hex(n2) + "/" + Hex(c2);
    HexNoSlash(n1);
    HexNoSlash(n2);
    SegmentsUnder(CHANNEL + "/", Hex(n1), Hex(n2), Hex(c2));
    assert Hex(c1) == (p + Hex(c1))[|p|..] == (p + Hex(c2))[|p|..] == Hex(c2);
    UnhexHex(n1);
    UnhexHex(n2);
    UnhexHex(c1);
    UnhexHex(c2);
  }

  lemma {:induction false} RunWellFormed(entry: Store, ops: seq<Op>)
    requires Ascending(entry) && WellFormed(entry)
    requires forall i :: 0 <= i < |ops| ==> NodeKey(ops[i].key) || ChannelKey(ops[i].key)
    ensures Run(Memo(entry, []), ops).Done? && WellFormed(Run(Memo(entry, []), ops).value.store)
  {
    RunTracks(entry, ops);
    if ops != [] {
      var before, last := ops[..|ops| - 1], ops[|ops| - 1];
      RunWellFormed(entry, before);
      StepWellFormed(Run(Memo(entry, []), before).value, last);
    }
  }

  lemma StepWellFormed(m: Memo, op: Op)
    requires WellFormed(m.store) && (NodeKey(op.key) || ChannelKey(op.key))
    ensures Step(m, op).Done? ==> WellFormed(Step(m, op).value.store)
  {
    var revision := match Get(m.store, op.key) case Some(existing) => existing.revision + 1 case None => 0;
    InsertWellFormed(m.store, op.key, Entry(revision, if op.InsertOp? then op.value else []));
  }

  lemma TrackedEntry(entry: Store, ops: seq<Op>, m: Memo, k: Key, e: Entry)
    requires TracksAt(entry, ops, m, k)
    ensures Get(m.store, k) == Some(e)
            <==> ValueAfter(entry, ops, k) == Some(e.value) && e.revision == Revision(entry, k) + Writes(entry, ops, k)
  {
  }

  lemma ChannelsTracked(entry: Store, ops: seq<Op>, m: Memo, node: seq<Octet>, channel: seq<Octet>, e: Entry)
    requires Ascending(m.store) && WellFormed(m.store)
    requires TracksAt(entry, ops, m, MakeKey2(CHANNEL, node, channel))
    ensures var r := GetPrefix2(m.store, CHANNEL, node);
            var k := MakeKey2(CHANNEL, node, channel);
            && r.Done? && Distinct(r.value)
            && (Found(channel, e) in r.value
                <==> && ValueAfter(entry, ops, k) == Some(e.value)
                     && e.revision == Revision(entry, k) + Writes(entry, ops, k))
  {
    TrackedEntry(entry, ops, m, MakeKey2(CHANNEL, node, channel), e);
    ChannelsExact(m.store, node, channel, e);
  }

  /**
   After any run of a context over the keys of the persister, reading the channels of a node back gives, for
   each channel, the last value written to it or there before, at its revision, and nothing else.
   */
  lemma ChannelsAfterRun(entry: Store, ops: seq<Op>, node: seq<Octet>, channel: seq<Octet>, e: Entry)
    requires Ascending(entry) && WellFormed(entry)
    requires forall i :: 0 <= i < |ops| ==> NodeKey(ops[i].key) || ChannelKey(ops[i].key)
    ensures Run(Memo(entry, []), ops).Done?
    ensures var r := GetPrefix2(Run(Memo(entry, []), ops).value.store, CHANNEL, node);
            var k := MakeKey2(CHANNEL, node, channel);
            && r.Done? && Distinct(r.value)
            && (Found(channel, e) in r.value
                <==> && ValueAfter(entry, ops, k) == Some(e.value)
                     && e.revision == Revision(entry, k) + Writes(entry, ops, k))
  {
    RunTracks(entry, ops);
    RunWellFormed(entry, ops);
    var m := Run(Memo(entry, []), ops).value;
    assert TracksAt(entry, ops, m, MakeKey2(CHANNEL, node, channel));
    ChannelsTracked(entry, ops, m, node, channel, e);
  }
}
