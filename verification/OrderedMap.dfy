/**
 Ordered maps with string keys, as the memo store uses them: entries in ascending order of their keys,
 strings being compared character by character (which, for UTF-8, is the order of their bytes).
 */
module OrderedMap {
  import opened Wrappers

  type Key = string

  predicate Less(a: Key, b: Key) {
    b != [] && (a == [] || a[0] < b[0] || (a[0] == b[0] && Less(a[1..], b[1..])))
  }

  lemma {:induction false} LessTransitive(a: Key, b: Key, c: Key)
    requires Less(a, b) && Less(b, c)
    ensures Less(a, c)
  {
    if a != [] && a[0] == b[0] == c[0] {
      LessTransitive(a[1..], b[1..], c[1..]);
    }
  }

  lemma {:induction false} LessTotal(a: Key, b: Key)
    ensures Less(a, b) || a == b || Less(b, a)
  {
    if a != [] && b != [] && a[0] == b[0] {
      LessTotal(a[1..], b[1..]);
      assert a == [a[0]] + a[1..] && b == [b[0]] + b[1..];
    }
  }

  lemma {:induction false} LessStrict(a: Key, b: Key)
    requires Less(a, b)
    ensures a != b && !Less(b, a)
  {
    if a != [] && a[0] == b[0] {
      LessStrict(a[1..], b[1..]);
    }
  }

  /** Strings with a given prefix do not come before it. */
  lemma {:induction false} PrefixNotLess(p: Key, k: Key)
    requires p <= k
    ensures !Less(k, p)
  {
    if p != [] {
      PrefixNotLess(p[1..], k[1..]);
    }
  }

  /** Strings with a given prefix are contiguous: once past them, no larger one has the prefix. */
  lemma {:induction false} PastPrefix(p: Key, k: Key, l: Key)
    requires !Less(k, p) && !(p <= k) && Less(k, l)
    ensures !(p <= l)
  {
    if p <= l && k[0] == p[0] {
      PastPrefix(p[1..], k[1..], l[1..]);
    }
  }

  datatype Pair<+V> = Pair(key: Key, value: V)

  predicate Above<V>(k: Key, s: seq<Pair<V>>) {
    forall i :: 0 <= i < |s| ==> Less(k, s[i].key)
  }

  predicate Ascending<V>(s: seq<Pair<V>>) {
    s == [] || (Above(s[0].key, s[1..]) && Ascending(s[1..]))
  }

  function Get<V>(s: seq<Pair<V>>, k: Key): Option<V> {
    if s == [] then None else if s[0].key == k then Some(s[0].value) else Get(s[1..], k)
  }

  function Insert<V>(s: seq<Pair<V>>, k: Key, v: V): seq<Pair<V>> {
    if s == [] || Less(k, s[0].key) then [Pair(k, v)] + s
    else if s[0].key == k then [Pair(k, v)] + s[1..]
    else [s[0]] + Insert(s[1..], k, v)
  }

  lemma {:induction false} AboveLess<V>(j: Key, k: Key, s: seq<Pair<V>>)
    requires Less(j, k) && Above(k, s)
    ensures Above(j, s)
  {
    forall i | 0 <= i < |s| ensures Less(j, s[i].key) {
      LessTransitive(j, k, s[i].key);
    }
  }

  lemma {:induction false} InsertAbove<V>(j: Key, s: seq<Pair<V>>, k: Key, v: V)
    requires Less(j, k) && Above(j, s)
    ensures Above(j, Insert(s, k, v))
  {
    if s != [] && !Less(k, s[0].key) && s[0].key != k {
      InsertAbove(j, s[1..], k, v);
    }
  }

  lemma {:induction false} InsertAscending<V>(s: seq<Pair<V>>, k: Key, v: V)
    requires Ascending(s)
    ensures Ascending(Insert(s, k, v))
  {
    if s == [] {
    } else if Less(k, s[0].key) {
      AboveLess(k, s[0].key, s[1..]);
      assert Insert(s, k, v)[1..] == s;
    } else if s[0].key == k {
      assert Insert(s, k, v)[1..] == s[1..];
    } else {
      LessTotal(k, s[0].key);
      InsertAscending(s[1..], k, v);
      InsertAbove(s[0].key, s[1..], k, v);
      assert Insert(s, k, v)[1..] == Insert(s[1..], k, v);
    }
  }

  /** An entry is found where it was put and the others are as before. */
  lemma {:induction false} GetInsert<V>(s: seq<Pair<V>>, k: Key, v: V, j: Key)
    ensures Get(Insert(s, k, v), j) == if j == k then Some(v) else Get(s, j)
  {
    if s == [] || Less(k, s[0].key) {
      assert Insert(s, k, v)[1..] == s;
    } else if s[0].key == k {
      assert Insert(s, k, v)[1..] == s[1..];
    } else {
      GetInsert(s[1..], k, v, j);
      assert Insert(s, k, v)[1..] == Insert(s[1..], k, v);
    }
  }

  lemma {:induction false} GetAbove<V>(k: Key, s: seq<Pair<V>>)
    requires Above(k, s)
    ensures Get(s, k).None?
  {
    if s != [] {
      LessStrict(k, s[0].key);
      assert Above(k, s[1..]);
      GetAbove(k, s[1..]);
    }
  }

  lemma {:induction false} GetAt<V>(s: seq<Pair<V>>, i: nat)
    requires Ascending(s) && i < |s|
    ensures Get(s, s[i].key) == Some(s[i].value)
  {
    if i > 0 {
      LessStrict(s[0].key, s[1..][i - 1].key);
      GetAt(s[1..], i - 1);
    }
  }

  lemma {:induction false} GetIsAt<V>(s: seq<Pair<V>>, k: Key) returns (i: nat)
    requires Get(s, k).Some?
    ensures i < |s| && s[i].key == k && Get(s, k) == Some(s[i].value)
  {
    if s[0].key == k {
      i := 0;
    } else {
      var j := GetIsAt(s[1..], k);
      i := j + 1;
    }
  }

  /** Maps that answer alike are alike: the ascending list of a map is unique. */
  lemma {:induction false} Canonical<V>(s: seq<Pair<V>>, t: seq<Pair<V>>)
    requires Ascending(s) && Ascending(t)
    requires forall k :: Get(s, k) == Get(t, k)
    ensures s == t
  {
    if s == [] {
      if t != [] {
        assert Get(t, t[0].key).Some?;
      }
    } else {
      assert Get(s, s[0].key).Some?;
      assert t != [];
      assert Get(t, t[0].key).Some?;
      SameFirst(s, t);
      forall k ensures Get(s[1..], k) == Get(t[1..], k) {
        if k == s[0].key {
          GetAbove(k, s[1..]);
          GetAbove(k, t[1..]);
        } else {
          assert Get(s, k) == Get(t, k);
        }
      }
      Canonical(s[1..], t[1..]);
      assert s == [s[0]] + s[1..] && t == [t[0]] + t[1..];
    }
  }

  lemma SameFirst<V>(s: seq<Pair<V>>, t: seq<Pair<V>>)
    requires s != [] && t != [] && Ascending(s) && Ascending(t)
    requires forall k :: Get(s, k) == Get(t, k)
    ensures s[0] == t[0]
  {
    assert Get(s, s[0].key) == Get(t, s[0].key) && Get(t, t[0].key) == Get(s, t[0].key);
    var i := GetIsAt(t, s[0].key);
    var j := GetIsAt(s, t[0].key);
    if i > 0 && j > 0 {
      assert Less(t[0].key, t[1..][i - 1].key) && Less(s[0].key, s[1..][j - 1].key);
      LessStrict(t[0].key, s[0].key);
      assert false;
    }
  }

  // ---------- ordered scans ----------

  /** The entries from a key on. */
  function Range<V>(s: seq<Pair<V>>, from: Key): seq<Pair<V>> {
    if s == [] || !Less(s[0].key, from) then s else Range(s[1..], from)
  }

  function TakeWhilePrefixed<V>(s: seq<Pair<V>>, p: Key): seq<Pair<V>> {
    if s == [] || !(p <= s[0].key) then [] else [s[0]] + TakeWhilePrefixed(s[1..], p)
  }

  /** All the entries whose key has a given prefix, in order. */
  function Prefixed<V>(s: seq<Pair<V>>, p: Key): seq<Pair<V>> {
    if s == [] then []
    else if p <= s[0].key then [s[0]] + Prefixed(s[1..], p)
    else Prefixed(s[1..], p)
  }

  lemma {:induction false} NonePrefixed<V>(s: seq<Pair<V>>, p: Key)
    requires forall i :: 0 <= i < |s| ==> !(p <= s[i].key)
    ensures Prefixed(s, p) == []
  {
    if s != [] {
      assert !(p <= s[0].key);
      assert forall i :: 0 <= i < |s[1..]| ==> s[1..][i] == s[i + 1];
      NonePrefixed(s[1..], p);
    }
  }

  lemma {:induction false} TakenArePrefixed<V>(s: seq<Pair<V>>, p: Key)
    requires Ascending(s) && (s != [] ==> !Less(s[0].key, p))
    ensures TakeWhilePrefixed(s, p) == Prefixed(s, p)
  {
    if s == [] {
    } else if p <= s[0].key {
      if s[1..] != [] {
        NotLessOnwards(p, s[0].key, s[1].key);
      }
      TakenArePrefixed(s[1..], p);
    } else {
      forall i | 0 <= i < |s| ensures !(p <= s[i].key) {
        if i > 0 {
          assert s[i] == s[1..][i - 1];
          PastPrefix(p, s[0].key, s[i].key);
        }
      }
      NonePrefixed(s, p);
    }
  }

  lemma NotLessOnwards(p: Key, k: Key, l: Key)
    requires !Less(k, p) && Less(k, l)
    ensures !Less(l, p)
  {
    if Less(l, p) {
      LessTransitive(k, l, p);
    }
  }

  /** Starting at the prefix and stopping at the first key without it finds all the keys that have it. */
  lemma {:induction false} ScanFindsAll<V>(s: seq<Pair<V>>, p: Key)
    requires Ascending(s)
    ensures TakeWhilePrefixed(Range(s, p), p) == Prefixed(s, p)
  {
    if s != [] && Less(s[0].key, p) {
      if p <= s[0].key {
        PrefixNotLess(p, s[0].key);
        assert false;
      }
      ScanFindsAll(s[1..], p);
    } else {
      TakenArePrefixed(s, p);
    }
  }
}
