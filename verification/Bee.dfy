/** How index.js keeps sessions in its bee, a map from byte strings to byte strings: the scope and data entries
    of a session, and the range scan that finds the sessions again. A session key is the UTF-8 of its string. */
module Bee {
  import opened Wire

  const SLASH: Byte := 0x2F

  /** picoclaw/sessions/ */
  const PREFIX: Bytes := [0x70, 0x69, 0x63, 0x6F, 0x63, 0x6C, 0x61, 0x77, SLASH,
                          0x73, 0x65, 0x73, 0x73, 0x69, 0x6F, 0x6E, 0x73, SLASH]

  /** /scope and /data */
  const SCOPE: Bytes := [SLASH, 0x73, 0x63, 0x6F, 0x70, 0x65]
  const DATA: Bytes := [SLASH, 0x64, 0x61, 0x74, 0x61]

  /** The UTF-8 of the character '\xff', which is two bytes long. */
  const BOUND: Bytes := [0xC3, 0xBF]

  function ScopeKey(key: Bytes): Bytes {
    PREFIX + key + SCOPE
  }

  function DataKey(key: Bytes): Bytes {
    PREFIX + key + DATA
  }

  lemma EntriesDistinct(k: Bytes, q: Bytes)
    ensures DataKey(k) == DataKey(q) ==> k == q
    ensures ScopeKey(k) == ScopeKey(q) ==> k == q
    ensures ScopeKey(k) != DataKey(q)
  {
    var n := |PREFIX|;
    assert DataKey(k)[n..n + |k|] == k && DataKey(q)[n..n + |q|] == q;
    assert ScopeKey(k)[n..n + |k|] == k && ScopeKey(q)[n..n + |q|] == q;
    assert ScopeKey(k)[n + |k| + 5] == 0x65;
    assert DataKey(q)[n + |q| + 4] == 0x61;
  }

  // ----- the range scan -----

  /** Byte-wise order, which is the bee's. */
  predicate Less(a: Bytes, b: Bytes) {
    b != [] && (a == [] || a[0] < b[0] || (a[0] == b[0] && Less(a[1..], b[1..])))
  }

  predicate InRange(e: Bytes, gte: Bytes, lt: Bytes) {
    !Less(e, gte) && Less(e, lt)
  }

  /** createReadStream, as far as the scan needs it: the entries of the range, each at least once. */
  method ReadStream(bee: map<Bytes, Bytes>, gte: Bytes, lt: Bytes) returns (entries: seq<Bytes>)
    ensures forall e :: e in entries <==> e in bee && InRange(e, gte, lt)
  {
    entries := [];
    var todo := bee.Keys;
    while todo != {}
      invariant todo <= bee.Keys
      invariant forall e :: e in entries <==> e in bee && e !in todo && InRange(e, gte, lt)
    {
      var e :| e in todo;
      todo := todo - {e};
      if InRange(e, gte, lt) {
        entries := entries + [e];
      }
    }
  }

  /** The range holds exactly the entries under the prefix whose rest sorts below the bound. */
  lemma {:induction false} RangeIsPrefix(e: Bytes, prefix: Bytes, bound: Bytes)
    ensures InRange(e, prefix, prefix + bound) <==> prefix <= e && Less(e[|prefix|..], bound)
  {
    if prefix == [] {
      assert prefix + bound == bound;
      assert e[0..] == e;
    } else if e != [] && e[0] == prefix[0] {
      RangeIsPrefix(e[1..], prefix[1..], bound);
      assert (prefix + bound)[1..] == prefix[1..] + bound;
      if |prefix| <= |e| {
        assert e[|prefix|..] == e[1..][|prefix| - 1..];
      }
      assert prefix <= e <==> prefix[1..] <= e[1..] by {
        assert e == [e[0]] + e[1..] && prefix == [prefix[0]] + prefix[1..];
      }
    } else {
      assert (prefix + bound)[0] == prefix[0];
    }
  }

  /** What comes before the first slash. */
  function Cut(rest: Bytes): (key: Bytes)
    ensures SLASH !in key && key <= rest
  {
    if rest == [] || rest[0] == SLASH then [] else [rest[0]] + Cut(rest[1..])
  }

  lemma {:induction false} CutEntry(key: Bytes, suffix: Bytes)
    requires suffix != [] && suffix[0] == SLASH
    ensures Cut(key + suffix) == Cut(key)
  {
    if key == [] {
      assert key + suffix == suffix;
    } else {
      CutEntry(key[1..], suffix);
      assert (key + suffix)[1..] == key[1..] + suffix;
    }
  }

  lemma {:induction false} CutWhole(key: Bytes)
    ensures Cut(key) == key <==> SLASH !in key
  {
    if key != [] && key[0] != SLASH {
      CutWhole(key[1..]);
      assert key == [key[0]] + key[1..];
    }
  }

  lemma LessBound(a: Bytes)
    ensures Less(a, BOUND) <==> a == [] || a[0] < 0xC3 || (a[0] == 0xC3 && (|a| == 1 || a[1] < 0xBF))
  {
    if a != [] {
      assert BOUND[1..] == [0xBF];
      assert BOUND[1..][1..] == [];
      if |a| > 1 {
        assert a[1..][0] == a[1];
        assert !Less(a[1..][1..], []);
      }
    }
  }

  /** The slash that follows a key sorts below the bound, so an entry is in range exactly when its key is. */
  lemma LessEntry(key: Bytes, suffix: Bytes)
    requires suffix != [] && suffix[0] == SLASH
    ensures Less(key + suffix, BOUND) <==> Less(key, BOUND)
  {
    LessBound(key);
    LessBound(key + suffix);
  }

  lemma LessCut(key: Bytes)
    requires Less(key, BOUND)
    ensures Less(Cut(key), BOUND)
  {
    LessBound(key);
    LessBound(Cut(key));
  }

  /** Some entry of the bee makes the scan report k. */
  ghost predicate Listed(bee: map<Bytes, Bytes>, k: Bytes) {
    k != [] && exists e :: e in bee && Reports(e, k)
  }

  ghost predicate Reports(e: Bytes, k: Bytes) {
    PREFIX <= e && Less(e[|PREFIX|..], BOUND) && Cut(e[|PREFIX|..]) == k
  }

  /** _listStoreKeys, at the prefix its callers pass. */
  method ListStoreKeys(bee: map<Bytes, Bytes>) returns (keys: seq<Bytes>)
    ensures forall i, j | 0 <= i < j < |keys| :: keys[i] != keys[j]
    ensures forall k :: k in keys <==> Listed(bee, k)
  {
    var entries := ReadStream(bee, PREFIX, PREFIX + BOUND);
    keys := [];
    for i := 0 to |entries|
      invariant forall i, j | 0 <= i < j < |keys| :: keys[i] != keys[j]
      invariant forall k :: k in keys <==> k != [] && exists n | 0 <= n < i :: Reports(entries[n], k)
    {
      var e := entries[i];
      assert e in entries;
      RangeIsPrefix(e, PREFIX, BOUND);
      var sessionKey := Cut(e[|PREFIX|..]);
      assert Reports(e, sessionKey);
      if sessionKey != [] && sessionKey !in keys {
        keys := keys + [sessionKey];
      }
    }
    forall k ensures k in keys <==> Listed(bee, k) {
      if Listed(bee, k) {
        var e :| e in bee && Reports(e, k);
        RangeIsPrefix(e, PREFIX, BOUND);
        var n :| 0 <= n < |entries| && entries[n] == e;
      }
    }
  }

  // ----- which sessions the scan finds -----

  /** The keys the scan can report: its prefix-wise cut leaves them whole and its upper bound lets them in. */
  predicate Listable(key: Bytes) {
    key != [] && SLASH !in key && Less(key, BOUND)
  }

  /** The bee holds entries of the sessions in known and nothing else. */
  ghost predicate HoldsSessions(bee: map<Bytes, Bytes>, known: set<Bytes>) {
    && (forall e :: e in bee ==> exists q :: q in known && (e == ScopeKey(q) || e == DataKey(q)))
    && forall q | q in known :: ScopeKey(q) in bee || DataKey(q) in bee
  }

  lemma EntryReports(e: Bytes, q: Bytes, k: Bytes)
    requires e == ScopeKey(q) || e == DataKey(q)
    ensures Reports(e, k) <==> Less(q, BOUND) && Cut(q) == k
  {
    var suffix := if e == ScopeKey(q) then SCOPE else DATA;
    assert e == PREFIX + (q + suffix);
    assert e[|PREFIX|..] == q + suffix;
    LessEntry(q, suffix);
    CutEntry(q, suffix);
  }

  /** The scan reports the first path segment of every key below the bound, and nothing else. */
  lemma ListedIsCut(bee: map<Bytes, Bytes>, known: set<Bytes>, k: Bytes)
    requires HoldsSessions(bee, known)
    ensures Listed(bee, k) <==> k != [] && exists q :: q in known && Less(q, BOUND) && Cut(q) == k
  {
    if Listed(bee, k) {
      var e :| e in bee && Reports(e, k);
      var q :| q in known && (e == ScopeKey(q) || e == DataKey(q));
      EntryReports(e, q, k);
    }
    if k != [] && exists q :: q in known && Less(q, BOUND) && Cut(q) == k {
      var q :| q in known && Less(q, BOUND) && Cut(q) == k;
      var e := if ScopeKey(q) in bee then ScopeKey(q) else DataKey(q);
      EntryReports(e, q, k);
    }
  }

  /** The scan finds exactly the sessions in the bee if and only if each of their keys is non-empty, has no
      slash and sorts below the bound. */
  lemma ListsExactly(bee: map<Bytes, Bytes>, known: set<Bytes>)
    requires HoldsSessions(bee, known)
    ensures (forall k :: Listed(bee, k) <==> k in known) <==> forall q | q in known :: Listable(q)
  {
    forall k ensures Listed(bee, k) <==> k != [] && exists q :: q in known && Less(q, BOUND) && Cut(q) == k {
      ListedIsCut(bee, known, k);
    }
    forall q | q in known ensures Listed(bee, q) ==> Listable(q) {
      if Listed(bee, q) {
        var p :| p in known && Less(p, BOUND) && Cut(p) == q;
        LessCut(p);
      }
    }
    forall q ensures Cut(q) == q <==> SLASH !in q {
      CutWhole(q);
    }
  }

  /** A key with a slash in it is found under its first segment, which need not be a session at all. */
  lemma SlashIsCut(bee: map<Bytes, Bytes>, known: set<Bytes>, q: Bytes)
    requires HoldsSessions(bee, known) && q in known && SLASH in q && Less(q, BOUND)
    ensures !Listed(bee, q)
    ensures Cut(q) != [] ==> Listed(bee, Cut(q))
  {
    ListedIsCut(bee, known, q);
    ListedIsCut(bee, known, Cut(q));
  }

  /** Storing data for a key the scan already reports changes nothing about what it reports. */
  lemma ListingStable(bee: map<Bytes, Bytes>, k: Bytes, data: Bytes)
    requires Listed(bee, k)
    ensures forall q :: Listed(bee[DataKey(k) := data], q) <==> Listed(bee, q)
  {
    var e0 :| e0 in bee && Reports(e0, k);
    LessCut(e0[|PREFIX|..]);
    CutWhole(k);
    forall q ensures Listed(bee[DataKey(k) := data], q) <==> Listed(bee, q) {
      EntryReports(DataKey(k), k, q);
      if Listed(bee, q) {
        var e :| e in bee && Reports(e, q);
        assert e in bee[DataKey(k) := data];
      }
    }
  }
}
