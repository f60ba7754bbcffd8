/** Projection patches and ordered scans (src/projection.rs, src/store/projections.rs). */
module Projections {
  import opened Types
  import opened Messages
  import opened ByteOrder

  /** The entries of one projection. */
  type Contents = map<Bytes, Bytes>

  // ----- applying mutations -----

  function FromEntries(entries: seq<Entry>): Contents {
    if entries == [] then map[]
    else
      var last := entries[|entries| - 1];
      FromEntries(entries[..|entries| - 1])[last.key := last.value]
  }

  function ApplyMutation(m: Mutation, c: Contents): Contents {
    match m
    case Put(key, value) => c[key := value]
    case Delete(key) => c - {key}
    case Clear => map[]
    case Replace(entries) => FromEntries(entries)
  }

  function ApplyAll(ms: seq<Mutation>, c: Contents): Contents {
    if ms == [] then c else ApplyMutation(ms[|ms| - 1], ApplyAll(ms[..|ms| - 1], c))
  }

  // ----- validation -----

  predicate Keyed(m: Mutation) { m.Put? || m.Delete? }

  function KeysOf(entries: seq<Entry>): set<Bytes> { set i | 0 <= i < |entries| :: entries[i].key }

  predicate DistinctKeys(entries: seq<Entry>) {
    forall i, j :: 0 <= i < j < |entries| ==> entries[i].key != entries[j].key
  }

  /** One step of key tracking: None when the mutation contradicts what is tracked. */
  function Track(seen: set<Bytes>, m: Mutation): Option<set<Bytes>> {
    match m
    case Put(key, _) => if key in seen then None else Some(seen + {key})
    case Delete(key) => if key in seen then None else Some(seen + {key})
    case Clear => Some({})
    case Replace(entries) => if DistinctKeys(entries) then Some(KeysOf(entries)) else None
  }

  /** The keys tracked after these mutations, or None once one of them contradicts an earlier one. */
  function SeenAfter(ms: seq<Mutation>): Option<set<Bytes>> {
    if ms == [] then Some({})
    else
      var seen :- SeenAfter(ms[..|ms| - 1]);
      Track(seen, ms[|ms| - 1])
  }

  predicate Mentions(m: Mutation, key: Bytes) {
    match m
    case Put(k, _) => k == key
    case Delete(k) => k == key
    case Clear => false
    case Replace(entries) => key in KeysOf(entries)
  }

  /** Mutation i fixes `key` and nothing up to j (exclusive) starts a fresh baseline. */
  ghost predicate Fixes(ms: seq<Mutation>, i: nat, j: nat, key: Bytes) {
    i < j <= |ms| && Mentions(ms[i], key) && forall k :: i < k < j ==> Keyed(ms[k])
  }

  ghost predicate Fixed(ms: seq<Mutation>, j: nat, key: Bytes) {
    exists i: nat :: Fixes(ms, i, j, key)
  }

  /** A Put or Delete of a key already fixed since the last Clear or Replace, or a Replace that repeats a key. */
  ghost predicate Contradictory(ms: seq<Mutation>, j: nat) {
    j < |ms| &&
    if Keyed(ms[j]) then Fixed(ms, j, ms[j].key)
    else ms[j].Replace? && !DistinctKeys(ms[j].entries)
  }

  predicate VersionStep(p: Patch) {
    p.newVersion == (p.expectedVersion + 1) % TWO_TO_64 && p.newVersion != 0
  }

  ghost predicate Accepted(p: Patch) {
    VersionStep(p) && forall j: nat :: j < |p.mutations| ==> !Contradictory(p.mutations, j)
  }

  predicate ValidPatch(p: Patch) { VersionStep(p) && SeenAfter(p.mutations).Some? }

  lemma FixedInPrefix(ms: seq<Mutation>, n: nat, j: nat, key: Bytes)
    requires j <= n <= |ms|
    ensures Fixed(ms[..n], j, key) <==> Fixed(ms, j, key)
  {
    if i: nat :| Fixes(ms[..n], i, j, key) { assert Fixes(ms, i, j, key); }
    if i: nat :| Fixes(ms, i, j, key) { assert Fixes(ms[..n], i, j, key); }
  }

  lemma FixedStep(ms: seq<Mutation>, n: nat, next: nat, key: Bytes)
    requires n < |ms| && next == n + 1
    ensures Fixed(ms, next, key) <==> Mentions(ms[n], key) || (Keyed(ms[n]) && Fixed(ms, n, key))
  {
    if Mentions(ms[n], key) { assert Fixes(ms, n, next, key); }
    if Keyed(ms[n]) {
      if i: nat :| Fixes(ms, i, n, key) {
        assert forall k :: i < k < next ==> Keyed(ms[k]);
        assert Fixes(ms, i, next, key);
      }
    }
    if i: nat :| i < n && Fixes(ms, i, next, key) {
      assert i < n < next;
      assert Fixes(ms, i, n, key);
    }
  }

  /** The tracked set is exactly what is fixed so far, and tracking stops at the first contradiction. */
  lemma {:induction false} SeenMeans(ms: seq<Mutation>)
    ensures SeenAfter(ms).Some? <==> forall j: nat :: j < |ms| ==> !Contradictory(ms, j)
    ensures SeenAfter(ms).Some? ==> forall key :: key in SeenAfter(ms).value <==> Fixed(ms, |ms|, key)
  {
    if ms == [] {
      assert forall key :: !Fixed(ms, 0, key);
    } else {
      var n := |ms| - 1;
      var init := ms[..n];
      SeenMeans(init);
      forall j: nat | j < n ensures Contradictory(init, j) <==> Contradictory(ms, j) {
        if Keyed(ms[j]) { FixedInPrefix(ms, n, j, ms[j].key); }
      }
      forall key
        ensures Fixed(init, n, key) <==> Fixed(ms, n, key)
        ensures Fixed(ms, |ms|, key) <==> Mentions(ms[n], key) || (Keyed(ms[n]) && Fixed(ms, n, key))
      {
        FixedInPrefix(ms, n, n, key);
        FixedStep(ms, n, |ms|, key);
      }
      SeenLast(ms, n);
    }
  }

  lemma SeenLast(ms: seq<Mutation>, n: nat)
    requires |ms| == n + 1
    requires SeenAfter(ms[..n]).Some? ==> forall key :: key in SeenAfter(ms[..n]).value <==> Fixed(ms, n, key)
    requires forall key :: Fixed(ms, |ms|, key) <==> Mentions(ms[n], key) || (Keyed(ms[n]) && Fixed(ms, n, key))
    ensures SeenAfter(ms).Some? <==> SeenAfter(ms[..n]).Some? && !Contradictory(ms, n)
    ensures SeenAfter(ms).Some? ==> forall key :: key in SeenAfter(ms).value <==> Fixed(ms, |ms|, key)
  {
    hide Fixed;
  }

  /** `validate` (one pass with a mutable set) accepts exactly the patches without a contradiction. */
  method ValidatePatch(p: Patch) returns (ok: bool)
    ensures ok == ValidPatch(p)
    ensures ok <==> Accepted(p)
  {
    hide Contradictory, DistinctKeys, KeysOf, SeenAfter;
    SeenMeans(p.mutations);
    if p.newVersion != (p.expectedVersion + 1) % TWO_TO_64 || p.newVersion == 0 {
      return false;
    }
    var seen: set<Bytes> := {};
    ghost var ms := p.mutations;
    SeenNone(ms);
    for n := 0 to |p.mutations|
      invariant SeenAfter(ms[..n]) == Some(seen)
    {
      var m := p.mutations[n];
      SeenNext(ms, n);
      match m {
        case Put(key, _) =>
          if key in seen { RejectedPrefix(ms, n + 1); return false; }
          seen := seen + {key};
        case Delete(key) =>
          if key in seen { RejectedPrefix(ms, n + 1); return false; }
          seen := seen + {key};
        case Clear =>
          seen := {};
        case Replace(entries) =>
          var distinct, keys := ReplacedKeys(entries);
          if !distinct { RejectedPrefix(ms, n + 1); return false; }
          seen := keys;
      }
    }
    assert ms[..|ms|] == ms;
    return true;
  }

  // ----- the rule as documented -----

  /** The position of the last Clear or Replace, 0 when there is none. */
  function LastBoundary(ms: seq<Mutation>): (b: nat)
    ensures b == 0 || (b < |ms| && !Keyed(ms[b]))
    ensures forall j :: b < j < |ms| ==> Keyed(ms[j])
  {
    if ms == [] then 0 else if Keyed(ms[|ms| - 1]) then LastBoundary(ms[..|ms| - 1]) else |ms| - 1
  }

  /** The rule in the documentation of patch validation: nothing contradictory from the last Clear or Replace on. */
  ghost predicate DocumentedRule(p: Patch) {
    VersionStep(p) && forall j: nat :: LastBoundary(p.mutations) <= j < |p.mutations| ==> !Contradictory(p.mutations, j)
  }

  /** The code also rejects contradictions that a later Clear or Replace makes immaterial: a patch that meets the
      documented rule is accepted exactly when nothing before the last boundary is contradictory. */
  lemma DocumentedRuleAcceptedIff(p: Patch)
    requires DocumentedRule(p)
    ensures ValidPatch(p) <==> forall j: nat :: j < LastBoundary(p.mutations) ==> !Contradictory(p.mutations, j)
  {
    hide Contradictory, SeenAfter, LastBoundary;
    SeenMeans(p.mutations);
  }

  /** A key put twice and then cleared away: within the documented rule, rejected. */
  lemma ClearedDuplicateRejected(name: Text, k: Bytes, v: Bytes)
    ensures var p := Patch(name, 0, 1, [Put(k, v), Put(k, v), Clear]); DocumentedRule(p) && !ValidPatch(p)
  {
    var ms := [Put(k, v), Put(k, v), Clear];
    SeenMeans(ms);
    assert Fixes(ms, 0, 1, k);
    assert Contradictory(ms, 1);
  }

  lemma SeenNone(ms: seq<Mutation>)
    ensures SeenAfter(ms[..0]) == Some({})
  {}

  lemma SeenNext(ms: seq<Mutation>, n: nat)
    requires n < |ms| && SeenAfter(ms[..n]).Some?
    ensures SeenAfter(ms[..n + 1]) == Track(SeenAfter(ms[..n]).value, ms[n])
  {
    assert ms[..n + 1][..n] == ms[..n];
  }

  method ReplacedKeys(entries: seq<Entry>) returns (distinct: bool, keys: set<Bytes>)
    ensures distinct == DistinctKeys(entries)
    ensures distinct ==> keys == KeysOf(entries)
  {
    keys := {};
    for i := 0 to |entries|
      invariant keys == KeysOf(entries[..i]) && DistinctKeys(entries[..i])
    {
      assert entries[..i + 1] == entries[..i] + [entries[i]];
      if entries[i].key in keys {
        return false, {};
      }
      keys := keys + {entries[i].key};
    }
    assert entries[..|entries|] == entries;
    return true, keys;
  }

  lemma {:induction false} RejectedPrefix(ms: seq<Mutation>, n: nat)
    requires n <= |ms| && SeenAfter(ms[..n]).None?
    ensures SeenAfter(ms).None?
    decreases |ms|
  {
    if n == |ms| {
      assert ms[..n] == ms;
    } else {
      assert ms[..|ms| - 1][..n] == ms[..n];
      RejectedPrefix(ms[..|ms| - 1], n);
    }
  }

  // ----- normal form -----

  /** The contents right after the last Clear or Replace, or the old contents when there is none. */
  function Baseline(ms: seq<Mutation>, c: Contents): Contents {
    if ms == [] then c
    else match ms[|ms| - 1]
         case Clear => map[]
         case Replace(entries) => FromEntries(entries)
         case _ => Baseline(ms[..|ms| - 1], c)
  }

  /** The Puts and Deletes that follow it. */
  function Overrides(ms: seq<Mutation>): (r: seq<Mutation>)
    ensures forall m :: m in r ==> Keyed(m)
  {
    if ms == [] || !Keyed(ms[|ms| - 1]) then []
    else Overrides(ms[..|ms| - 1]) + [ms[|ms| - 1]]
  }

  /** No two of these mutations concern the same key. Stated on the bag, so it does not depend on their order. */
  ghost predicate OncePerKey(ms: seq<Mutation>) {
    && (forall m :: m in ms ==> Keyed(m))
    && (forall m, n :: m in ms && n in ms && m.key == n.key ==> m == n)
    && (forall m :: m in ms ==> multiset(ms)[m] == 1)
  }

  lemma {:induction false} SplitAtBaseline(ms: seq<Mutation>, c: Contents)
    ensures ApplyAll(ms, c) == ApplyAll(Overrides(ms), Baseline(ms, c))
  {
    if ms != [] {
      var last := ms[|ms| - 1];
      if Keyed(last) {
        SplitAtBaseline(ms[..|ms| - 1], c);
        assert Overrides(ms)[..|Overrides(ms)| - 1] == Overrides(ms[..|ms| - 1]);
      }
    }
  }

  lemma {:induction false} OverridesTracked(ms: seq<Mutation>)
    requires SeenAfter(ms).Some?
    ensures forall m :: m in Overrides(ms) ==> m.key in SeenAfter(ms).value
    ensures OncePerKey(Overrides(ms))
  {
    if ms != [] && Keyed(ms[|ms| - 1]) {
      var init, last := ms[..|ms| - 1], ms[|ms| - 1];
      OverridesTracked(init);
      var r := Overrides(init);
      assert last !in r;
      assert multiset(r + [last]) == multiset(r) + multiset{last};
      assert multiset(r)[last] == 0;
    }
  }

  /** What a bag of once-per-key overrides does to a baseline, key by key. */
  lemma {:induction false} OverridePointwise(ms: seq<Mutation>, c: Contents, key: Bytes)
    requires OncePerKey(ms)
    ensures key in ApplyAll(ms, c) <==> (exists v :: Put(key, v) in ms) || (key in c && Delete(key) !in ms)
    ensures forall v :: Put(key, v) in ms ==> key in ApplyAll(ms, c) && ApplyAll(ms, c)[key] == v
    ensures key in c && Delete(key) !in ms && (forall v :: Put(key, v) !in ms) ==>
              key in ApplyAll(ms, c) && ApplyAll(ms, c)[key] == c[key]
  {
    if ms != [] {
      var init, last := ms[..|ms| - 1], ms[|ms| - 1];
      assert ms == init + [last];
      assert multiset(ms) == multiset(init) + multiset{last};
      assert forall m :: m in ms <==> m in init || m == last;
      assert last !in init by { assert multiset(ms)[last] == 1; }
      OverridePointwise(init, c, key);
      if last.key == key {
        assert forall v :: Put(key, v) !in init;
        assert Delete(key) !in init;
      }
    }
  }

  /** A validated patch is its last baseline overridden by the later Puts and Deletes, taken in any order. */
  lemma PatchNormalForm(p: Patch, c: Contents, order: seq<Mutation>)
    requires ValidPatch(p)
    requires multiset(order) == multiset(Overrides(p.mutations))
    ensures ApplyAll(p.mutations, c) == ApplyAll(order, Baseline(p.mutations, c))
  {
    hide Overrides, Baseline, SeenAfter;
    var ms := Overrides(p.mutations);
    SplitAtBaseline(p.mutations, c);
    OverridesTracked(p.mutations);
    OverridesCommute(ms, order, Baseline(p.mutations, c));
  }

  lemma OverridesCommute(ms: seq<Mutation>, order: seq<Mutation>, base: Contents)
    requires OncePerKey(ms) && multiset(order) == multiset(ms)
    ensures ApplyAll(ms, base) == ApplyAll(order, base)
  {
    hide ApplyAll;
    forall m ensures m in order <==> m in ms {
      assert m in multiset(order) <==> m in multiset(ms);
    }
    assert OncePerKey(order);
    hide OncePerKey;
    var a, b := ApplyAll(ms, base), ApplyAll(order, base);
    forall key
      ensures key in a <==> key in b
      ensures key in a ==> a[key] == b[key]
    {
      OverridePointwise(ms, base, key);
      OverridePointwise(order, base, key);
    }
  }

  lemma {:induction false} FromEntriesKeys(entries: seq<Entry>)
    ensures FromEntries(entries).Keys == KeysOf(entries)
  {
    if entries != [] {
      var n := |entries| - 1;
      FromEntriesKeys(entries[..n]);
      assert KeysOf(entries) == KeysOf(entries[..n]) + {entries[n].key} by {
        assert forall i :: 0 <= i < n ==> entries[..n][i] == entries[i];
      }
    }
  }

  // ----- the contents, key by key -----

  /** This mutation has a say about the key. */
  predicate Touches(m: Mutation, key: Bytes) { m.Clear? || m.Replace? || m.key == key }

  /** What it leaves under the key: a Put its value, a Replace the value of its last entry with the key, nothing otherwise. */
  ghost predicate LeavesAt(m: Mutation, d: Contents, key: Bytes) {
    match m
    case Put(_, value) => key in d && d[key] == value
    case Replace(entries) =>
      && (key in d <==> exists i :: 0 <= i < |entries| && entries[i].key == key)
      && forall i :: 0 <= i < |entries| && entries[i].key == key && (forall j :: i < j < |entries| ==> entries[j].key != key) ==>
           key in d && d[key] == entries[i].value
    case _ => key !in d
  }

  lemma {:induction false} FromEntriesLeaves(entries: seq<Entry>, key: Bytes)
    ensures LeavesAt(Replace(entries), FromEntries(entries), key)
  {
    if entries != [] {
      var last := |entries| - 1;
      var init := entries[..last];
      FromEntriesLeaves(init, key);
      assert forall i :: 0 <= i < last ==> init[i] == entries[i];
      assert entries[last].key == key || forall i :: 0 <= i < |entries| && entries[i].key == key ==> i < last;
    }
  }

  /** The last mutation that touches a key decides what is stored under it; if none does, it keeps what it had. */
  lemma {:induction false} LastTouchDecides(ms: seq<Mutation>, c: Contents, key: Bytes, j: nat)
    requires j < |ms| && Touches(ms[j], key) && forall n :: j < n < |ms| ==> !Touches(ms[n], key)
    ensures LeavesAt(ms[j], ApplyAll(ms, c), key)
  {
    hide LeavesAt;
    var last := |ms| - 1;
    if j < last {
      LastTouchDecides(ms[..last], c, key, j);
      OtherKeyKept(ms[last], ApplyAll(ms[..last], c), key, ms[j]);
    } else {
      TouchLeaves(ms[last], ApplyAll(ms[..last], c), key);
    }
  }

  lemma TouchLeaves(m: Mutation, c: Contents, key: Bytes)
    requires Touches(m, key)
    ensures LeavesAt(m, ApplyMutation(m, c), key)
  {
    if m.Replace? { FromEntriesLeaves(m.entries, key); }
  }

  lemma OtherKeyKept(m: Mutation, c: Contents, key: Bytes, earlier: Mutation)
    requires !Touches(m, key) && LeavesAt(earlier, c, key)
    ensures LeavesAt(earlier, ApplyMutation(m, c), key)
  {}

  lemma {:induction false} UntouchedKept(ms: seq<Mutation>, c: Contents, key: Bytes)
    requires forall n :: 0 <= n < |ms| ==> !Touches(ms[n], key)
    ensures key in ApplyAll(ms, c) <==> key in c
    ensures key in c ==> ApplyAll(ms, c)[key] == c[key]
  {
    if ms != [] { UntouchedKept(ms[..|ms| - 1], c, key); }
  }


  // ----- prefix bounds -----

  /** The least byte string above every key that starts with the prefix, if there is one. */
  function UpperBound(prefix: Bytes): Option<Bytes> {
    if prefix == [] then None
    else match UpperBound(prefix[1..])
         case Some(bound) => Some([prefix[0]] + bound)
         case None => if prefix[0] == 255 then None else Some([prefix[0] + 1])
  }

  predicate WithinBounds(k: Bytes, start: Option<Bytes>, end: Option<Bytes>) {
    && (start.Some? ==> AtMost(start.value, k))
    && (end.Some? ==> Less(k, end.value))
  }

  /** The half-open range compiled for a prefix holds exactly the keys that start with it. */
  lemma {:induction false} PrefixRange(prefix: Bytes, k: Bytes)
    ensures WithinBounds(k, Some(prefix), UpperBound(prefix)) <==> prefix <= k
  {
    if prefix != [] && k != [] {
      PrefixRange(prefix[1..], k[1..]);
      assert prefix == [prefix[0]] + prefix[1..] && k == [k[0]] + k[1..];
      assert AtMost(prefix, k) <==> prefix[0] < k[0] || (prefix[0] == k[0] && AtMost(prefix[1..], k[1..]));
      assert prefix <= k <==> prefix[0] == k[0] && prefix[1..] <= k[1..];
      match UpperBound(prefix[1..]) {
        case Some(tail) =>
          var bound := [prefix[0]] + tail;
          assert bound[1..] == tail;
          assert Less(k, bound) <==> k[0] < prefix[0] || (k[0] == prefix[0] && Less(k[1..], tail));
        case None =>
          if prefix[0] < 255 {
            var bound: Bytes := [prefix[0] + 1];
            assert bound[1..] == [];
            assert Less(k, bound) <==> k[0] <= prefix[0];
          }
      }
    }
  }

  lemma {:induction false} UpperBoundLast(init: Bytes, last: Byte)
    ensures UpperBound(init + [last]) == if last == 255 then UpperBound(init) else Some(init + [last + 1])
  {
    var all := init + [last];
    if init == [] {
      assert all[1..] == [] && all[0] == last;
      assert last < 255 ==> init + [last + 1] == [last + 1];
    } else {
      UpperBoundLast(init[1..], last);
      assert all[0] == init[0] && all[1..] == init[1..] + [last];
      assert init == [init[0]] + init[1..];
      assert last < 255 ==> [init[0]] + (init[1..] + [last + 1]) == init + [last + 1];
    }
  }

  /** The loop that drops trailing 0xFF bytes and increments the last one left. */
  method PrefixUpperBound(prefix: seq<Byte>) returns (r: Option<seq<Byte>>)
    ensures r == UpperBound(prefix)
    ensures forall k: Bytes :: WithinBounds(k, Some(prefix), r) <==> prefix <= k
  {
    forall k: Bytes ensures WithinBounds(k, Some(prefix), UpperBound(prefix)) <==> prefix <= k {
      PrefixRange(prefix, k);
    }
    var bound := prefix;
    while bound != []
      invariant UpperBound(bound) == UpperBound(prefix)
      decreases |bound|
    {
      var last := bound[|bound| - 1];
      UpperBoundLast(bound[..|bound| - 1], last);
      assert bound == bound[..|bound| - 1] + [last];
      if last == 255 {
        bound := bound[..|bound| - 1];
      } else {
        bound := bound[..|bound| - 1] + [last + 1];
        return Some(bound);
      }
    }
    return None;
  }

  // ----- ordered scans and their pages -----

  function Matching(c: Contents, start: Option<Bytes>, end: Option<Bytes>, after: Option<Bytes>): set<Bytes> {
    set k | k in c && WithinBounds(k, start, end) && (after.Some? ==> Less(after.value, k))
  }

  /** The whole scan, in key order. */
  function FullScan(c: Contents, start: Option<Bytes>, end: Option<Bytes>, after: Option<Bytes>): seq<Bytes> {
    InOrder(Matching(c, start, end, after))
  }

  function Page(c: Contents, start: Option<Bytes>, end: Option<Bytes>, after: Option<Bytes>, limit: nat): seq<Bytes> {
    var all := FullScan(c, start, end, after);
    if |all| <= limit then all else all[..limit]
  }

  function EntriesAt(c: Contents, keys: seq<Bytes>): seq<Entry>
    requires forall k :: k in keys ==> k in c
  {
    seq(|keys|, i requires 0 <= i < |keys| => assert keys[i] in keys; Entry(keys[i], c[keys[i]]))
  }

  lemma PageKeys(c: Contents, start: Option<Bytes>, end: Option<Bytes>, after: Option<Bytes>, limit: nat)
    ensures forall k :: k in Page(c, start, end, after, limit) ==> k in Matching(c, start, end, after) && k in c
  {
    hide InOrder, WithinBounds;
    var all := FullScan(c, start, end, after);
    forall k | k in Page(c, start, end, after, limit) ensures k in Matching(c, start, end, after) && k in c {
      assert k in all;
    }
  }

  /** The rows of a page: keys in the half-open range and past the cursor, ascending, and all of them when the page is short. */
  ghost predicate PageOf(c: Contents, start: Option<Bytes>, end: Option<Bytes>, after: Option<Bytes>, limit: nat, rows: seq<Bytes>) {
    && |rows| <= limit && Ascending(rows)
    && (forall k :: k in rows ==> InRange(c, start, end, after, k))
    && (forall k :: InRange(c, start, end, after, k) && k !in rows ==> |rows| == limit && forall x :: x in rows ==> Less(x, k))
  }

  predicate InRange(c: Contents, start: Option<Bytes>, end: Option<Bytes>, after: Option<Bytes>, k: Bytes) {
    && k in c && (start.Some? ==> !Less(k, start.value)) && (end.Some? ==> Less(k, end.value))
    && (after.Some? ==> Less(after.value, k))
  }

  lemma PageMeans(c: Contents, start: Option<Bytes>, end: Option<Bytes>, after: Option<Bytes>, limit: nat)
    ensures PageOf(c, start, end, after, limit, Page(c, start, end, after, limit))
  {
    hide InOrder;
    var all, rows := FullScan(c, start, end, after), Page(c, start, end, after, limit);
    forall k ensures k in all <==> InRange(c, start, end, after, k) {
      if start.Some? { Order3(k, start.value, k); }
    }
    hide InRange, Matching;
    PageKeys(c, start, end, after, limit);
    forall k | k in rows ensures k in all {
      var i :| 0 <= i < |rows| && rows[i] == k;
      assert all[i] == k;
    }
    forall i | 0 <= i < |rows| ensures all[i] in rows { assert rows[i] in rows; }
    forall k | k in all && k !in rows ensures |rows| == limit && forall x :: x in rows ==> Less(x, k) {
      var j :| 0 <= j < |all| && all[j] == k;
      assert j >= |rows|;
      forall x | x in rows ensures Less(x, k) {
        var i :| 0 <= i < |rows| && rows[i] == x;
        assert all[i] == x;
      }
    }
  }

  /** One scan query: filter, order, limit. */
  method Scan(c: Contents, start: Option<Bytes>, end: Option<Bytes>, after: Option<Bytes>, limit: nat)
    returns (entries: seq<Entry>)
    ensures forall k :: k in Page(c, start, end, after, limit) ==> k in c
    ensures entries == EntriesAt(c, Page(c, start, end, after, limit))
    ensures PageOf(c, start, end, after, limit, Page(c, start, end, after, limit))
  {
    hide Page, PageOf;
    PageMeans(c, start, end, after, limit);
    var rows := Page(c, start, end, after, limit);
    PageKeys(c, start, end, after, limit);
    entries := [];
    for i := 0 to |rows|
      invariant entries == EntriesAt(c, rows)[..i]
    {
      assert rows[i] in rows;
      assert EntriesAt(c, rows)[i] == Entry(rows[i], c[rows[i]]);
      entries := entries + [Entry(rows[i], c[rows[i]])];
    }
    assert EntriesAt(c, rows)[..|rows|] == EntriesAt(c, rows);
  }

  /** One page of a prefix scan: the page of the range the prefix bounds. Its rows start with the prefix and come after
      the cursor, in order and each once; a short page holds all of them. */
  method ScanPrefixPage(c: Contents, prefix: seq<Byte>, after: Option<Bytes>, limit: nat) returns (entries: seq<Entry>)
    ensures forall k :: k in Page(c, Some(prefix), UpperBound(prefix), after, limit) ==> k in c
    ensures entries == EntriesAt(c, Page(c, Some(prefix), UpperBound(prefix), after, limit))
    ensures forall i :: 0 <= i < |entries| ==>
              && prefix <= entries[i].key && entries[i].key in c && entries[i].value == c[entries[i].key]
              && (after.Some? ==> Less(after.value, entries[i].key))
    ensures forall i, j :: 0 <= i < j < |entries| ==> Less(entries[i].key, entries[j].key)
    ensures |entries| < limit ==>
              (forall k :: k in c && prefix <= k && (after.Some? ==> Less(after.value, k)) ==> Entry(k, c[k]) in entries)
  {
    hide Page, InOrder, WithinBounds;
    var end := PrefixUpperBound(prefix);
    entries := Scan(c, Some(prefix), end, after, limit);
    PrefixPageRows(c, prefix, after, limit);
    PageKeys(c, Some(prefix), end, after, limit);
    ghost var rows := Page(c, Some(prefix), end, after, limit);
    assert forall i :: 0 <= i < |entries| ==> rows[i] in rows && entries[i] == Entry(rows[i], c[rows[i]]);
    if |entries| < limit {
      forall k | k in c && prefix <= k && (after.Some? ==> Less(after.value, k)) ensures Entry(k, c[k]) in entries {
        var i :| 0 <= i < |rows| && rows[i] == k;
        assert entries[i] == Entry(k, c[k]);
      }
    }
  }

  lemma PrefixPageRows(c: Contents, prefix: Bytes, after: Option<Bytes>, limit: nat)
    ensures var rows := Page(c, Some(prefix), UpperBound(prefix), after, limit);
            && Ascending(rows)
            && (forall k :: k in rows ==> k in c && prefix <= k && (after.Some? ==> Less(after.value, k)))
            && (|rows| < limit ==> forall k :: k in c && prefix <= k && (after.Some? ==> Less(after.value, k)) ==> k in rows)
  {
    hide InOrder, WithinBounds;
    PageKeys(c, Some(prefix), UpperBound(prefix), after, limit);
    forall k ensures k in Matching(c, Some(prefix), UpperBound(prefix), after)
                     <==> k in c && prefix <= k && (after.Some? ==> Less(after.value, k))
    {
      PrefixRange(prefix, k);
    }
  }

  /** Resuming after the last key of a page leaves exactly the rest of the scan. */
  lemma ResumeAfterPage(c: Contents, start: Option<Bytes>, end: Option<Bytes>, after: Option<Bytes>, n: nat)
    requires 0 < n <= |FullScan(c, start, end, after)|
    ensures var all := FullScan(c, start, end, after);
            FullScan(c, start, end, Some(all[n - 1])) == all[n..]
  {
    hide InOrder;
    var all := FullScan(c, start, end, after);
    var last := all[n - 1];
    var rest := FullScan(c, start, end, Some(last));
    assert last in all;
    forall k ensures k in all[n..] <==> k in rest {
      if k in all[n..] {
        var i :| n <= i < |all| && all[i] == k;
        assert k in all && Less(all[n - 1], all[i]);
      }
      if k in rest {
        assert k in c && WithinBounds(k, start, end) && Less(last, k);
        if after.Some? { Triple(after.value, last, k); }
        assert k in all;
        var i :| 0 <= i < |all| && all[i] == k;
        if i < n {
          if i < n - 1 { LessAsymmetric(all[i], all[n - 1]); } else { LessIrreflexive(k); }
        }
      }
    }
    AscendingUnique(all[n..], rest);
  }

  /** Every page in turn, each resumed after the last key of the one before, until one comes back empty. */
  function Paginate(c: Contents, start: Option<Bytes>, end: Option<Bytes>, after: Option<Bytes>, limit: nat): seq<Bytes>
    requires limit >= 1
    decreases |FullScan(c, start, end, after)|
  {
    var page := Page(c, start, end, after, limit);
    if page == [] then []
    else
      ResumeAfterPage(c, start, end, after, |page|);
      page + Paginate(c, start, end, Some(page[|page| - 1]), limit)
  }

  /** Pagination with any limit yields the full scan: nothing skipped, nothing repeated, same order. */
  lemma {:induction false} PagesConcatenate(c: Contents, start: Option<Bytes>, end: Option<Bytes>, after: Option<Bytes>, limit: nat)
    requires limit >= 1
    ensures Paginate(c, start, end, after, limit) == FullScan(c, start, end, after)
    decreases |FullScan(c, start, end, after)|
  {
    hide InOrder, FullScan;
    var all := FullScan(c, start, end, after);
    var page := Page(c, start, end, after, limit);
    if page != [] {
      ResumeAfterPage(c, start, end, after, |page|);
      PagesConcatenate(c, start, end, Some(page[|page| - 1]), limit);
      assert all == all[..|page|] + all[|page|..];
    }
  }

  /** Paging through a prefix visits exactly the keys that start with it, in order. */
  lemma PrefixPagesComplete(c: Contents, prefix: Bytes, limit: nat)
    requires limit >= 1
    ensures Ascending(Paginate(c, Some(prefix), UpperBound(prefix), None, limit))
    ensures forall k :: k in Paginate(c, Some(prefix), UpperBound(prefix), None, limit) <==> k in c && prefix <= k
  {
    PagesConcatenate(c, Some(prefix), UpperBound(prefix), None, limit);
    forall k ensures k in Matching(c, Some(prefix), UpperBound(prefix), None) <==> k in c && prefix <= k {
      PrefixRange(prefix, k);
    }
  }
}
