/** Round-robin lease planning over the active partitions of a queue (src/store/jobs.rs). */
module Scheduler {
  import opened Types
  import opened Messages
  import opened ByteOrder
  import opened Jobs
  import opened JobInvariant

  // ----- the head of a partition -----

  function LiveAt(jobs: map<Id, Job>, place: Place): set<Id> {
    set id | id in jobs && Live(jobs[id]) && PlaceOf(jobs[id]) == place
  }

  predicate IsFirst(jobs: map<Id, Job>, s: set<Id>, h: Id)
    requires s <= jobs.Keys
  {
    h in s && forall x :: x in s ==>
      x == h || jobs[h].sequence < jobs[x].sequence || (jobs[h].sequence == jobs[x].sequence && h < x)
  }

  lemma FirstExists(jobs: map<Id, Job>, s: set<Id>)
    requires s <= jobs.Keys && s != {}
    ensures exists h :: IsFirst(jobs, s, h)
  {
    var x :| x in s;
    var rest := s - {x};
    assert forall y :: y in s ==> y == x || y in rest;
    if rest == {} {
      assert IsFirst(jobs, s, x);
    } else {
      FirstExists(jobs, rest);
      var h :| IsFirst(jobs, rest, h);
      var xFirst := jobs[x].sequence < jobs[h].sequence || (jobs[x].sequence == jobs[h].sequence && x < h);
      assert IsFirst(jobs, s, if xFirst then x else h);
    }
  }

  /** SELECT .. WHERE state is nonterminal ORDER BY enqueue_sequence LIMIT 1 */
  function Head(jobs: map<Id, Job>, place: Place): (r: Option<Id>)
    ensures r.None? <==> LiveAt(jobs, place) == {}
    ensures r.Some? ==> IsFirst(jobs, LiveAt(jobs, place), r.value)
  {
    var s := LiveAt(jobs, place);
    if s == {} then None
    else
      FirstExists(jobs, s);
      var h :| IsFirst(jobs, s, h);
      Some(h)
  }

  predicate Ready(j: Job, now: I64) {
    match j.state
    case Pending => j.spec.notBefore <= now
    case RetryWait => j.spec.notBefore <= now && (if j.retryAfter.Some? then j.retryAfter.value else -TWO_TO_63) <= now
    case _ => false
  }

  predicate ReadyHead(t: JobTables, queue: Text, now: I64, key: Text) {
    var h := Head(t.jobs, Place(queue, key));
    h.Some? && Ready(t.jobs[h.value], now)
  }

  /** A leased job is the head of its partition, and so is anything else past its first lease. */
  lemma TouchedIsHead(t: JobTables, id: Id)
    requires JobsInv(t) && id in t.jobs && Live(t.jobs[id]) && !Untouched(t.jobs[id])
    ensures Head(t.jobs, PlaceOf(t.jobs[id])) == Some(id)
  {
    hide ReceiptsOk;
    var place := PlaceOf(t.jobs[id]);
    assert id in LiveAt(t.jobs, place);
  }

  // ----- the rotation -----

  function ActiveKeys(t: JobTables, queue: Text): set<Text> {
    set p | p in t.active && p.queue == queue :: p.key
  }

  function CursorOf(t: JobTables, queue: Text): Option<Text> {
    if queue in t.cursors then Some(t.cursors[queue]) else None
  }

  /** How many leading keys are at most the cursor. */
  function PartitionPoint(keys: seq<Text>, cursor: Text): (n: nat)
    ensures n <= |keys|
    ensures forall i :: 0 <= i < n ==> AtMost(keys[i], cursor)
    ensures n < |keys| ==> !AtMost(keys[n], cursor)
  {
    if keys == [] || !AtMost(keys[0], cursor) then 0 else 1 + PartitionPoint(keys[1..], cursor)
  }

  function Rotation(keys: seq<Text>, cursor: Option<Text>): seq<Text> {
    var start := if cursor.Some? then PartitionPoint(keys, cursor.value) else 0;
    keys[start..] + keys[..start]
  }

  function FilterReady(t: JobTables, queue: Text, now: I64, keys: seq<Text>): seq<Text> {
    if keys == [] then []
    else if ReadyHead(t, queue, now, keys[0]) then [keys[0]] + FilterReady(t, queue, now, keys[1..])
    else FilterReady(t, queue, now, keys[1..])
  }

  function FirstOf(s: seq<Text>, n: nat): seq<Text> { if |s| <= n then s else s[..n] }

  /** The partitions a claim leases from, in lease order, when it rotates over the given keys. */
  function PlannedOver(t: JobTables, req: ClaimRequest, keys: set<Text>): seq<Text> {
    FirstOf(FilterReady(t, req.queue, req.now, Rotation(InOrder(keys), CursorOf(t, req.queue))), req.limit)
  }

  function PlannedKeys(t: JobTables, req: ClaimRequest): seq<Text> {
    PlannedOver(t, req, ActiveKeys(t, req.queue))
  }

  // ----- the cyclic order that starts just after a key -----

  /** Going round from just after `p` (from the least key when there is none), x comes before y. */
  predicate Cyclic(p: Option<Text>, x: Text, y: Text) {
    if p.None? || (Less(p.value, x) <==> Less(p.value, y)) then Less(x, y) else Less(p.value, x)
  }

  ghost predicate CyclicAscending(p: Option<Text>, s: seq<Text>) {
    forall i, j :: 0 <= i < j < |s| ==> Cyclic(p, s[i], s[j])
  }

  lemma CyclicStrict(p: Option<Text>, x: Text, y: Text)
    requires Cyclic(p, x, y)
    ensures x != y && !Cyclic(p, y, x)
  {
    Order3(x, y, if p.Some? then p.value else x);
  }

  lemma {:induction false} CyclicUnique(p: Option<Text>, a: seq<Text>, b: seq<Text>)
    requires CyclicAscending(p, a) && CyclicAscending(p, b)
    requires forall k :: k in a <==> k in b
    ensures a == b
  {
    hide Cyclic;
    assert a == [] || a[0] in a;
    assert b == [] || b[0] in b;
    if a != [] && b != [] {
      if a[0] != b[0] {
        assert a[0] in b && b[0] in a;
        CyclicStrict(p, a[0], b[0]);
      }
      forall k ensures k in a[1..] <==> k in b[1..] {
        if k in a[1..] {
          var i :| 0 <= i < |a[1..]| && a[1..][i] == k;
          assert a[i + 1] == k && Cyclic(p, a[0], k);
          CyclicStrict(p, a[0], k);
          assert k in a && k in b;
        }
        if k in b[1..] {
          var i :| 0 <= i < |b[1..]| && b[1..][i] == k;
          assert b[i + 1] == k && Cyclic(p, b[0], k);
          CyclicStrict(p, b[0], k);
          assert k in b && k in a;
        }
      }
      CyclicUnique(p, a[1..], b[1..]);
      assert a == [a[0]] + a[1..] && b == [b[0]] + b[1..];
    }
  }

  lemma RotationCyclic(keys: seq<Text>, cursor: Option<Text>)
    requires Ascending(keys)
    ensures CyclicAscending(cursor, Rotation(keys, cursor))
    ensures forall k :: k in Rotation(keys, cursor) <==> k in keys
  {
    var start := if cursor.Some? then PartitionPoint(keys, cursor.value) else 0;
    var r := Rotation(keys, cursor);
    assert keys == keys[..start] + keys[start..];
    if cursor.Some? {
      var c := cursor.value;
      forall i | 0 <= i < |keys| ensures Less(c, keys[i]) <==> i >= start {
        if i < start { Order3(c, keys[i], c); }
        else {
          Order3(c, keys[start], keys[i]);
        }
      }
      forall i, j | 0 <= i < j < |r| ensures Cyclic(cursor, r[i], r[j]) {
        var m := |keys| - start;
        assert r[i] == if i < m then keys[start + i] else keys[i - m];
        assert r[j] == if j < m then keys[start + j] else keys[j - m];
      }
    } else {
      assert r == keys;
    }
  }

  lemma {:induction false} FilterCyclic(t: JobTables, queue: Text, now: I64, p: Option<Text>, keys: seq<Text>)
    requires CyclicAscending(p, keys)
    ensures CyclicAscending(p, FilterReady(t, queue, now, keys))
    ensures forall k :: k in FilterReady(t, queue, now, keys) <==> k in keys && ReadyHead(t, queue, now, k)
  {
    hide Cyclic, ReadyHead;
    if keys != [] {
      var tail := FilterReady(t, queue, now, keys[1..]);
      FilterCyclic(t, queue, now, p, keys[1..]);
      assert forall k :: k in keys <==> k == keys[0] || k in keys[1..];
      var r := [keys[0]] + tail;
      forall i, j | 0 <= i < j < |r| ensures Cyclic(p, r[i], r[j]) {
        if i == 0 {
          assert r[j] == tail[j - 1] && tail[j - 1] in tail;
          var n :| 0 <= n < |keys[1..]| && keys[1..][n] == r[j];
          assert keys[n + 1] == r[j];
        } else {
          assert r[i] == tail[i - 1] && r[j] == tail[j - 1];
        }
      }
    }
  }

  /** The ready partitions among `keys`, listed in cyclic order from the cursor. */
  function ReadyListing(t: JobTables, req: ClaimRequest, keys: set<Text>): (r: seq<Text>)
    ensures CyclicAscending(CursorOf(t, req.queue), r)
    ensures forall k :: k in r <==> k in keys && ReadyHead(t, req.queue, req.now, k)
    ensures PlannedOver(t, req, keys) == FirstOf(r, req.limit)
  {
    var cursor := CursorOf(t, req.queue);
    var rotation := Rotation(InOrder(keys), cursor);
    RotationCyclic(InOrder(keys), cursor);
    FilterCyclic(t, req.queue, req.now, cursor, rotation);
    FilterReady(t, req.queue, req.now, rotation)
  }

  lemma ActiveIffLive(t: JobTables, queue: Text, key: Text)
    requires JobsInv(t)
    ensures key in ActiveKeys(t, queue) <==> Head(t.jobs, Place(queue, key)).Some?
  {
    hide RowsOk, SequencesUnique, Fifo, ReceiptsOk;
    var place := Place(queue, key);
    if place in t.active {
      assert place in LivePlaces(t.jobs);
      var id :| id in t.jobs && Live(t.jobs[id]) && PlaceOf(t.jobs[id]) == place;
      assert id in LiveAt(t.jobs, place);
    }
    if h: Id :| h in LiveAt(t.jobs, place) {
      assert place in LivePlaces(t.jobs);
      assert place in t.active;
    }
  }

  /** Planning over the index equals planning over any larger set of partitions, such as all ever enqueued. */
  lemma IndexIsEnough(t: JobTables, req: ClaimRequest, keys: set<Text>)
    requires JobsInv(t)
    requires ActiveKeys(t, req.queue) <= keys
    ensures PlannedOver(t, req, keys) == PlannedKeys(t, req)
  {
    hide PlannedOver;
    var a := ReadyListing(t, req, ActiveKeys(t, req.queue));
    var b := ReadyListing(t, req, keys);
    forall k ensures k in a <==> k in b {
      ActiveIffLive(t, req.queue, k);
    }
    CyclicUnique(CursorOf(t, req.queue), a, b);
  }

  /** Every partition a job was ever enqueued to. */
  function KeysEverEnqueued(t: JobTables, queue: Text): set<Text> {
    set id | id in t.jobs && t.jobs[id].spec.queue == queue :: t.jobs[id].spec.partitionKey
  }

  lemma NaiveRotationAgrees(t: JobTables, req: ClaimRequest)
    requires JobsInv(t)
    ensures PlannedOver(t, req, KeysEverEnqueued(t, req.queue)) == PlannedKeys(t, req)
  {
    hide RowsOk, SequencesUnique, Fifo, ReceiptsOk;
    forall k | k in ActiveKeys(t, req.queue) ensures k in KeysEverEnqueued(t, req.queue) {
      assert Place(req.queue, k) in LivePlaces(t.jobs);
    }
    IndexIsEnough(t, req, KeysEverEnqueued(t, req.queue));
  }

  /** What a plan holds: ready partitions only, in cyclic order from the cursor, all of them unless the limit is reached. */
  lemma PlanMeans(t: JobTables, req: ClaimRequest)
    requires JobsInv(t)
    ensures var plan := PlannedKeys(t, req);
            && CyclicAscending(CursorOf(t, req.queue), plan)
            && |plan| <= req.limit
            && (forall k :: k in plan ==> ReadyHead(t, req.queue, req.now, k))
            && (forall k :: ReadyHead(t, req.queue, req.now, k) && k !in plan ==>
                  |plan| == req.limit && forall x :: x in plan ==> Cyclic(CursorOf(t, req.queue), x, k))
  {
    hide PlannedOver, Cyclic, CyclicAscending;
    var all := ReadyListing(t, req, ActiveKeys(t, req.queue));
    FirstOfCyclic(CursorOf(t, req.queue), all, req.limit);
    forall k | ReadyHead(t, req.queue, req.now, k) ensures k in all { ActiveIffLive(t, req.queue, k); }
  }

  lemma FirstOfCyclic(p: Option<Text>, all: seq<Text>, n: nat)
    requires CyclicAscending(p, all)
    ensures CyclicAscending(p, FirstOf(all, n)) && |FirstOf(all, n)| <= n
    ensures forall k :: k in FirstOf(all, n) ==> k in all
    ensures forall k :: k in all && k !in FirstOf(all, n) ==>
              |FirstOf(all, n)| == n && forall x :: x in FirstOf(all, n) ==> Cyclic(p, x, k)
  {
    hide Cyclic;
    var plan := FirstOf(all, n);
    forall k | k in all && k !in plan ensures |plan| == n && forall x :: x in plan ==> Cyclic(p, x, k) {
      var j :| 0 <= j < |all| && all[j] == k;
      assert forall i :: 0 <= i < |plan| ==> plan[i] == all[i] && plan[i] in plan;
      assert j >= |plan|;
      forall x | x in plan ensures Cyclic(p, x, k) {
        var i :| 0 <= i < |plan| && plan[i] == x;
        assert all[i] == x;
      }
    }
  }

  lemma CyclicDistinct(p: Option<Text>, s: seq<Text>)
    requires CyclicAscending(p, s)
    ensures Distinct(s)
  {
    hide Cyclic;
    forall i, j | 0 <= i < j < |s| ensures s[i] != s[j] { CyclicStrict(p, s[i], s[j]); }
  }

  // ----- passing over a ready partition -----

  lemma CycleFrom(c: Text, p: Text, x: Text)
    requires c != p && Cyclic(Some(c), x, p)
    ensures Cyclic(Some(p), c, x)
  {
    Order3(c, p, x);
  }

  lemma CycleOnward(c: Option<Text>, p: Text, x: Text, y: Text)
    requires Cyclic(c, x, y) && Cyclic(c, y, p) && Cyclic(c, x, p)
    ensures Cyclic(Some(p), x, y)
  {
    var d := if c.Some? then c.value else p;
    Order3(p, x, y);
    Order3(d, x, y);
    Order3(d, x, p);
    Order3(d, y, p);
  }

  lemma CyclicThrough(p: Text, x: Text, y: Text, z: Text)
    requires Cyclic(Some(p), x, y) && Cyclic(Some(p), y, z)
    ensures Cyclic(Some(p), x, z)
  {
    Order3(p, x, y);
    Order3(p, y, z);
    Order3(x, y, z);
  }

  /** A claim that passes over the ready partition `p` leases a full limit of partitions that all lie
      between the cursor and `p`, advancing towards `p`. */
  lemma PassedOver(t: JobTables, req: ClaimRequest, p: Text)
    requires JobsInv(t) && ReadyHead(t, req.queue, req.now, p) && p !in PlannedKeys(t, req)
    ensures |PlannedKeys(t, req)| == req.limit
    ensures CyclicAscending(Some(p), PlannedKeys(t, req))
    ensures forall x :: x in PlannedKeys(t, req) ==>
              x != p && (CursorOf(t, req.queue).Some? && CursorOf(t, req.queue).value != p ==>
                           Cyclic(Some(p), CursorOf(t, req.queue).value, x))
  {
    hide PlannedKeys, Cyclic;
    var cursor := CursorOf(t, req.queue);
    var plan := PlannedKeys(t, req);
    PlanMeans(t, req);
    forall i, j | 0 <= i < j < |plan| ensures Cyclic(Some(p), plan[i], plan[j]) {
      CycleOnward(cursor, p, plan[i], plan[j]);
    }
    forall x | x in plan && cursor.Some? && cursor.value != p ensures Cyclic(Some(p), cursor.value, x) {
      CycleFrom(cursor.value, p, x);
    }
  }
}
