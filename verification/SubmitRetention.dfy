/**
  Bounded retention of submit records (dashboard/src/data/submitRetention.ts) and the upsert of
  sessionCockpitStore.ts that runs it on every write.
 */
module SubmitRetention {
  import opened Wrappers
  import opened SubmitMachine

  const HISTORY_WINDOW: nat := 64
  const QUEUE_WINDOW: nat := 64

  predicate IsProtected(record: SubmitRecord) {
    record.phase in {SendingPhase, QueuedPhase, DeliveringPhase, AmbiguousPhase, ReconcilingPhase,
                     EndgamePhase, RouteErrorPhase, GenerationLostPhase}
  }

  function Tail<T>(s: seq<T>, n: nat): seq<T> {
    if |s| <= n then s else s[|s| - n..]
  }

  function Ids(records: seq<SubmitRecord>): set<RequestId> {
    set r <- records :: r.requestId
  }

  function ProtectedIds(records: seq<SubmitRecord>): set<RequestId> {
    set r <- records | IsProtected(r) :: r.requestId
  }

  /** The records whose id is in `ids`, in their original order. */
  function KeepIds(records: seq<SubmitRecord>, ids: set<RequestId>): seq<SubmitRecord> {
    if records == [] then []
    else (if records[0].requestId in ids then [records[0]] else []) + KeepIds(records[1..], ids)
  }

  function DropIds(records: seq<SubmitRecord>, ids: set<RequestId>): seq<SubmitRecord> {
    KeepIds(records, Ids(records) - ids)
  }

  function Settled(records: seq<SubmitRecord>): seq<SubmitRecord> {
    DropIds(records, ProtectedIds(records))
  }

  /** `compactSubmitHistory` */
  function Compact(records: seq<SubmitRecord>): seq<SubmitRecord> {
    KeepIds(records, ProtectedIds(records) + Ids(Tail(Settled(records), HISTORY_WINDOW)))
  }

  function CompactQueue<T>(entries: seq<T>): seq<T> {
    Tail(entries, QUEUE_WINDOW)
  }

  predicate UniqueIds(records: seq<SubmitRecord>) {
    forall i, j :: 0 <= i < j < |records| ==> records[i].requestId != records[j].requestId
  }

  function IndexOf(records: seq<SubmitRecord>, id: RequestId): (i: nat)
    ensures i <= |records|
    ensures i < |records| ==> records[i].requestId == id
    ensures forall k :: 0 <= k < i ==> records[k].requestId != id
  {
    if records == [] || records[0].requestId == id then 0 else 1 + IndexOf(records[1..], id)
  }

  /** `submitHistory.find`: the retained record of one request. */
  function Find(records: seq<SubmitRecord>, id: RequestId): Option<SubmitRecord> {
    var i := IndexOf(records, id);
    if i < |records| then Some(records[i]) else None
  }

  function Place(records: seq<SubmitRecord>, record: SubmitRecord): seq<SubmitRecord> {
    var i := IndexOf(records, record.requestId);
    if i < |records| then records[i := record] else records + [record]
  }

  /** `upsertSubmitRecord` */
  function Upsert(records: seq<SubmitRecord>, record: SubmitRecord): seq<SubmitRecord> {
    Compact(Place(records, record))
  }

  lemma FindMember(records: seq<SubmitRecord>, record: SubmitRecord)
    requires UniqueIds(records)
    ensures record in records <==> Find(records, record.requestId) == Some(record)
  {
    if record in records {
      var k :| 0 <= k < |records| && records[k] == record;
      assert !(k < IndexOf(records, record.requestId));
    }
  }

  lemma {:induction false} KeepIdsMembers(records: seq<SubmitRecord>, ids: set<RequestId>)
    ensures forall r :: r in KeepIds(records, ids) <==> r in records && r.requestId in ids
  {
    if records != [] {
      KeepIdsMembers(records[1..], ids);
      assert forall r :: r in records <==> r == records[0] || r in records[1..];
    }
  }

  lemma {:induction false} KeepIdsUnique(records: seq<SubmitRecord>, ids: set<RequestId>)
    requires UniqueIds(records)
    ensures UniqueIds(KeepIds(records, ids))
  {
    if records != [] {
      var rest := KeepIds(records[1..], ids);
      KeepIdsUnique(records[1..], ids);
      KeepIdsMembers(records[1..], ids);
      assert forall k :: 0 <= k < |rest| ==> rest[k] in rest && rest[k] in records[1..];
    }
  }

  lemma KeepIdsFacts(records: seq<SubmitRecord>, ids: set<RequestId>)
    requires UniqueIds(records)
    ensures forall r :: r in KeepIds(records, ids) <==> r in records && r.requestId in ids
    ensures UniqueIds(KeepIds(records, ids))
    ensures forall id :: Find(KeepIds(records, ids), id) == if id in ids then Find(records, id) else None
  {
    KeepIdsMembers(records, ids);
    KeepIdsUnique(records, ids);
    var kept := KeepIds(records, ids);
    forall id ensures Find(kept, id) == if id in ids then Find(records, id) else None {
      if Find(kept, id).Some? {
        FindMember(kept, Find(kept, id).value);
        FindMember(records, Find(kept, id).value);
      } else if id in ids && Find(records, id).Some? {
        FindMember(records, Find(records, id).value);
        FindMember(kept, Find(records, id).value);
      }
    }
  }

  /** Filtering twice is filtering by the intersection. */
  lemma {:induction false} KeepIdsCompose(records: seq<SubmitRecord>, a: set<RequestId>, b: set<RequestId>)
    ensures KeepIds(KeepIds(records, a), b) == KeepIds(records, a * b)
  {
    if records != [] {
      KeepIdsCompose(records[1..], a, b);
      var rest := KeepIds(records[1..], a);
      if records[0].requestId in a {
        assert KeepIds(records, a) == [records[0]] + rest && ([records[0]] + rest)[1..] == rest;
      } else {
        assert KeepIds(records, a) == rest;
      }
    }
  }

  /** Keeping the ids of a suffix keeps exactly that suffix. */
  lemma {:induction false} KeepSuffix(records: seq<SubmitRecord>, from: nat)
    requires UniqueIds(records) && from <= |records|
    ensures KeepIds(records, Ids(records[from..])) == records[from..]
    decreases |records|
  {
    if records == [] {
    } else if from == 0 {
      KeepAll(records, Ids(records));
    } else {
      assert records[from..] == records[1..][from - 1..];
      assert forall r <- records[from..] :: r.requestId != records[0].requestId;
      KeepSuffix(records[1..], from - 1);
    }
  }

  lemma {:induction false} KeepAll(records: seq<SubmitRecord>, ids: set<RequestId>)
    requires Ids(records) <= ids
    ensures KeepIds(records, ids) == records
  {
    if records != [] {
      assert records[0] in records;
      assert Ids(records[1..]) <= Ids(records);
      KeepAll(records[1..], ids);
      assert records == [records[0]] + records[1..];
    }
  }

  /** The records stand by strictly rising rank of their ids. */
  ghost predicate Ranked(records: seq<SubmitRecord>, rank: RequestId -> int) {
    forall i, j :: 0 <= i < j < |records| ==> rank(records[i].requestId) < rank(records[j].requestId)
  }

  lemma {:induction false} KeepIdsRanked(records: seq<SubmitRecord>, ids: set<RequestId>, rank: RequestId -> int)
    requires Ranked(records, rank)
    ensures Ranked(KeepIds(records, ids), rank)
  {
    if records != [] {
      var rest := KeepIds(records[1..], ids);
      KeepIdsRanked(records[1..], ids, rank);
      KeepIdsMembers(records[1..], ids);
      forall k | 0 <= k < |rest| ensures rank(records[0].requestId) < rank(rest[k].requestId) {
        assert rest[k] in records[1..];
        var j :| 1 <= j < |records| && records[j] == rest[k];
      }
    }
  }

  /** Where an id stands in `whole`, as a rank. */
  function PositionIn(whole: seq<SubmitRecord>): RequestId -> int {
    id => IndexOf(whole, id)
  }

  lemma UniqueIsRanked(records: seq<SubmitRecord>)
    requires UniqueIds(records)
    ensures Ranked(records, PositionIn(records))
  {
    forall i | 0 <= i < |records| ensures IndexOf(records, records[i].requestId) == i {
      assert !(i < IndexOf(records, records[i].requestId));
    }
  }

  /**
    Compaction keeps unique ids and original order, keeps every protected record, and of the
    settled records exactly the newest 64.
   */
  lemma CompactFacts(records: seq<SubmitRecord>)
    requires UniqueIds(records)
    ensures UniqueIds(Compact(records))
    ensures ProtectedIds(Compact(records)) == ProtectedIds(records)
    ensures Settled(Compact(records)) == Tail(Settled(records), HISTORY_WINDOW)
    ensures forall r <- records :: IsProtected(r) ==> r in Compact(records)
    ensures forall id :: Find(Compact(records), id) in {Find(records, id), None}
    ensures Ranked(Compact(records), PositionIn(records))
  {
    UniqueIsRanked(records);
    KeepIdsRanked(records, ProtectedIds(records) + Ids(Tail(Settled(records), HISTORY_WINDOW)), PositionIn(records));
    var shielded := ProtectedIds(records);
    var kept := shielded + Ids(Tail(Settled(records), HISTORY_WINDOW));
    KeepIdsFacts(records, kept);
    assert ProtectedIds(Compact(records)) == shielded;
    CompactSettled(records);
  }

  lemma CompactSettled(records: seq<SubmitRecord>)
    requires UniqueIds(records)
    ensures Settled(Compact(records)) == Tail(Settled(records), HISTORY_WINDOW)
  {
    var shielded := ProtectedIds(records);
    var open := Ids(records) - shielded;
    var settled := Settled(records);
    var tail := Tail(settled, HISTORY_WINDOW);
    var kept := shielded + Ids(tail);
    var result := Compact(records);
    KeepIdsMembers(records, open);
    KeepIdsUnique(records, open);
    KeepIdsMembers(records, kept);
    assert tail == settled[|settled| - |tail|..];
    assert Ids(tail) <= open by { assert forall r <- tail :: r in settled; }
    assert ProtectedIds(result) == shielded;
    assert Ids(result) - shielded == Ids(tail) by {
      forall id <- Ids(tail) ensures id in Ids(result) {
        var r :| r in tail && r.requestId == id;
        assert r in settled && r in records && r in result;
      }
      forall id <- Ids(result) - shielded ensures id in Ids(tail) {
        var r :| r in result && r.requestId == id;
        assert id in kept;
      }
    }
    calc {
      Settled(result);
      KeepIds(KeepIds(records, kept), Ids(tail));
      { KeepIdsCompose(records, kept, Ids(tail)); }
      KeepIds(records, kept * Ids(tail));
      { assert kept * Ids(tail) == open * Ids(tail); }
      KeepIds(records, open * Ids(tail));
      { KeepIdsCompose(records, open, Ids(tail)); }
      KeepIds(settled, Ids(tail));
      { KeepSuffix(settled, |settled| - |tail|); }
      tail;
    }
  }

  lemma CompactIdempotent(records: seq<SubmitRecord>)
    requires UniqueIds(records)
    ensures Compact(Compact(records)) == Compact(records)
  {
    var once := Compact(records);
    CompactFacts(records);
    assert Tail(Settled(once), HISTORY_WINDOW) == Settled(once);
    KeepIdsFacts(once, Ids(once) - ProtectedIds(once));
    assert Ids(once) <= ProtectedIds(once) + Ids(Settled(once)) by {
      forall r <- once ensures r.requestId in ProtectedIds(once) + Ids(Settled(once)) {
        if r.requestId !in ProtectedIds(once) { assert r in Settled(once); }
      }
    }
    KeepAll(once, ProtectedIds(once) + Ids(Settled(once)));
  }

  /** What a write leaves behind: unique ids, the new record or nothing under its id, others kept or evicted whole. */
  lemma UpsertFacts(records: seq<SubmitRecord>, record: SubmitRecord)
    requires UniqueIds(records)
    ensures UniqueIds(Upsert(records, record))
    ensures forall id :: id != record.requestId ==> Find(Upsert(records, record), id) in {Find(records, id), None}
    ensures Find(Upsert(records, record), record.requestId) in {Some(record), None}
    ensures IsProtected(record) ==> Find(Upsert(records, record), record.requestId) == Some(record)
    ensures forall r <- records :: IsProtected(r) && r.requestId != record.requestId ==>
              Find(Upsert(records, record), r.requestId) == Some(r)
    ensures |Settled(Upsert(records, record))| <= HISTORY_WINDOW
  {
    var placed := Place(records, record);
    assert UniqueIds(placed);
    PlaceFind(records, record);
    CompactFacts(placed);
    assert record in placed;
    FindMember(placed, record);
    FindMember(Compact(placed), record);
    forall r <- records | IsProtected(r) && r.requestId != record.requestId
      ensures Find(Compact(placed), r.requestId) == Some(r)
    {
      FindMember(records, r);
      FindMember(placed, r);
      FindMember(Compact(placed), r);
    }
  }

  lemma PlaceFind(records: seq<SubmitRecord>, record: SubmitRecord)
    requires UniqueIds(records)
    ensures UniqueIds(Place(records, record))
    ensures Find(Place(records, record), record.requestId) == Some(record)
    ensures forall id :: id != record.requestId ==> Find(Place(records, record), id) == Find(records, id)
  {
    var placed := Place(records, record);
    var i := IndexOf(records, record.requestId);
    assert placed[i] == record;
    FindMember(placed, record);
    assert forall r: SubmitRecord :: r.requestId != record.requestId ==> (r in placed <==> r in records) by {
      forall r: SubmitRecord | r.requestId != record.requestId ensures r in placed <==> r in records {
        if r in records {
          var k :| 0 <= k < |records| && records[k] == r;
          assert placed[k] == r;
        }
      }
    }
    forall id | id != record.requestId ensures Find(placed, id) == Find(records, id) {
      if Find(placed, id).Some? {
        FindMember(placed, Find(placed, id).value);
        FindMember(records, Find(placed, id).value);
      } else if Find(records, id).Some? {
        FindMember(records, Find(records, id).value);
        FindMember(placed, Find(records, id).value);
      }
    }
  }

  /** Rank `n` for a record that is new to the history, the old rank for one that is there. */
  function RankAfter(records: seq<SubmitRecord>, rank: RequestId -> int, n: int, record: SubmitRecord): RequestId -> int {
    id => if id == record.requestId && Find(records, id).None? then n else rank(id)
  }

  lemma PlaceKeepsOrder(records: seq<SubmitRecord>, rank: RequestId -> int, n: int, record: SubmitRecord)
    requires Ranked(records, rank) && forall r <- records :: rank(r.requestId) < n
    ensures Ranked(Place(records, record), RankAfter(records, rank, n, record))
    ensures forall r <- Place(records, record) :: RankAfter(records, rank, n, record)(r.requestId) < n + 1
  {
    var placed, after := Place(records, record), RankAfter(records, rank, n, record);
    var i := IndexOf(records, record.requestId);
    assert forall k :: 0 <= k < |records| ==> records[k] in records;
    forall k | 0 <= k < |placed|
      ensures after(placed[k].requestId) == if k < |records| then rank(records[k].requestId) else n
    {
      if k == |records| {
        assert Find(records, record.requestId).None?;
      } else if k == i {
        assert placed[k].requestId == records[k].requestId;
      }
    }
  }

  /** A write leaves its record where it stood, or puts a new one last; the others keep their order. */
  lemma UpsertKeepsOrder(records: seq<SubmitRecord>, rank: RequestId -> int, n: int, record: SubmitRecord)
    requires Ranked(records, rank) && forall r <- records :: rank(r.requestId) < n
    ensures Ranked(Upsert(records, record), RankAfter(records, rank, n, record))
    ensures forall r <- Upsert(records, record) :: RankAfter(records, rank, n, record)(r.requestId) < n + 1
  {
    var placed, after := Place(records, record), RankAfter(records, rank, n, record);
    var ids := ProtectedIds(placed) + Ids(Tail(Settled(placed), HISTORY_WINDOW));
    PlaceKeepsOrder(records, rank, n, record);
    KeepIdsRanked(placed, ids, after);
    KeepIdsMembers(placed, ids);
  }

  /** The ranks after a sequence of writes, the first of which takes rank `n`. */
  function Insertions(records: seq<SubmitRecord>, writes: seq<SubmitRecord>, rank: RequestId -> int, n: int): RequestId -> int
    decreases |writes|
  {
    if writes == [] then rank
    else Insertions(Upsert(records, writes[0]), writes[1..], RankAfter(records, rank, n, writes[0]), n + 1)
  }

  /**
    When each id was last inserted: its position at the start, or the number of the last write that
    found it absent.
   */
  function LatestInsertion(records: seq<SubmitRecord>, writes: seq<SubmitRecord>): RequestId -> int {
    Insertions(records, writes, PositionIn(records), |records|)
  }

  lemma {:induction false} WritesKeepOrder(records: seq<SubmitRecord>, writes: seq<SubmitRecord>, rank: RequestId -> int, n: int)
    requires Ranked(records, rank) && forall r <- records :: rank(r.requestId) < n
    ensures Ranked(UpsertAll(records, writes), Insertions(records, writes, rank, n))
    decreases |writes|
  {
    if writes != [] {
      UpsertKeepsOrder(records, rank, n, writes[0]);
      WritesKeepOrder(Upsert(records, writes[0]), writes[1..], RankAfter(records, rank, n, writes[0]), n + 1);
    }
  }

  /** Over any sequence of writes the history stands in the order its ids were last inserted. */
  lemma HistoryStaysInOrder(records: seq<SubmitRecord>, writes: seq<SubmitRecord>)
    requires UniqueIds(records)
    ensures Ranked(UpsertAll(records, writes), LatestInsertion(records, writes))
  {
    UniqueIsRanked(records);
    forall r <- records ensures PositionIn(records)(r.requestId) < |records| {
      var k :| 0 <= k < |records| && records[k] == r;
      assert !(k < IndexOf(records, r.requestId));
    }
    WritesKeepOrder(records, writes, PositionIn(records), |records|);
  }

  function UpsertAll(records: seq<SubmitRecord>, writes: seq<SubmitRecord>): seq<SubmitRecord>
    decreases |writes|
  {
    if writes == [] then records else UpsertAll(Upsert(records, writes[0]), writes[1..])
  }

  /** Over any sequence of writes the history keeps unique ids in order, is bounded, and is already compact. */
  lemma {:induction false} HistoryStaysCompact(records: seq<SubmitRecord>, writes: seq<SubmitRecord>)
    requires UniqueIds(records) && |Settled(records)| <= HISTORY_WINDOW && Compact(records) == records
    ensures UniqueIds(UpsertAll(records, writes))
    ensures |Settled(UpsertAll(records, writes))| <= HISTORY_WINDOW
    ensures Compact(UpsertAll(records, writes)) == UpsertAll(records, writes)
    ensures Ranked(UpsertAll(records, writes), LatestInsertion(records, writes))
    decreases |writes|
  {
    HistoryStaysInOrder(records, writes);
    if writes != [] {
      UpsertFacts(records, writes[0]);
      PlaceFind(records, writes[0]);
      CompactIdempotent(Place(records, writes[0]));
      HistoryStaysCompact(Upsert(records, writes[0]), writes[1..]);
    }
  }

  /** A record the lifecycle poller still owes a terminal word cannot be evicted. */
  lemma WatchedIsRetained(records: seq<SubmitRecord>, writes: seq<SubmitRecord>, record: SubmitRecord, at: int)
    requires UniqueIds(records)
    requires record in records && !LifecycleWatchState(record, at).InactiveWatch?
    requires forall w <- writes :: w.requestId != record.requestId
    ensures Find(UpsertAll(records, writes), record.requestId) == Some(record)
    decreases |writes|
  {
    FindMember(records, record);
    if writes != [] {
      UpsertFacts(records, writes[0]);
      assert writes[0] in writes;
      FindMember(Upsert(records, writes[0]), record);
      WatchedIsRetained(Upsert(records, writes[0]), writes[1..], record, at);
    }
  }
}
