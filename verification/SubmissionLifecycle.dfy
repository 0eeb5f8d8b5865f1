/**
  How one authority observation changes a session's cockpit
  (dashboard/src/data/submissionLifecycleClient.ts): settle it against the stored evidence, project
  the record, and resolve the withdrawal slot.
 */
module SubmissionLifecycle {
  import opened Wrappers
  import opened SubmitMachine
  import opened SubmitRetention
  import opened CockpitState

  function ObservationVersion(record: Option<SubmitRecord>): int {
    if record.Some? then record.value.lifecycleObservationVersion else -1
  }

  /** A matching recovery slot stands for a withdrawn observation newer than any request. */
  function CurrentSnapshot(c: Cockpit, id: RequestId): Option<ObservationSnapshot> {
    if HasRecovery(c, id) then Some(ObservationSnapshot(Server(Withdrawn), Infinite))
    else SnapshotOf(RecordOf(c, id))
  }

  function ClearSettledWithdrawal(c: Cockpit, id: RequestId, owner: bool, inFlight: bool): Cockpit {
    if HasPending(c, id) && (owner || !inFlight) then SetWithdrawal(c, NoWithdrawal) else c
  }

  function UpsertIfAny(c: Cockpit, record: Option<SubmitRecord>): Cockpit {
    if record.Some? then UpsertRecord(c, record.value) else c
  }

  function ProjectWithdrawn(record: Option<SubmitRecord>, at: int): Option<SubmitRecord> {
    if record.Some? then Some(ProjectLifecycle(record.value, Withdrawn, at)) else None
  }

  function MarkRestored(record: Option<SubmitRecord>, at: int): Option<SubmitRecord> {
    if record.Some? then Some(record.value.(restoredAt := Some(at))) else None
  }

  /** `pendingWithdrawalSelection`: the issuer's own target wins over the stored slot. */
  function SelectPending(
    c: Cockpit, id: RequestId, issued: Option<PendingWithdrawal>): Option<PendingWithdrawal>
  {
    if issued.Some? && issued.value.requestId == id then issued
    else if c.withdrawal.Pending? then Some(c.withdrawal.target)
    else None
  }

  /** Put the withdrawn text back at the exact captured revision, otherwise keep it in the slot. */
  function RestoreOrRecover(
    c: Cockpit, id: RequestId, pending: PendingWithdrawal, projected: Option<SubmitRecord>, at: int): Cockpit
  {
    if c.draftRevision == pending.draftRevision then
      var restored := ReplaceDraftIfRevision(c, pending.draftRevision, pending.text);
      SetWithdrawal(UpsertIfAny(restored, MarkRestored(projected, at)), NoWithdrawal)
    else
      SetWithdrawal(UpsertIfAny(c, projected), Recovery(id, pending.text, at))
  }

  /** `resolveAuthoritativeWithdrawal` */
  function ResolveWithdrawn(
    c: Cockpit, id: RequestId, at: int, issued: Option<PendingWithdrawal>): Cockpit
  {
    var record := RecordOf(c, id);
    var pending := SelectPending(c, id, issued);
    var projected := ProjectWithdrawn(record, at);
    var dequeued := Dequeue(c, id);
    if pending.None? || pending.value.requestId != id then UpsertIfAny(dequeued, projected)
    else if record.Some? && record.value.restoredAt.Some? then
      SetWithdrawal(UpsertIfAny(dequeued, projected), NoWithdrawal)
    else RestoreOrRecover(dequeued, id, pending.value, projected, at)
  }

  /** A settled observation other than withdrawn: project the record, then `dequeueUnlessQueued`. */
  function ProjectSettled(
    c: Cockpit, inFlight: bool, id: RequestId, observation: Observation, at: int, owner: bool): Cockpit
  {
    var record := RecordOf(c, id);
    var written :=
      if record.Some? then UpsertRecord(c, ProjectObservation(record.value, observation, at)) else c;
    if observation == Server(Queued) then written
    else ClearSettledWithdrawal(Dequeue(written, id), id, owner, inFlight)
  }

  /** `applyLifecycleObservation`: `owner` and `issued` are set by the withdrawal that is answered. */
  function ApplyObservation(
    c: Cockpit, inFlight: bool, id: RequestId, incoming: Observation, at: int, observedVersion: int,
    owner: bool, issued: Option<PendingWithdrawal>): Cockpit
  {
    match Settle(CurrentSnapshot(c, id), incoming, observedVersion)
    case Preserve => if owner then ClearSettledWithdrawal(c, id, true, inFlight) else c
    case Apply(observation, _) =>
      if observation == Server(Withdrawn) then ResolveWithdrawn(c, id, at, issued)
      else ProjectSettled(c, inFlight, id, observation, at, owner)
  }

  datatype PollTarget = PollTarget(requestId: RequestId, expectedBridgeEpoch: string)

  predicate IsTarget(targets: seq<PollTarget>, id: RequestId) {
    exists t <- targets :: t.requestId == id
  }

  function QueuedTargets(queue: seq<QueuedSubmit>): seq<PollTarget> {
    seq(|queue|, i requires 0 <= i < |queue| => PollTarget(queue[i].requestId, queue[i].expectedBridgeEpoch))
  }

  /** Queue entries first, then a pending withdrawal that is not among them. */
  function QueueTargets(c: Cockpit): seq<PollTarget> {
    var queued := QueuedTargets(c.queue);
    if c.withdrawal.Pending? && !IsTarget(queued, c.withdrawal.target.requestId)
    then queued + [PollTarget(c.withdrawal.target.requestId, c.withdrawal.target.expectedBridgeEpoch)]
    else queued
  }

  predicate InQueueOrPending(c: Cockpit, id: RequestId) {
    (exists q <- c.queue :: q.requestId == id) || HasPending(c, id)
  }

  /** The watched record that a poll starting now gives up on. */
  predicate Expires(c: Cockpit, record: SubmitRecord, at: int) {
    LifecycleWatchState(record, at).ExpiredWatch? && !InQueueOrPending(c, record.requestId)
  }

  function EndgameOf(c: Cockpit, record: SubmitRecord, at: int): SubmitRecord {
    if Expires(c, record, at) then EnterEndgame(record, at) else record
  }

  /** What the start of one poll does to the records: every expired watch settles on the endgame. */
  function ExpireWatches(c: Cockpit, at: int): Cockpit {
    c.(history := seq(|c.history|, i requires 0 <= i < |c.history| => EndgameOf(c, c.history[i], at)))
  }

  predicate IsWatched(c: Cockpit, record: SubmitRecord, at: int) {
    LifecycleWatchState(record, at).ActiveWatch? && !InQueueOrPending(c, record.requestId)
  }

  /** The targets that the first `n` records add: those whose watch is still active. */
  function WatchedTargets(c: Cockpit, at: int, n: nat): seq<PollTarget>
    requires n <= |c.history|
  {
    if n == 0 then []
    else
      var record := c.history[n - 1];
      WatchedTargets(c, at, n - 1) +
      if IsWatched(c, record, at) then [PollTarget(record.requestId, record.expectedBridgeEpoch)] else []
  }

  function PollTargets(c: Cockpit, at: int): seq<PollTarget> {
    QueueTargets(c) + WatchedTargets(c, at, |c.history|)
  }

  lemma TargetsConcat(a: seq<PollTarget>, b: seq<PollTarget>, id: RequestId)
    ensures IsTarget(a + b, id) <==> IsTarget(a, id) || IsTarget(b, id)
  {
    if IsTarget(a, id) {
      var t :| t in a && t.requestId == id;
      assert t in a + b;
    }
    if IsTarget(b, id) {
      var t :| t in b && t.requestId == id;
      assert t in a + b;
    }
  }

  lemma QueueTargetIds(c: Cockpit, id: RequestId)
    ensures IsTarget(QueueTargets(c), id) <==> InQueueOrPending(c, id)
  {
    var queued := QueuedTargets(c.queue);
    forall x ensures IsTarget(queued, x) <==> exists q <- c.queue :: q.requestId == x {
      if IsTarget(queued, x) {
        var i :| 0 <= i < |queued| && queued[i].requestId == x;
        assert c.queue[i] in c.queue;
      }
      if exists q <- c.queue :: q.requestId == x {
        var i :| 0 <= i < |c.queue| && c.queue[i].requestId == x;
        assert queued[i] in queued;
      }
    }
    if c.withdrawal.Pending? && !IsTarget(queued, c.withdrawal.target.requestId) {
      var last := PollTarget(c.withdrawal.target.requestId, c.withdrawal.target.expectedBridgeEpoch);
      assert QueueTargets(c) == queued + [last];
      TargetsConcat(queued, [last], id);
    }
  }

  lemma {:induction false} WatchedTargetIds(c: Cockpit, at: int, n: nat, id: RequestId)
    requires n <= |c.history|
    ensures IsTarget(WatchedTargets(c, at, n), id) <==>
            exists i :: 0 <= i < n && c.history[i].requestId == id && IsWatched(c, c.history[i], at)
  {
    if n > 0 {
      WatchedTargetIds(c, at, n - 1, id);
      var record := c.history[n - 1];
      if IsWatched(c, record, at) {
        var last := PollTarget(record.requestId, record.expectedBridgeEpoch);
        TargetsConcat(WatchedTargets(c, at, n - 1), [last], id);
      } else {
        assert WatchedTargets(c, at, n) == WatchedTargets(c, at, n - 1);
      }
    }
  }

  /** A poll asks about exactly the queued, the withdrawn-pending and the actively watched requests. */
  lemma PollAsksAboutExactly(c: Cockpit, at: int, id: RequestId)
    requires UniqueIds(c.history)
    ensures IsTarget(PollTargets(c, at), id) <==>
            || InQueueOrPending(c, id)
            || (RecordOf(c, id).Some? && LifecycleWatchState(RecordOf(c, id).value, at).ActiveWatch?)
  {
    QueueTargetIds(c, id);
    WatchedTargetIds(c, at, |c.history|, id);
    TargetsConcat(QueueTargets(c), WatchedTargets(c, at, |c.history|), id);
    forall i | 0 <= i < |c.history| && c.history[i].requestId == id ensures RecordOf(c, id) == Some(c.history[i]) {
      FindMember(c.history, c.history[i]);
    }
    if RecordOf(c, id).Some? {
      FindMember(c.history, RecordOf(c, id).value);
    }
  }
}
