/**
  Safety of withdrawals over every run of edits, polls, withdrawal answers and recovery choices:
  a withdrawn text is neither lost nor written over newer typing, and is written at most once.
 */
module WithdrawalSafety {
  import opened Wrappers
  import opened SubmitMachine
  import opened SubmitRetention
  import opened CockpitState
  import opened SubmissionLifecycle
  import opened SubmissionWithdrawal

  function Times(log: seq<RequestId>, id: RequestId): nat {
    multiset(log)[id]
  }

  /** The slot never belongs to another request than the running withdrawal's. */
  predicate SlotFits(operation: Operation, slot: Withdrawal) {
    operation.Running? ==>
      || slot.NoWithdrawal?
      || slot == Pending(operation.target)
      || (slot.Recovery? && slot.requestId == operation.target.requestId && slot.text == operation.target.text)
  }

  predicate IsSent(sent: map<RequestId, string>, id: RequestId, text: string) {
    id in sent && sent[id] == text
  }

  /** Every copy of a message anywhere in the session is the text submitted under its id. */
  ghost predicate TextsMatch(s: Session) {
    && (forall id :: Find(s.cockpit.history, id).Some? ==> IsSent(s.sent, id, Find(s.cockpit.history, id).value.text))
    && (forall q <- s.cockpit.queue :: IsSent(s.sent, q.requestId, q.text))
    && (s.cockpit.withdrawal.Pending? ==>
          IsSent(s.sent, s.cockpit.withdrawal.target.requestId, s.cockpit.withdrawal.target.text))
    && (s.cockpit.withdrawal.Recovery? ==>
          IsSent(s.sent, s.cockpit.withdrawal.requestId, s.cockpit.withdrawal.text))
    && (s.operation.Running? ==> IsSent(s.sent, s.operation.target.requestId, s.operation.target.text))
  }

  /** A retained record knows whether its text has been written back. */
  predicate RestoreIsRecorded(record: SubmitRecord, restored: seq<RequestId>, recovering: bool) {
    && Times(restored, record.requestId) <= 1
    && (record.restoredAt.None? ==> Times(restored, record.requestId) == 0)
    && (recovering ==> record.restoredAt.None?)
  }

  ghost predicate Coherent(s: Session) {
    && UniqueIds(s.cockpit.history)
    && SlotFits(s.operation, s.cockpit.withdrawal)
    && TextsMatch(s)
    && (forall id <- s.restored :: id in s.sent)
    && (forall id :: Find(s.cockpit.history, id).Some? ==>
          RestoreIsRecorded(Find(s.cockpit.history, id).value, s.restored, HasRecovery(s.cockpit, id)))
  }

  /**
    A captured revision is never ahead of the composer, and behind it once the text had to go to the
    recovery slot instead.
   */
  predicate RevisionsFit(s: Session) {
    && (s.cockpit.withdrawal.Pending? ==> s.cockpit.withdrawal.target.draftRevision <= s.cockpit.draftRevision)
    && (s.operation.Running? ==> s.operation.target.draftRevision <= s.cockpit.draftRevision)
    && (s.operation.Running? && s.cockpit.withdrawal.Recovery? ==>
          s.operation.target.draftRevision < s.cockpit.draftRevision)
  }

  /** A message held for recovery is no longer queued. */
  predicate RecoveryLeftQueue(c: Cockpit) {
    c.withdrawal.Recovery? ==> forall q <- c.queue :: q.requestId != c.withdrawal.requestId
  }

  /** What every session keeps. */
  ghost predicate Inv(s: Session) {
    Coherent(s) && RevisionsFit(s) && RecoveryLeftQueue(s.cockpit)
  }

  /** Everything the invariant needs to know about the records after a step that works on `id`. */
  ghost predicate RecordsFollow(c: Cockpit, next: Cockpit, id: RequestId) {
    && UniqueIds(next.history)
    && (forall x :: x != id ==> Find(next.history, x) in {Find(c.history, x), None})
    && (RecordOf(next, id).Some? ==>
          && RecordOf(c, id).Some?
          && RecordOf(next, id).value.text == RecordOf(c, id).value.text
          && (RecordOf(next, id).value.restoredAt.None? ==> RecordOf(c, id).value.restoredAt.None?))
  }

  /** The composer is untouched, or holds the withdrawn text in place of the captured revision. */
  predicate ComposerFollows(c: Cockpit, next: Cockpit, pending: Option<PendingWithdrawal>) {
    || (next.draft == c.draft && next.draftRevision == c.draftRevision)
    || (pending.Some? && c.draftRevision == pending.value.draftRevision && next.draft == pending.value.text &&
        next.draftRevision == c.draftRevision + 1 && next.withdrawal.NoWithdrawal?)
  }

  predicate SlotFollows(c: Cockpit, next: Cockpit, id: RequestId, pending: Option<PendingWithdrawal>) {
    || next.withdrawal == c.withdrawal
    || (next.withdrawal.NoWithdrawal? && (HasPending(c, id) || (pending.Some? && c.withdrawal.NoWithdrawal?)))
    || (pending.Some? && !c.withdrawal.Recovery? && next.withdrawal.Recovery? &&
        next.withdrawal.requestId == id && next.withdrawal.text == pending.value.text &&
        c.draftRevision != pending.value.draftRevision && forall q <- next.queue :: q.requestId != id)
  }

  function PendingFor(c: Cockpit, id: RequestId, issued: Option<PendingWithdrawal>): Option<PendingWithdrawal> {
    if issued.Some? && issued.value.requestId == id then issued
    else if HasPending(c, id) then Some(c.withdrawal.target)
    else None
  }

  /** All that one observation may do to the cockpit, as far as safety is concerned. */
  ghost predicate Follows(c: Cockpit, next: Cockpit, id: RequestId, pending: Option<PendingWithdrawal>) {
    && RecordsFollow(c, next, id)
    && ComposerFollows(c, next, pending)
    && SlotFollows(c, next, id, pending)
    && (next.draftRevision != c.draftRevision ==>
          && (RecordOf(c, id).Some? ==> RecordOf(c, id).value.restoredAt.None?)
          && (RecordOf(next, id).Some? ==> RecordOf(next, id).value.restoredAt.Some?))
    && (HasRecovery(next, id) && RecordOf(next, id).Some? && RecordOf(next, id).value.restoredAt.Some? ==>
          HasRecovery(c, id) && RecordOf(c, id).value.restoredAt.Some?)
    && (forall q :: q in next.queue ==> q in c.queue)
  }

  /** `next` differs from `c` in its records only, and there by a write to `id` or not at all. */
  ghost predicate OnlyWrites(c: Cockpit, next: Cockpit, id: RequestId, record: Option<SubmitRecord>) {
    && next == c.(history := next.history)
    && RecordsFollow(c, next, id)
    && RecordOf(next, id) in {record, None}
  }

  lemma UpsertFollows(c: Cockpit, record: SubmitRecord)
    requires UniqueIds(c.history)
    requires RecordOf(c, record.requestId).Some?
    requires record.text == RecordOf(c, record.requestId).value.text
    requires record.restoredAt.None? ==> RecordOf(c, record.requestId).value.restoredAt.None?
    ensures OnlyWrites(c, UpsertRecord(c, record), record.requestId, Some(record))
  {
    UpsertFacts(c.history, record);
  }

  lemma UpsertAnyFollows(c: Cockpit, id: RequestId, record: Option<SubmitRecord>)
    requires UniqueIds(c.history)
    requires record.Some? <==> RecordOf(c, id).Some?
    requires record.Some? ==>
               && record.value.requestId == id
               && record.value.text == RecordOf(c, id).value.text
               && (record.value.restoredAt.None? ==> RecordOf(c, id).value.restoredAt.None?)
    ensures OnlyWrites(c, UpsertIfAny(c, record), id, record)
  {
    if record.Some? { UpsertFollows(c, record.value); }
  }

  lemma ResolveFollows(c: Cockpit, id: RequestId, at: int, issued: Option<PendingWithdrawal>)
    requires UniqueIds(c.history) && !HasRecovery(c, id)
    requires issued.Some? ==> issued.value.requestId == id && SlotFits(Running(issued.value, Finishing), c.withdrawal)
    ensures Follows(c, ResolveWithdrawn(c, id, at, issued), id, PendingFor(c, id, issued))
  {
    WithoutIdMembers(c.queue, id);
    var record := RecordOf(c, id);
    var projected := ProjectWithdrawn(record, at);
    var dequeued := Dequeue(c, id);
    var next := ResolveWithdrawn(c, id, at, issued);
    var pending := PendingFor(c, id, issued);
    if pending.None? || (record.Some? && record.value.restoredAt.Some?) {
      UpsertAnyFollows(dequeued, id, projected);
      SettledFollows(c, UpsertIfAny(dequeued, projected), next, id, pending);
    } else if c.draftRevision == pending.value.draftRevision {
      var replaced := SetComposerDraft(dequeued, pending.value.text);
      UpsertAnyFollows(replaced, id, MarkRestored(projected, at));
      RestoredFollows(c, UpsertIfAny(replaced, MarkRestored(projected, at)), next, id, pending.value);
    } else {
      UpsertAnyFollows(dequeued, id, projected);
      RecoveredFollows(c, UpsertIfAny(dequeued, projected), next, id, pending.value, at);
    }
  }

  predicate QueueShrinks(c: Cockpit, next: Cockpit) {
    forall q :: q in next.queue ==> q in c.queue
  }

  lemma SettledFollows(c: Cockpit, written: Cockpit, next: Cockpit, id: RequestId, pending: Option<PendingWithdrawal>)
    requires !HasRecovery(c, id)
    requires RecordsFollow(c, written, id) && QueueShrinks(c, written)
    requires written.draft == c.draft && written.draftRevision == c.draftRevision && written.withdrawal == c.withdrawal
    requires next == written || next == written.(withdrawal := NoWithdrawal)
    requires next != written ==> HasPending(c, id) || (pending.Some? && c.withdrawal.NoWithdrawal?)
    ensures Follows(c, next, id, pending)
  {}

  lemma RestoredFollows(c: Cockpit, written: Cockpit, next: Cockpit, id: RequestId, pending: PendingWithdrawal)
    requires !HasRecovery(c, id)
    requires RecordsFollow(c, written, id) && QueueShrinks(c, written)
    requires RecordOf(c, id).Some? ==> RecordOf(c, id).value.restoredAt.None?
    requires RecordOf(written, id).Some? ==> RecordOf(written, id).value.restoredAt.Some?
    requires c.draftRevision == pending.draftRevision
    requires written.draft == pending.text && written.draftRevision == c.draftRevision + 1
    requires HasPending(c, id) || c.withdrawal.NoWithdrawal?
    requires next == written.(withdrawal := NoWithdrawal)
    ensures Follows(c, next, id, Some(pending))
  {}

  lemma RecoveredFollows(c: Cockpit, written: Cockpit, next: Cockpit, id: RequestId, pending: PendingWithdrawal, at: int)
    requires !c.withdrawal.Recovery?
    requires RecordsFollow(c, written, id) && QueueShrinks(c, written)
    requires RecordOf(written, id).Some? ==> RecordOf(written, id).value.restoredAt.None?
    requires written.draft == c.draft && written.draftRevision == c.draftRevision
    requires c.draftRevision != pending.draftRevision && forall q <- written.queue :: q.requestId != id
    requires next == written.(withdrawal := Recovery(id, pending.text, at))
    ensures Follows(c, next, id, Some(pending))
  {}

  lemma ProjectFollows(
    c: Cockpit, inFlight: bool, id: RequestId, observation: Observation, at: int, owner: bool,
    issued: Option<PendingWithdrawal>)
    requires UniqueIds(c.history) && !HasRecovery(c, id)
    ensures Follows(c, ProjectSettled(c, inFlight, id, observation, at, owner), id, PendingFor(c, id, issued))
  {
    WithoutIdMembers(c.queue, id);
    var record := RecordOf(c, id);
    var projected := if record.Some? then Some(ProjectObservation(record.value, observation, at)) else None;
    UpsertAnyFollows(c, id, projected);
    var written := UpsertIfAny(c, projected);
    var next := ProjectSettled(c, inFlight, id, observation, at, owner);
    SettledFollows(c, if observation == Server(Queued) then written else Dequeue(written, id), next, id, PendingFor(c, id, issued));
  }

  /** While its recovery slot is held, nothing the authority says about a request is applied. */
  lemma RecoveryPreserves(c: Cockpit, id: RequestId, incoming: Observation, v: int)
    requires HasRecovery(c, id)
    ensures Settle(CurrentSnapshot(c, id), incoming, v).Preserve?
  {}

  /** The whole effect of one observation. */
  lemma ApplyFollows(
    c: Cockpit, inFlight: bool, id: RequestId, incoming: Observation, at: int, v: int, owner: bool,
    issued: Option<PendingWithdrawal>)
    requires UniqueIds(c.history)
    requires issued.Some? ==> issued.value.requestId == id && SlotFits(Running(issued.value, Finishing), c.withdrawal)
    ensures Follows(c, ApplyObservation(c, inFlight, id, incoming, at, v, owner, issued), id, PendingFor(c, id, issued))
  {
    if HasRecovery(c, id) { RecoveryPreserves(c, id, incoming, v); }
    var settlement := Settle(CurrentSnapshot(c, id), incoming, v);
    if settlement.Apply? {
      if settlement.observation == Server(Withdrawn) {
        ResolveFollows(c, id, at, issued);
      } else {
        ProjectFollows(c, inFlight, id, settlement.observation, at, owner, issued);
      }
    }
  }

  function Logged(log: seq<RequestId>, id: RequestId, wrote: bool): seq<RequestId> {
    if wrote then log + [id] else log
  }

  /** A step that only `Follows` keeps the invariant. */
  lemma FollowingIsCoherent(
    s: Session, next: Cockpit, operation: Operation, id: RequestId, issued: Option<PendingWithdrawal>)
    requires Coherent(s)
    requires issued.Some? ==> s.operation.Running? && issued.value == s.operation.target && issued.value.requestId == id
    requires Follows(s.cockpit, next, id, PendingFor(s.cockpit, id, issued))
    requires operation.Running? ==> s.operation.Running? && operation.target == s.operation.target
    ensures Coherent(Session(next, operation, s.sent, Logged(s.restored, id, next.draftRevision != s.cockpit.draftRevision)))
  {
    FollowingKeepsRecords(s, next, id, issued);
    FollowingKeepsSlot(s, next, operation, id, issued);
    assert forall x <- Logged(s.restored, id, next.draftRevision != s.cockpit.draftRevision) ::
        x in s.restored || (x == id && PendingFor(s.cockpit, id, issued).Some?);
  }

  lemma FollowingKeepsRecords(s: Session, next: Cockpit, id: RequestId, issued: Option<PendingWithdrawal>)
    requires Coherent(s) && Follows(s.cockpit, next, id, PendingFor(s.cockpit, id, issued))
    ensures forall x :: Find(next.history, x).Some? ==>
      && IsSent(s.sent, x, Find(next.history, x).value.text)
      && RestoreIsRecorded(Find(next.history, x).value,
           Logged(s.restored, id, next.draftRevision != s.cockpit.draftRevision), HasRecovery(next, x))
  {
    var c := s.cockpit;
    var wrote := next.draftRevision != c.draftRevision;
    var log := Logged(s.restored, id, wrote);
    assert forall x :: Times(log, x) == Times(s.restored, x) + if wrote && x == id then 1 else 0;
    forall x | Find(next.history, x).Some?
      ensures IsSent(s.sent, x, Find(next.history, x).value.text)
      ensures RestoreIsRecorded(Find(next.history, x).value, log, HasRecovery(next, x))
    {
      assert Find(c.history, x).Some?;
      assert RestoreIsRecorded(Find(c.history, x).value, s.restored, HasRecovery(c, x));
    }
  }

  lemma FollowingKeepsSlot(
    s: Session, next: Cockpit, operation: Operation, id: RequestId, issued: Option<PendingWithdrawal>)
    requires Coherent(s)
    requires issued.Some? ==> s.operation.Running? && issued.value == s.operation.target && issued.value.requestId == id
    requires SlotFollows(s.cockpit, next, id, PendingFor(s.cockpit, id, issued))
    requires operation.Running? ==> s.operation.Running? && operation.target == s.operation.target
    ensures SlotFits(operation, next.withdrawal)
    ensures next.withdrawal.Pending? ==>
      IsSent(s.sent, next.withdrawal.target.requestId, next.withdrawal.target.text)
    ensures next.withdrawal.Recovery? ==> IsSent(s.sent, next.withdrawal.requestId, next.withdrawal.text)
    ensures PendingFor(s.cockpit, id, issued).Some? ==> id in s.sent
  {
  }

  lemma DeliveryIsCoherent(s: Session, e: Event)
    requires Coherent(s) && DeliveryOf(s, e).Some?
    ensures Coherent(Step(s, e))
    ensures Follows(s.cockpit, CockpitAfter(s, e), DeliveryOf(s, e).value.id,
                    PendingFor(s.cockpit, DeliveryOf(s, e).value.id, IssuedBy(s, DeliveryOf(s, e).value)))
  {
    var d := DeliveryOf(s, e).value;
    assert d.owner ==> s.operation.Running? && d.id == s.operation.target.requestId;
    ApplyFollows(s.cockpit, s.operation.Running?, d.id, d.observation, d.at, d.observedVersion, d.owner, IssuedBy(s, d));
    var next := CockpitAfter(s, e);
    FollowingIsCoherent(s, next, OperationAfter(s, e), d.id, IssuedBy(s, d));
    assert Step(s, e) ==
      Session(next, OperationAfter(s, e), s.sent, Logged(s.restored, d.id, next.draftRevision != s.cockpit.draftRevision));
  }

  lemma RestoreFollows(c: Cockpit, id: RequestId, expected: nat, at: int)
    requires UniqueIds(c.history) && HasRecovery(c, id) && c.draftRevision == expected
    ensures
      var next := RestoreFromSlot(c, id, expected, at);
      && RecordsFollow(c, next, id)
      && next.draft == c.withdrawal.text && next.draftRevision == c.draftRevision + 1
      && next.queue == c.queue && next.withdrawal.NoWithdrawal?
      && (RecordOf(next, id).Some? ==> RecordOf(next, id).value.restoredAt.Some?)
  {
    var record := RecordOf(c, id);
    if record.Some? {
      UpsertFollows(SetComposerDraft(c, c.withdrawal.text), record.value.(restoredAt := Some(at), updatedAt := at));
    }
  }

  lemma DismissFollows(c: Cockpit, id: RequestId, expected: nat, at: int)
    requires UniqueIds(c.history) && HasRecovery(c, id) && c.draftRevision == expected
    ensures
      var next := DismissFromSlot(c, id, expected, at);
      && RecordsFollow(c, next, id)
      && next == c.(history := next.history, withdrawal := NoWithdrawal)
  {
    var record := RecordOf(c, id);
    if record.Some? {
      UpsertFollows(SetWithdrawal(c, NoWithdrawal), record.value.(recoveryDismissedAt := Some(at), updatedAt := at));
    }
  }

  /** A step that changes neither slot nor operation and writes no composer text for a withdrawal. */
  lemma RecordWriteIsCoherent(s: Session, next: Cockpit, operation: Operation, id: RequestId)
    requires Coherent(s) && RecordsFollow(s.cockpit, next, id)
    requires next.queue == s.cockpit.queue
    requires next.withdrawal in {s.cockpit.withdrawal, NoWithdrawal}
    requires RecordOf(next, id).Some? && HasRecovery(next, id) ==>
               (RecordOf(next, id).value.restoredAt.None? <==> RecordOf(s.cockpit, id).value.restoredAt.None?)
    requires operation in {s.operation, Idle}
    ensures Coherent(Session(next, operation, s.sent, s.restored))
  {
    forall x | RecordOf(next, x).Some?
      ensures IsSent(s.sent, x, RecordOf(next, x).value.text)
      ensures RestoreIsRecorded(RecordOf(next, x).value, s.restored, HasRecovery(next, x))
    {
      assert RestoreIsRecorded(RecordOf(s.cockpit, x).value, s.restored, HasRecovery(s.cockpit, x));
    }
  }

  lemma RestoreIsCoherent(s: Session, e: Event)
    requires Coherent(s) && e.RestoreRecovery?
    ensures Coherent(Step(s, e))
  {
    var c := s.cockpit;
    if HasRecovery(c, e.id) && c.draftRevision == e.expectedRevision {
      RestoreFollows(c, e.id, e.expectedRevision, e.at);
      RestoredIsCoherent(s, CockpitAfter(s, e), e.id);
      assert Step(s, e) == Session(CockpitAfter(s, e), s.operation, s.sent, s.restored + [e.id]);
    }
  }

  lemma RestoredIsCoherent(s: Session, next: Cockpit, id: RequestId)
    requires Coherent(s) && HasRecovery(s.cockpit, id)
    requires RecordsFollow(s.cockpit, next, id)
    requires next.queue == s.cockpit.queue && next.withdrawal.NoWithdrawal?
    requires RecordOf(next, id).Some? ==> RecordOf(next, id).value.restoredAt.Some?
    ensures Coherent(Session(next, s.operation, s.sent, s.restored + [id]))
  {
    var c, log := s.cockpit, s.restored + [id];
    assert forall x :: Times(log, x) == Times(s.restored, x) + if x == id then 1 else 0;
    forall x | Find(next.history, x).Some?
      ensures IsSent(s.sent, x, Find(next.history, x).value.text)
      ensures RestoreIsRecorded(Find(next.history, x).value, log, HasRecovery(next, x))
    {
      assert RestoreIsRecorded(Find(c.history, x).value, s.restored, HasRecovery(c, x));
    }
  }

  lemma FreshWriteIsCoherent(s: Session, next: Cockpit, record: SubmitRecord)
    requires Coherent(s) && IsFreshReturn(s, record)
    requires UniqueIds(next.history) && next.withdrawal == s.cockpit.withdrawal
    requires forall x :: x != record.requestId ==> Find(next.history, x) in {Find(s.cockpit.history, x), None}
    requires Find(next.history, record.requestId) in {Some(record), None}
    requires forall q <- next.queue ::
               q in s.cockpit.queue || (q.requestId == record.requestId && q.text == record.text)
    ensures Coherent(Session(next, s.operation, s.sent[record.requestId := record.text], s.restored))
  {
    var id := record.requestId;
    assert Times(s.restored, id) == 0 by { assert id !in s.restored; }
    forall x | Find(next.history, x).Some?
      ensures IsSent(s.sent[id := record.text], x, Find(next.history, x).value.text)
      ensures RestoreIsRecorded(Find(next.history, x).value, s.restored, HasRecovery(next, x))
    {
      if x != id { assert RestoreIsRecorded(Find(s.cockpit.history, x).value, s.restored, HasRecovery(s.cockpit, x)); }
    }
  }

  lemma SubmitIsCoherent(s: Session, e: Event)
    requires Coherent(s) && e.SubmitReturned? && IsFreshReturn(s, e.record)
    ensures Coherent(Step(s, e))
  {
    UpsertFacts(s.cockpit.history, e.record);
    FreshWriteIsCoherent(s, CockpitAfter(s, e), e.record);
  }

  lemma ExpireFollows(c: Cockpit, at: int)
    requires UniqueIds(c.history)
    ensures UniqueIds(ExpireWatches(c, at).history)
    ensures forall id :: Find(ExpireWatches(c, at).history, id) ==
              if Find(c.history, id).Some? then Some(EndgameOf(c, Find(c.history, id).value, at)) else None
  {
    var next := ExpireWatches(c, at);
    forall id ensures IndexOf(next.history, id) == IndexOf(c.history, id) {
      var i, j := IndexOf(next.history, id), IndexOf(c.history, id);
      assert i < |next.history| ==> c.history[i].requestId == id;
      assert j < |c.history| ==> next.history[j].requestId == id;
    }
  }

  /** Steps that write no record. */
  lemma QuietStepIsCoherent(s: Session, e: Event)
    requires Coherent(s)
    requires e.Edit? || e.ClearDraft? || e.WithdrawStarts? || e.WithdrawSettles? || e.DevReset? ||
             (e.WithdrawHears? && DeliveryOf(s, e).None?)
    ensures Coherent(Step(s, e))
  {
  }

  lemma PollStartIsCoherent(s: Session, at: int)
    requires Coherent(s)
    ensures Coherent(Step(s, PollStarts(at)))
  {
    var next := ExpireWatches(s.cockpit, at);
    ExpireFollows(s.cockpit, at);
    forall id | Find(next.history, id).Some?
      ensures IsSent(s.sent, id, Find(next.history, id).value.text)
      ensures RestoreIsRecorded(Find(next.history, id).value, s.restored, HasRecovery(next, id))
    {
      assert RestoreIsRecorded(Find(s.cockpit.history, id).value, s.restored, HasRecovery(s.cockpit, id));
    }
  }

  lemma DismissIsCoherent(s: Session, id: RequestId, expected: nat, at: int)
    requires Coherent(s)
    ensures Coherent(Step(s, DismissRecovery(id, expected, at)))
  {
    var c := s.cockpit;
    if HasRecovery(c, id) && c.draftRevision == expected {
      DismissFollows(c, id, expected, at);
      RecordWriteIsCoherent(s, DismissFromSlot(c, id, expected, at), s.operation, id);
    }
  }

  lemma ReleaseIsCoherent(s: Session, id: RequestId, at: int)
    requires Coherent(s)
    ensures Coherent(Step(s, ReleaseRecord(id, at)))
  {
    var c := s.cockpit;
    if RecordOf(c, id).Some? && RecordOf(c, id).value.phase.EndgamePhase? {
      UpsertFollows(c, ReleaseDraft(RecordOf(c, id).value, at));
      RecordWriteIsCoherent(s, UpsertRecord(c, ReleaseDraft(RecordOf(c, id).value, at)), s.operation, id);
    }
  }

  lemma StepIsCoherent(s: Session, e: Event)
    requires Coherent(s)
    ensures Coherent(Step(s, e))
  {
    if DeliveryOf(s, e).Some? {
      DeliveryIsCoherent(s, e);
    } else {
      match e
      case RestoreRecovery(_, _, _) => RestoreIsCoherent(s, e);
      case SubmitReturned(record) => if IsFreshReturn(s, record) { SubmitIsCoherent(s, e); }
      case PollStarts(at) => PollStartIsCoherent(s, at);
      case DismissRecovery(id, expected, at) => DismissIsCoherent(s, id, expected, at);
      case ReleaseRecord(id, at) => ReleaseIsCoherent(s, id, at);
      case _ => QuietStepIsCoherent(s, e);
    }
  }

  /** Composer and slot after a step that hears nothing: what revisions and queue need to know. */
  lemma QuietStepFits(s: Session, e: Event)
    requires Inv(s) && DeliveryOf(s, e).None?
    ensures RevisionsFit(Step(s, e)) && RecoveryLeftQueue(CockpitAfter(s, e))
  {
    var c := s.cockpit;
    if e.RestoreRecovery? {
      if HasRecovery(c, e.id) && c.draftRevision == e.expectedRevision {
        RestoreFollows(c, e.id, e.expectedRevision, e.at);
      }
    } else if e.DismissRecovery? {
      if HasRecovery(c, e.id) && c.draftRevision == e.expectedRevision {
        DismissFollows(c, e.id, e.expectedRevision, e.at);
      }
    } else {
      OtherQuietStepFits(s, e);
    }
  }

  lemma OtherQuietStepFits(s: Session, e: Event)
    requires Inv(s) && DeliveryOf(s, e).None? && !e.RestoreRecovery? && !e.DismissRecovery?
    ensures RevisionsFit(Step(s, e)) && RecoveryLeftQueue(CockpitAfter(s, e))
  {
  }

  lemma DeliveryFits(s: Session, e: Event)
    requires Inv(s) && DeliveryOf(s, e).Some?
    ensures RevisionsFit(Step(s, e)) && RecoveryLeftQueue(CockpitAfter(s, e))
  {
    DeliveryIsCoherent(s, e);
    var d := DeliveryOf(s, e).value;
    FollowingFits(s.cockpit, CockpitAfter(s, e), s.operation, d.id, IssuedBy(s, d));
  }

  lemma FollowingFits(
    c: Cockpit, next: Cockpit, operation: Operation, id: RequestId, issued: Option<PendingWithdrawal>)
    requires RevisionsFit(Session(c, operation, map[], [])) && RecoveryLeftQueue(c) && SlotFits(operation, c.withdrawal)
    requires issued.Some? ==> operation.Running? && issued.value == operation.target && issued.value.requestId == id
    requires Follows(c, next, id, PendingFor(c, id, issued))
    ensures RevisionsFit(Session(next, operation, map[], [])) && RecoveryLeftQueue(next)
  {
  }

  /** Every step of every session keeps the invariant. */
  lemma StepKeepsInv(s: Session, e: Event)
    requires Inv(s)
    ensures Inv(Step(s, e))
  {
    StepIsCoherent(s, e);
    if DeliveryOf(s, e).Some? { DeliveryFits(s, e); } else { QuietStepFits(s, e); }
  }

  lemma {:induction false} RunKeepsInv(s: Session, events: seq<Event>)
    requires Inv(s)
    ensures Inv(Run(s, events))
    decreases |events|
  {
    if events != [] {
      StepKeepsInv(s, events[0]);
      RunKeepsInv(Step(s, events[0]), events[1..]);
    }
  }
}
