/**
  The session field by field: what each step of polls, withdrawals, edits and recovery choices makes of
  the composer, the withdrawal slot, the running withdrawal and a record, written out by cause.
 */
module SessionSteps {
  import opened Wrappers
  import opened SubmitMachine
  import opened SubmitRetention
  import opened CockpitState
  import opened SubmissionLifecycle
  import opened SubmissionWithdrawal
  import opened WithdrawalSafety
  import opened WithdrawalTheorems
  import EvidenceFold

  // ---------------------------------------------------------------- what an answer is heard to say

  /** Nothing is delivered, or one observation of the target against a record version. */
  predicate Delivers(s: Session, e: Event, observation: Observation, version: int) {
    && s.operation.Running? && e.WithdrawHears?
    && DeliveryOf(s, e) == Some(Delivery(s.operation.target.requestId, observation, version, e.at, true))
  }

  /** The version of the record as it stands; -1 when there is none. */
  function VersionNow(s: Session, id: RequestId): int {
    if RecordOf(s.cockpit, id).Some? then RecordOf(s.cockpit, id).value.lifecycleObservationVersion else -1
  }

  /** A withdraw answer: withdrawn, a state that stands in the way, or no such request. */
  lemma WithdrawAnswerSays(s: Session, e: Event)
    requires e.WithdrawHears? && e.answer.WithdrawAnswer?
    requires s.operation.Running? && (s.operation.waiting.ForWithdraw? || s.operation.waiting.ForRetry?)
    ensures
      var version :=
        if s.operation.waiting.ForWithdraw? then s.operation.waiting.observedVersion
        else VersionNow(s, s.operation.target.requestId);
      match e.answer.outcome
      case Withdrew => Delivers(s, e, Server(Withdrawn), version)
      case WithdrawNotFound => Delivers(s, e, NotFound, version)
      case NotWithdrawable =>
        if e.answer.state.Some? then Delivers(s, e, Server(e.answer.state.value), version) else DeliveryOf(s, e).None?
    ensures OperationAfter(s, e) == Running(s.operation.target, Finishing)
  {
  }

  /**
    A status answer to the follow-up: a held recovery or a state of "queued" is not applied, the latter
    asks for the withdrawal once more; anything else settles the request.
   */
  lemma StatusAnswerSays(s: Session, e: Event)
    requires e.WithdrawHears? && e.answer.StatusAnswer? && s.operation.Running? && s.operation.waiting.ForStatus?
    ensures
      var id, lookup := s.operation.target.requestId, e.answer.lookup;
      if HasRecovery(s.cockpit, id) then
        DeliveryOf(s, e).None? && OperationAfter(s, e) == Running(s.operation.target, Finishing)
      else if lookup == Some(Queued) then
        DeliveryOf(s, e).None? &&
        OperationAfter(s, e) == Running(s.operation.target, ForRetry(s.operation.waiting.observedVersion))
      else
        && Delivers(s, e, if lookup.None? then NotFound else Server(lookup.value), VersionNow(s, id))
        && OperationAfter(s, e) == Running(s.operation.target, Finishing)
  {
  }

  /** An epoch mismatch says the generation is gone; any other failure leads to a status follow-up, once. */
  lemma FailureSays(s: Session, e: Event)
    requires e.WithdrawHears? && s.operation.Running?
    ensures e.answer.EpochMismatch? && !s.operation.waiting.Finishing? ==>
      Delivers(s, e, GenerationLost, s.operation.waiting.observedVersion) &&
      OperationAfter(s, e) == Running(s.operation.target, Finishing)
    ensures e.answer.Failure? ==>
      && DeliveryOf(s, e).None?
      && OperationAfter(s, e) == Running(s.operation.target,
           if s.operation.waiting.ForWithdraw? && !HasRecovery(s.cockpit, s.operation.target.requestId)
           then ForStatus(VersionNow(s, s.operation.target.requestId)) else Finishing)
  {
  }

  /** A withdrawal is under way from its start to its settlement or a reset, and no other step ends it. */
  lemma OperationEnds(s: Session, e: Event)
    requires s.operation.Running? && !e.WithdrawHears?
    ensures OperationAfter(s, e) ==
      if e.DevReset? || (e.WithdrawSettles? && s.operation.waiting.Finishing?) then Idle else s.operation
  {
  }

  // ---------------------------------------------------------------- the withdrawal slot

  /** What the settlement makes of a delivery, if it is applied. */
  function SettledAs(s: Session, d: Delivery): Settlement {
    Settle(CurrentSnapshot(s.cockpit, d.id), d.observation, d.observedVersion)
  }

  /** The slot after a delivery about `d.id`. */
  lemma SlotAfterDelivery(s: Session, e: Event)
    requires Inv(s) && DeliveryOf(s, e).Some?
    ensures
      var d, c, slot := DeliveryOf(s, e).value, s.cockpit, CockpitAfter(s, e).withdrawal;
      var settled, pending := SettledAs(s, d), PendingAt(s, e);
      if HasRecovery(c, d.id) then slot == c.withdrawal
      else if settled == Apply(Server(Withdrawn), false) then
        if pending.None? then slot == c.withdrawal
        else if RecordOf(c, d.id).Some? && RecordOf(c, d.id).value.restoredAt.Some? then slot == NoWithdrawal
        else if c.draftRevision == pending.value.draftRevision then slot == NoWithdrawal
        else slot == Recovery(d.id, pending.value.text, d.at)
      else if HasPending(c, d.id) &&
              (if settled.Preserve? then d.owner
               else settled.observation != Server(Queued) && (d.owner || s.operation.Idle?))
      then slot == NoWithdrawal
      else slot == c.withdrawal
  {
    var d := DeliveryOf(s, e).value;
    assert d.owner ==> d.id == s.operation.target.requestId;
    if HasRecovery(s.cockpit, d.id) { RecoveryPreserves(s.cockpit, d.id, d.observation, d.observedVersion); }
    if SettledAs(s, d).Apply? && SettledAs(s, d).observation == Server(Withdrawn) {
      assert CockpitAfter(s, e) == ResolveWithdrawn(s.cockpit, d.id, d.at, IssuedBy(s, d));
    }
  }

  /** The slot after any other step. */
  lemma SlotAfterOthers(s: Session, e: Event)
    requires DeliveryOf(s, e).None?
    ensures
      var c, slot := s.cockpit, CockpitAfter(s, e).withdrawal;
      if (e.RestoreRecovery? || e.DismissRecovery?) && HasRecovery(c, e.id) && e.expectedRevision == c.draftRevision
      then slot == NoWithdrawal
      else if e.WithdrawStarts? && s.operation.Idle? && c.withdrawal.NoWithdrawal? && c.queue != [] then slot.Pending?
      else slot == c.withdrawal
  {
  }

  // ---------------------------------------------------------------- the composer

  /** The composer after any step: typing, a clear or a restore of the very revision, or a withdrawn text put back. */
  lemma ComposerAfter(s: Session, e: Event)
    requires Inv(s)
    ensures
      var c, next := s.cockpit, CockpitAfter(s, e);
      if e.Edit? then InComposer(c, next, e.text)
      else if e.ClearDraft? && e.revision == c.draftRevision then InComposer(c, next, "")
      else if e.RestoreRecovery? && HasRecovery(c, e.id) && e.expectedRevision == c.draftRevision then
        InComposer(c, next, c.withdrawal.text)
      else if PutsBack(s, e) then InComposer(c, next, PendingAt(s, e).value.text)
      else next.draft == c.draft && next.draftRevision == c.draftRevision
  {
    if DeliveryOf(s, e).Some? { ComposerAfterDelivery(s, e); }
  }

  /** The delivery withdraws a request whose text goes straight back to an untouched composer. */
  predicate PutsBack(s: Session, e: Event) {
    && DeliveryOf(s, e).Some? && AppliesWithdrawn(s, e) && PendingAt(s, e).Some?
    && !(RecordOf(s.cockpit, DeliveryOf(s, e).value.id).Some? &&
         RecordOf(s.cockpit, DeliveryOf(s, e).value.id).value.restoredAt.Some?)
    && s.cockpit.draftRevision == PendingAt(s, e).value.draftRevision
  }

  lemma ComposerAfterDelivery(s: Session, e: Event)
    requires Inv(s) && DeliveryOf(s, e).Some?
    ensures
      var c, next := s.cockpit, CockpitAfter(s, e);
      if PutsBack(s, e) then InComposer(c, next, PendingAt(s, e).value.text)
      else next.draft == c.draft && next.draftRevision == c.draftRevision
  {
    var d := DeliveryOf(s, e).value;
    assert d.owner ==> d.id == s.operation.target.requestId;
    if AppliesWithdrawn(s, e) {
      ResolveComposer(s.cockpit, d.id, d.at, IssuedBy(s, d));
      assert CockpitAfter(s, e) == ResolveWithdrawn(s.cockpit, d.id, d.at, IssuedBy(s, d));
    } else {
      OtherwiseKeepsComposer(s.cockpit, s.operation.Running?, d, IssuedBy(s, d));
    }
  }

  lemma ResolveComposer(c: Cockpit, id: RequestId, at: int, issued: Option<PendingWithdrawal>)
    ensures
      var next, pending := ResolveWithdrawn(c, id, at, issued), PendingFor(c, id, issued);
      if pending.Some? && !(RecordOf(c, id).Some? && RecordOf(c, id).value.restoredAt.Some?) &&
         c.draftRevision == pending.value.draftRevision
      then InComposer(c, next, pending.value.text)
      else next.draft == c.draft && next.draftRevision == c.draftRevision
  {
  }

  lemma OtherwiseKeepsComposer(c: Cockpit, inFlight: bool, d: Delivery, issued: Option<PendingWithdrawal>)
    requires var settled := Settle(CurrentSnapshot(c, d.id), d.observation, d.observedVersion);
      !(settled.Apply? && settled.observation == Server(Withdrawn))
    ensures
      var next := ApplyObservation(c, inFlight, d.id, d.observation, d.at, d.observedVersion, d.owner, issued);
      next.draft == c.draft && next.draftRevision == c.draftRevision
  {
  }

  // ---------------------------------------------------------------- a record

  /** A choice made for a recovered text is marked on its record, and a released record says so. */
  lemma ChoicesAreMarked(s: Session, e: Event)
    requires Inv(s) && (e.RestoreRecovery? || e.DismissRecovery? || e.ReleaseRecord?)
    requires RecordOf(s.cockpit, e.id).Some? && RecordOf(CockpitAfter(s, e), e.id).Some?
    ensures
      var c, before, after := s.cockpit, RecordOf(s.cockpit, e.id).value, RecordOf(CockpitAfter(s, e), e.id).value;
      match e
      case RestoreRecovery(id, expected, at) =>
        after == if HasRecovery(c, id) && expected == c.draftRevision
                 then before.(restoredAt := Some(at), updatedAt := at) else before
      case DismissRecovery(id, expected, at) =>
        after == if HasRecovery(c, id) && expected == c.draftRevision
                 then before.(recoveryDismissedAt := Some(at), updatedAt := at) else before
      case ReleaseRecord(_, at) =>
        after == if before.phase.EndgamePhase?
                 then before.(phase := ReleasedPhase, releasedAt := Some(at), updatedAt := at) else before
      case _ => true
  {
    var c, before := s.cockpit, RecordOf(s.cockpit, e.id).value;
    if e.RestoreRecovery? {
      UpsertFacts(c.history, before.(restoredAt := Some(e.at), updatedAt := e.at));
    } else if e.DismissRecovery? {
      UpsertFacts(c.history, before.(recoveryDismissedAt := Some(e.at), updatedAt := e.at));
    } else {
      UpsertFacts(c.history, before.(phase := ReleasedPhase, releasedAt := Some(e.at), updatedAt := e.at));
    }
  }
}
