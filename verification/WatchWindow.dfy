/**
  When the lifecycle poller gives a record up: a window after its watch began. The watch begins at an
  anchor that never moves once set; without one it slides with every write of the record.
 */
module WatchWindow {
  import opened Wrappers
  import opened SubmitMachine
  import opened SubmitRetention
  import opened CockpitState
  import opened SubmissionLifecycle
  import opened SubmissionWithdrawal
  import opened WithdrawalSafety
  import opened WithdrawalTheorems

  /** The authority has not given its terminal word, and the poller still owns the record. */
  predicate LeftNonTerminal(record: SubmitRecord) {
    && record.serverLifecycleState.Some? && !IsDefinitive(record.serverLifecycleState.value)
    && record.phase in {QueuedPhase, DeliveringPhase, AmbiguousPhase}
  }

  /**
    A poll settles a record that is still non-terminal on the endgame exactly when its window has
    passed and it is neither queued nor being withdrawn; otherwise it leaves the record as it was.
   */
  lemma PollGivesUpExactlyWhen(s: Session, id: RequestId, at: int)
    requires Inv(s) && RecordOf(s.cockpit, id).Some? && LeftNonTerminal(RecordOf(s.cockpit, id).value)
    ensures
      var before, after := RecordOf(s.cockpit, id), RecordOf(Step(s, PollStarts(at)).cockpit, id);
      && after.Some?
      && (after.value.phase.EndgamePhase? <==>
            at - WatchStart(before.value) > LIFECYCLE_WATCH_WINDOW_MS && !InQueueOrPending(s.cockpit, id))
      && (after.value.phase.EndgamePhase? || after == before)
  {
    ExpireFollows(s.cockpit, at);
  }

  /** Before the window has passed since its watch began, no poll touches a record of any kind. */
  lemma NoPollGivesUpEarly(s: Session, id: RequestId, at: int)
    requires Inv(s) && RecordOf(s.cockpit, id).Some?
    requires at - WatchStart(RecordOf(s.cockpit, id).value) <= LIFECYCLE_WATCH_WINDOW_MS
    ensures RecordOf(Step(s, PollStarts(at)).cockpit, id) == RecordOf(s.cockpit, id)
  {
    ExpireFollows(s.cockpit, at);
  }

  // ---------------------------------------------------------------- every write is dated

  /** The time a step carries, for the steps that can rewrite a record. */
  function WriteTime(e: Event, otherwise: int): int {
    match e
    case PollStarts(at) => at
    case PollReports(_, _, _, at) => at
    case WithdrawHears(_, at) => at
    case RestoreRecovery(_, _, at) => at
    case DismissRecovery(_, _, at) => at
    case ReleaseRecord(_, at) => at
    case _ => otherwise
  }

  /** When the record of `id` was last rewritten in a run; `since` when it never was. */
  function LastWrite(s: Session, events: seq<Event>, id: RequestId, since: int): int
    decreases |events|
  {
    if events == [] then since else
    var next := Step(s, events[0]);
    LastWrite(next, events[1..], id,
              if RecordOf(next.cockpit, id) == RecordOf(s.cockpit, id) then since else WriteTime(events[0], since))
  }

  /** A rewritten record carries the time of the step that rewrote it. */
  predicate Dated(before: Option<SubmitRecord>, after: Option<SubmitRecord>, at: int) {
    after.Some? && after != before ==> after.value.updatedAt == at
  }

  lemma ResolvedIsDated(c: Cockpit, id: RequestId, at: int, issued: Option<PendingWithdrawal>)
    requires UniqueIds(c.history) && RecordOf(c, id).Some?
    ensures Dated(RecordOf(c, id), RecordOf(ResolveWithdrawn(c, id, at, issued), id), at)
  {
    ResolveWrites(c, id, at, issued);
  }

  lemma ProjectedIsDated(c: Cockpit, inFlight: bool, id: RequestId, observation: Observation, at: int, owner: bool)
    requires UniqueIds(c.history) && RecordOf(c, id).Some?
    ensures Dated(RecordOf(c, id), RecordOf(ProjectSettled(c, inFlight, id, observation, at, owner), id), at)
  {
    ProjectWrites(c, inFlight, id, observation, at, owner);
  }

  lemma DeliveryIsDated(s: Session, e: Event, id: RequestId)
    requires Inv(s) && DeliveryOf(s, e).Some? && RecordOf(s.cockpit, id).Some?
    ensures Dated(RecordOf(s.cockpit, id), RecordOf(CockpitAfter(s, e), id), WriteTime(e, 0))
  {
    var c, d := s.cockpit, DeliveryOf(s, e).value;
    if d.id != id {
      DeliveryIsCoherent(s, e);
    } else {
      assert d.at == WriteTime(e, 0);
      var settlement := Settle(CurrentSnapshot(c, id), d.observation, d.observedVersion);
      if settlement.Apply? {
        if settlement.observation == Server(Withdrawn) {
          ResolvedIsDated(c, id, d.at, IssuedBy(s, d));
        } else {
          ProjectedIsDated(c, s.operation.Running?, id, settlement.observation, d.at, d.owner);
        }
      }
    }
  }

  lemma RewriteIsDated(history: seq<SubmitRecord>, record: SubmitRecord, id: RequestId, at: int)
    requires UniqueIds(history) && record.updatedAt == at
    ensures Dated(Find(history, id), Find(Upsert(history, record), id), at)
  {
    UpsertFacts(history, record);
  }

  lemma QuietStepIsDated(s: Session, e: Event, id: RequestId)
    requires Inv(s) && DeliveryOf(s, e).None? && RecordOf(s.cockpit, id).Some?
    ensures Dated(RecordOf(s.cockpit, id), RecordOf(CockpitAfter(s, e), id), WriteTime(e, 0))
  {
    var c := s.cockpit;
    match e
    case SubmitReturned(record) => UpsertFacts(c.history, record);
    case PollStarts(at) => ExpireFollows(c, at);
    case RestoreRecovery(x, _, at) =>
      if RecordOf(c, x).Some? {
        RewriteIsDated(c.history, RecordOf(c, x).value.(restoredAt := Some(at), updatedAt := at), id, at);
      }
    case DismissRecovery(x, _, at) =>
      if RecordOf(c, x).Some? {
        RewriteIsDated(c.history, RecordOf(c, x).value.(recoveryDismissedAt := Some(at), updatedAt := at), id, at);
      }
    case ReleaseRecord(x, at) =>
      if RecordOf(c, x).Some? { RewriteIsDated(c.history, ReleaseDraft(RecordOf(c, x).value, at), id, at); }
    case _ =>
  }

  lemma StepIsDated(s: Session, e: Event, id: RequestId)
    requires Inv(s) && RecordOf(s.cockpit, id).Some? && RecordOf(Step(s, e).cockpit, id).Some?
    ensures RecordOf(Step(s, e).cockpit, id).value.updatedAt ==
      if RecordOf(Step(s, e).cockpit, id) == RecordOf(s.cockpit, id) then RecordOf(s.cockpit, id).value.updatedAt
      else WriteTime(e, RecordOf(s.cockpit, id).value.updatedAt)
  {
    if DeliveryOf(s, e).Some? {
      DeliveryIsDated(s, e, id);
    } else {
      QuietStepIsDated(s, e, id);
      UntimedStepsKeepRecord(s, e, id);
    }
  }

  lemma UntimedStepsKeepRecord(s: Session, e: Event, id: RequestId)
    requires Inv(s) && RecordOf(s.cockpit, id).Some? && RecordOf(CockpitAfter(s, e), id).Some?
    ensures RecordOf(CockpitAfter(s, e), id) == RecordOf(s.cockpit, id) || WriteTime(e, 0) == WriteTime(e, 1)
  {
    if e.SubmitReturned? {
      UpsertFacts(s.cockpit.history, e.record);
      assert IsSent(s.sent, id, RecordOf(s.cockpit, id).value.text);
    }
  }

  lemma {:induction false} UpdateIsLastWrite(s: Session, events: seq<Event>, id: RequestId)
    requires Inv(s) && id in s.sent
    requires RecordOf(s.cockpit, id).Some? && RecordOf(Run(s, events).cockpit, id).Some?
    ensures RecordOf(Run(s, events).cockpit, id).value.updatedAt ==
      LastWrite(s, events, id, RecordOf(s.cockpit, id).value.updatedAt)
    decreases |events|
  {
    if events != [] {
      StepKeepsInv(s, events[0]);
      SessionNeverWeakens(Step(s, events[0]), events[1..], id);
      StepIsDated(s, events[0], id);
      UpdateIsLastWrite(Step(s, events[0]), events[1..], id);
    }
  }

  // ---------------------------------------------------------------- where the watch begins

  /** Over any run: at the anchor if the record had one, else at the anchor it got, else at its last write. */
  lemma WatchBegins(s: Session, events: seq<Event>, id: RequestId)
    requires Inv(s) && id in s.sent
    requires RecordOf(s.cockpit, id).Some? && RecordOf(Run(s, events).cockpit, id).Some?
    ensures
      var first, last := RecordOf(s.cockpit, id).value, RecordOf(Run(s, events).cockpit, id).value;
      WatchStart(last) ==
        if first.lifecycleWatchStartedAt.Some? then first.lifecycleWatchStartedAt.value
        else if last.lifecycleWatchStartedAt.Some? then last.lifecycleWatchStartedAt.value
        else LastWrite(s, events, id, first.updatedAt)
  {
    if RecordOf(s.cockpit, id).value.lifecycleWatchStartedAt.Some? {
      WatchAnchorIsFixed(s, events, id);
    } else {
      UpdateIsLastWrite(s, events, id);
    }
  }

  /**
    However the session ran, a poll settles a record left non-terminal on the endgame exactly when the
    window has passed since its watch began and it is neither queued nor being withdrawn.
   */
  lemma ExpiresOnFirstPollAfterWindow(s: Session, events: seq<Event>, id: RequestId, at: int)
    requires Inv(s) && id in s.sent && RecordOf(s.cockpit, id).Some?
    requires RecordOf(Run(s, events).cockpit, id).Some? && LeftNonTerminal(RecordOf(Run(s, events).cockpit, id).value)
    ensures
      var before := Run(s, events);
      var first, last := RecordOf(s.cockpit, id).value, RecordOf(before.cockpit, id).value;
      var began :=
        if first.lifecycleWatchStartedAt.Some? then first.lifecycleWatchStartedAt.value
        else if last.lifecycleWatchStartedAt.Some? then last.lifecycleWatchStartedAt.value
        else LastWrite(s, events, id, first.updatedAt);
      var after := RecordOf(Step(before, PollStarts(at)).cockpit, id);
      && after.Some?
      && (after.value.phase.EndgamePhase? <==>
            at - began > LIFECYCLE_WATCH_WINDOW_MS && !InQueueOrPending(before.cockpit, id))
  {
    WatchBegins(s, events, id);
    RunKeepsInv(s, events);
    PollGivesUpExactlyWhen(Run(s, events), id, at);
  }

  /** The run keeps the record and moves the beginning of its watch. */
  predicate MovesStart(s: Session, events: seq<Event>, id: RequestId) {
    && RecordOf(s.cockpit, id).Some? && RecordOf(Run(s, events).cockpit, id).Some?
    && WatchStart(RecordOf(Run(s, events).cockpit, id).value) != WatchStart(RecordOf(s.cockpit, id).value)
  }

  /** No continuation of the session moves the beginning of the record's watch. */
  ghost predicate StartIsFixed(s: Session, id: RequestId) {
    forall events :: !MovesStart(s, events, id)
  }

  /** A step that rewrites the record at time `at` without changing what it stands for. */
  function Rewriting(s: Session, id: RequestId, at: int): Event
    requires RecordOf(s.cockpit, id).Some? && LeftNonTerminal(RecordOf(s.cockpit, id).value)
  {
    var record := RecordOf(s.cockpit, id).value;
    if HasRecovery(s.cockpit, id) then DismissRecovery(id, s.cockpit.draftRevision, at)
    else PollReports(id, Server(record.serverLifecycleState.value), record.lifecycleObservationVersion, at)
  }

  lemma RewritingMovesStart(s: Session, id: RequestId, at: int)
    requires Inv(s) && RecordOf(s.cockpit, id).Some?
    requires var record := RecordOf(s.cockpit, id).value;
      LeftNonTerminal(record) && record.lifecycleWatchStartedAt.None?
    ensures var after := RecordOf(Step(s, Rewriting(s, id, at)).cockpit, id);
      after.Some? && WatchStart(after.value) == at
  {
    var c := s.cockpit;
    if HasRecovery(c, id) {
      DismissalDates(c, id, at);
      assert CockpitAfter(s, Rewriting(s, id, at)) == DismissFromSlot(c, id, c.draftRevision, at);
    } else {
      RepeatedReportProjects(c, s.operation.Running?, id, at);
      var record := RecordOf(c, id).value;
      assert CockpitAfter(s, Rewriting(s, id, at)) ==
        ApplyObservation(c, s.operation.Running?, id, Server(record.serverLifecycleState.value), at,
                         record.lifecycleObservationVersion, false, None);
    }
  }

  lemma DismissalDates(c: Cockpit, id: RequestId, at: int)
    requires UniqueIds(c.history) && HasRecovery(c, id)
    requires RecordOf(c, id).Some? && LeftNonTerminal(RecordOf(c, id).value)
    ensures RecordOf(DismissFromSlot(c, id, c.draftRevision, at), id) ==
      Some(RecordOf(c, id).value.(recoveryDismissedAt := Some(at), updatedAt := at))
  {
    UpsertFacts(c.history, RecordOf(c, id).value.(recoveryDismissedAt := Some(at), updatedAt := at));
  }

  /** A report that repeats what the record says is applied, at the time it came. */
  lemma RepeatedReportProjects(c: Cockpit, inFlight: bool, id: RequestId, at: int)
    requires UniqueIds(c.history) && !HasRecovery(c, id)
    requires RecordOf(c, id).Some? && LeftNonTerminal(RecordOf(c, id).value)
    ensures var record := RecordOf(c, id).value;
      var state := record.serverLifecycleState.value;
      RecordOf(ApplyObservation(c, inFlight, id, Server(state), at, record.lifecycleObservationVersion, false, None), id) ==
        Some(ProjectLifecycle(record, state, at))
  {
    var record := RecordOf(c, id).value;
    var state := record.serverLifecycleState.value;
    assert Settle(CurrentSnapshot(c, id), Server(state), record.lifecycleObservationVersion) == Apply(Server(state), false);
    UpsertFacts(c.history, ProjectLifecycle(record, state, at));
  }

  /** The watch of a record left non-terminal begins at a fixed time exactly when its anchor is set. */
  lemma StartIsFixedExactlyWhenAnchored(s: Session, id: RequestId)
    requires Inv(s) && id in s.sent
    requires RecordOf(s.cockpit, id).Some? && LeftNonTerminal(RecordOf(s.cockpit, id).value)
    ensures StartIsFixed(s, id) <==> RecordOf(s.cockpit, id).value.lifecycleWatchStartedAt.Some?
  {
    var record := RecordOf(s.cockpit, id).value;
    if record.lifecycleWatchStartedAt.Some? {
      forall events ensures !MovesStart(s, events, id) {
        if RecordOf(Run(s, events).cockpit, id).Some? { WatchAnchorIsFixed(s, events, id); }
      }
    } else {
      var e := Rewriting(s, id, record.updatedAt + 1);
      RewritingMovesStart(s, id, record.updatedAt + 1);
      assert [e][1..] == [];
      assert Run(s, [e]) == Step(s, e);
      assert MovesStart(s, [e], id);
    }
  }

  // ---------------------------------------------------------------- a window that never closes

  /** A background submit that reconciliation found queued: not in the composer's queue, and unanchored. */
  function ReportedQueued(): SubmitRecord {
    StartSubmitRecord("r", "m", "epoch", Background, 0, false, 0).(
      phase := QueuedPhase, serverLifecycleState := Some(Queued))
  }

  /** First reported non-terminal at 0, once more at 100 s: a poll at 200 s still leaves it open. */
  lemma QueuedReportsKeepTheWatchOpen()
    ensures
      var s := Run(START, [SubmitReturned(ReportedQueued()), PollReports("r", Server(Queued), 0, 100_000)]);
      var after := RecordOf(Step(s, PollStarts(200_000)).cockpit, "r");
      && 200_000 - ReportedQueued().updatedAt > LIFECYCLE_WATCH_WINDOW_MS
      && !InQueueOrPending(s.cockpit, "r")
      && after.Some? && LeftNonTerminal(after.value)
  {
    var first, second := SubmitReturned(ReportedQueued()), PollReports("r", Server(Queued), 0, 100_000);
    assert [first, second][1..] == [second] && [second][1..] == [];
    assert Run(START, [first, second]) == Run(Step(START, first), [second]) == Step(Step(START, first), second);
    RunKeepsInv(START, [first, second]);
    var returned := Returned();
    ReportedAgain(returned);
    NoPollGivesUpEarly(Step(returned, second), "r", 200_000);
  }

  lemma Returned() returns (s: Session)
    ensures s == Step(START, SubmitReturned(ReportedQueued()))
    ensures s.cockpit.queue == [] && s.cockpit.withdrawal.NoWithdrawal? && s.operation.Idle?
    ensures UniqueIds(s.cockpit.history) && Find(s.cockpit.history, "r") == Some(ReportedQueued())
  {
    UpsertFacts([], ReportedQueued());
    s := Step(START, SubmitReturned(ReportedQueued()));
  }

  lemma ReportedAgain(s: Session)
    requires s.cockpit.queue == [] && s.cockpit.withdrawal.NoWithdrawal? && s.operation.Idle?
    requires UniqueIds(s.cockpit.history) && Find(s.cockpit.history, "r") == Some(ReportedQueued())
    ensures var next := Step(s, PollReports("r", Server(Queued), 0, 100_000)).cockpit;
      RecordOf(next, "r") == Some(ProjectLifecycle(ReportedQueued(), Queued, 100_000)) && !InQueueOrPending(next, "r")
  {
    RepeatedReportProjects(s.cockpit, false, "r", 100_000);
  }
}
