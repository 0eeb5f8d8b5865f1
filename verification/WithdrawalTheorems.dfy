/** What the withdrawal protocol promises its user, over every run. */
module WithdrawalTheorems {
  import opened Wrappers
  import opened SubmitMachine
  import opened SubmitRetention
  import opened CockpitState
  import opened SubmissionLifecycle
  import opened SubmissionWithdrawal
  import opened WithdrawalSafety
  import EvidenceFold

  /** A step that tells the cockpit, about a request that is being withdrawn, that it is withdrawn. */
  predicate AppliesWithdrawn(s: Session, e: Event) {
    && DeliveryOf(s, e).Some?
    && var d := DeliveryOf(s, e).value;
       var settlement := Settle(CurrentSnapshot(s.cockpit, d.id), d.observation, d.observedVersion);
       settlement.Apply? && settlement.observation == Server(Withdrawn)
  }

  function PendingAt(s: Session, e: Event): Option<PendingWithdrawal>
    requires DeliveryOf(s, e).Some?
  {
    PendingFor(s.cockpit, DeliveryOf(s, e).value.id, IssuedBy(s, DeliveryOf(s, e).value))
  }

  predicate InComposer(before: Cockpit, after: Cockpit, text: string) {
    after.draft == text && after.draftRevision == before.draftRevision + 1
  }

  /**
    Applying "withdrawn" to a request with a pending withdrawal puts the exact submitted text into
    the composer if its revision is still the captured one, and into the recovery slot otherwise;
    unless the record says the text went back before.
   */
  lemma WithdrawnTextIsPlaced(s: Session, e: Event)
    requires Inv(s) && AppliesWithdrawn(s, e) && PendingAt(s, e).Some?
    ensures
      var id, c, next := DeliveryOf(s, e).value.id, s.cockpit, CockpitAfter(s, e);
      var text := PendingAt(s, e).value.text;
      && IsSent(s.sent, id, text)
      && ((RecordOf(c, id).Some? && RecordOf(c, id).value.restoredAt.Some?) ||
          if c.draftRevision == PendingAt(s, e).value.draftRevision
          then InComposer(c, next, text) && next.withdrawal.NoWithdrawal?
          else HasRecovery(next, id) && next.withdrawal.text == text && next.draft == c.draft)
  {
    var d := DeliveryOf(s, e).value;
    assert d.owner ==> d.id == s.operation.target.requestId;
    var next := CockpitAfter(s, e);
    assert next == ResolveWithdrawn(s.cockpit, d.id, d.at, IssuedBy(s, d));
    if !(RecordOf(s.cockpit, d.id).Some? && RecordOf(s.cockpit, d.id).value.restoredAt.Some?) {
      ResolvePlaces(s.cockpit, d.id, d.at, IssuedBy(s, d), PendingAt(s, e).value);
    }
  }

  lemma ResolvePlaces(
    c: Cockpit, id: RequestId, at: int, issued: Option<PendingWithdrawal>, pending: PendingWithdrawal)
    requires SelectPending(c, id, issued) == Some(pending) && pending.requestId == id
    requires RecordOf(c, id).Some? ==> RecordOf(c, id).value.restoredAt.None?
    ensures
      var next := ResolveWithdrawn(c, id, at, issued);
      if c.draftRevision == pending.draftRevision
      then InComposer(c, next, pending.text) && next.withdrawal.NoWithdrawal?
      else HasRecovery(next, id) && next.withdrawal.text == pending.text && next.draft == c.draft
  {}

  /** Whatever a withdrawal writes into the composer is the text submitted under that very id. */
  lemma WrittenTextIsExact(s: Session, e: Event)
    requires Inv(s) && WritesComposer(s, e)
    ensures WithdrawnRequest(s, e).value in s.sent
    ensures CockpitAfter(s, e).draft == s.sent[WithdrawnRequest(s, e).value]
  {
    if e.RestoreRecovery? {
      RestoreFollows(s.cockpit, e.id, e.expectedRevision, e.at);
    } else {
      DeliveryIsCoherent(s, e);
    }
  }

  /** While its record is retained, a withdrawn text reaches the composer at most once in a run. */
  lemma WrittenAtMostOnce(events: seq<Event>, id: RequestId)
    ensures RecordOf(Run(START, events).cockpit, id).Some? ==> Times(Run(START, events).restored, id) <= 1
  {
    RunKeepsInv(START, events);
  }

  predicate ResolvesRecovery(e: Event, id: RequestId) {
    (e.RestoreRecovery? || e.DismissRecovery?) && e.id == id
  }

  /** A step empties a held recovery exactly when the user restores or dismisses it at the revision shown. */
  lemma RecoveryEmptiesOnlyByChoice(s: Session, e: Event, id: RequestId)
    requires Inv(s) && HasRecovery(s.cockpit, id)
    ensures CockpitAfter(s, e).withdrawal == s.cockpit.withdrawal
            <==> !(ResolvesRecovery(e, id) && e.expectedRevision == s.cockpit.draftRevision)
    ensures CockpitAfter(s, e).withdrawal in {s.cockpit.withdrawal, NoWithdrawal}
  {
    var c := s.cockpit;
    if DeliveryOf(s, e).Some? {
      DeliveryIsCoherent(s, e);
      var d := DeliveryOf(s, e).value;
      assert d.owner ==> d.id == s.operation.target.requestId;
    } else if e.RestoreRecovery? && HasRecovery(c, e.id) && c.draftRevision == e.expectedRevision {
      RestoreFollows(c, e.id, e.expectedRevision, e.at);
    } else if e.DismissRecovery? && HasRecovery(c, e.id) && c.draftRevision == e.expectedRevision {
      DismissFollows(c, e.id, e.expectedRevision, e.at);
    }
  }

  /** Over a run, a withdrawn text that was kept for recovery is still there until the user chose. */
  lemma {:induction false} RecoveryIsNeverLost(s: Session, events: seq<Event>, id: RequestId)
    requires Inv(s) && HasRecovery(s.cockpit, id)
    requires forall e <- events :: !ResolvesRecovery(e, id)
    ensures Run(s, events).cockpit.withdrawal == s.cockpit.withdrawal
    decreases |events|
  {
    if events != [] {
      assert events[0] in events;
      RecoveryEmptiesOnlyByChoice(s, events[0], id);
      StepKeepsInv(s, events[0]);
      RecoveryIsNeverLost(Step(s, events[0]), events[1..], id);
    }
  }

  /**
    What may change the draft on screen: typing, a returned submit that clears the very revision it
    sent, a restore pressed at the revision shown; and a fresh withdrawal, which captures that revision.
   */
  predicate TouchesComposer(s: Session, e: Event) {
    || e.Edit?
    || (e.ClearDraft? && e.revision == s.cockpit.draftRevision)
    || (e.RestoreRecovery? && HasRecovery(s.cockpit, e.id) && e.expectedRevision == s.cockpit.draftRevision)
    || (e.WithdrawStarts? && s.operation.Idle? && !s.cockpit.withdrawal.Pending?)
  }

  /**
    A run without such a step. Late returns of earlier submits, restores at an outdated revision, and
    open withdrawals, resumed or not, may come in any number.
   */
  predicate LeavesComposer(s: Session, events: seq<Event>)
    decreases |events|
  {
    events == [] || (!TouchesComposer(s, events[0]) && LeavesComposer(Step(s, events[0]), events[1..]))
  }

  /** Every captured revision is older than the draft on screen. */
  predicate DraftIsNewer(s: Session) {
    && (s.cockpit.withdrawal.Pending? ==> s.cockpit.withdrawal.target.draftRevision < s.cockpit.draftRevision)
    && (s.operation.Running? ==> s.operation.target.draftRevision < s.cockpit.draftRevision)
  }

  /** An edit makes the draft newer than whatever open withdrawals captured. */
  lemma EditMakesDraftNewer(s: Session, text: string)
    requires Inv(s)
    ensures DraftIsNewer(Step(s, Edit(text)))
    ensures Step(s, Edit(text)).cockpit.draft == text
  {}

  lemma NewerDraftStep(s: Session, e: Event)
    requires Inv(s) && DraftIsNewer(s) && !TouchesComposer(s, e)
    ensures CockpitAfter(s, e).draft == s.cockpit.draft
    ensures CockpitAfter(s, e).draftRevision == s.cockpit.draftRevision
    ensures DraftIsNewer(Step(s, e))
  {
    if DeliveryOf(s, e).Some? {
      DeliveryIsCoherent(s, e);
      assert DeliveryOf(s, e).value.owner ==> DeliveryOf(s, e).value.id == s.operation.target.requestId;
    } else if e.DismissRecovery? && HasRecovery(s.cockpit, e.id) && s.cockpit.draftRevision == e.expectedRevision {
      DismissFollows(s.cockpit, e.id, e.expectedRevision, e.at);
    }
  }

  /** No poll, withdrawal answer, late clear or outdated restore overwrites a draft newer than the captured one. */
  lemma {:induction false} NewerDraftSurvives(s: Session, events: seq<Event>)
    requires Inv(s) && DraftIsNewer(s) && LeavesComposer(s, events)
    ensures Run(s, events).cockpit.draft == s.cockpit.draft
    ensures Run(s, events).cockpit.draftRevision == s.cockpit.draftRevision
    decreases |events|
  {
    if events != [] {
      NewerDraftStep(s, events[0]);
      StepKeepsInv(s, events[0]);
      NewerDraftSurvives(Step(s, events[0]), events[1..]);
    }
  }

  lemma {:induction false} RunConcat(s: Session, a: seq<Event>, b: seq<Event>)
    ensures Run(s, a + b) == Run(Run(s, a), b)
    decreases |a|
  {
    if a == [] {
      assert a + b == b;
    } else {
      RunConcat(Step(s, a[0]), a[1..], b);
      assert (a + b)[0] == a[0] && (a + b)[1..] == a[1..] + b;
    }
  }

  /**
    In every session, what the user typed last stays on screen, however polls, returning submits, open
    withdrawals and outdated restores go on, until a step meant for that very revision comes.
   */
  lemma TypingSurvives(before: seq<Event>, text: string, after: seq<Event>)
    requires LeavesComposer(Run(START, before + [Edit(text)]), after)
    ensures Run(START, before + [Edit(text)] + after).cockpit.draft == text
  {
    var s := Run(START, before);
    RunKeepsInv(START, before);
    RunConcat(START, before + [Edit(text)], after);
    RunConcat(START, before, [Edit(text)]);
    assert Run(s, [Edit(text)]) == Step(s, Edit(text)) by { assert [Edit(text)][1..] == []; }
    EditMakesDraftNewer(s, text);
    StepKeepsInv(s, Edit(text));
    NewerDraftSurvives(Step(s, Edit(text)), after);
  }

  /** The evidence a retained record holds, seen from the session. */
  function EvidenceHeld(s: Session, id: RequestId): set<Evidence> {
    var record := RecordOf(s.cockpit, id);
    if record.None? then {} else EvidenceFold.RecordEvidence(record.value)
  }

  ghost predicate NotWeaker(before: set<Evidence>, after: set<Evidence>) {
    && (before != {} ==> after != {})
    && forall b <- before, a <- after :: EvidenceFold.Below(b, a)
  }

  lemma ResolveWrites(c: Cockpit, id: RequestId, at: int, issued: Option<PendingWithdrawal>)
    requires UniqueIds(c.history) && RecordOf(c, id).Some?
    ensures
      var projected := ProjectLifecycle(RecordOf(c, id).value, Withdrawn, at);
      RecordOf(ResolveWithdrawn(c, id, at, issued), id) in
        {None, Some(projected), Some(projected.(restoredAt := Some(at)))}
  {
    var projected := ProjectLifecycle(RecordOf(c, id).value, Withdrawn, at);
    var next := ResolveWithdrawn(c, id, at, issued);
    UpsertFacts(c.history, projected);
    UpsertFacts(c.history, projected.(restoredAt := Some(at)));
    assert next.history in {Upsert(c.history, projected), Upsert(c.history, projected.(restoredAt := Some(at)))};
  }

  lemma ProjectWrites(c: Cockpit, inFlight: bool, id: RequestId, observation: Observation, at: int, owner: bool)
    requires UniqueIds(c.history) && RecordOf(c, id).Some?
    ensures
      RecordOf(ProjectSettled(c, inFlight, id, observation, at, owner), id) in
        {None, Some(ProjectObservation(RecordOf(c, id).value, observation, at))}
  {
    UpsertFacts(c.history, ProjectObservation(RecordOf(c, id).value, observation, at));
  }

  /** What a report does to a record it finds, apart from the mark that its text went back. */
  ghost predicate ReceivedBy(before: SubmitRecord, after: SubmitRecord, d: Delivery) {
    after == EvidenceFold.Receive(before, EvidenceFold.Report(d.observation, d.observedVersion, d.at))
             .(restoredAt := after.restoredAt)
  }

  /** A delivered observation reaches the record through the settlement alone. */
  lemma DeliveryIsSettled(s: Session, e: Event)
    requires Inv(s) && DeliveryOf(s, e).Some?
    requires RecordOf(s.cockpit, DeliveryOf(s, e).value.id).Some?
    ensures
      var d := DeliveryOf(s, e).value;
      var before, after := RecordOf(s.cockpit, d.id), RecordOf(CockpitAfter(s, e), d.id);
      after.Some? ==>
        if HasRecovery(s.cockpit, d.id) then after == before else ReceivedBy(before.value, after.value, d)
  {
    var d, c := DeliveryOf(s, e).value, s.cockpit;
    if HasRecovery(c, d.id) {
      RecoveryPreserves(c, d.id, d.observation, d.observedVersion);
    } else {
      var settlement := Settle(SnapshotOf(RecordOf(c, d.id)), d.observation, d.observedVersion);
      if settlement.Apply? {
        if settlement.observation == Server(Withdrawn) {
          ResolveWrites(c, d.id, d.at, IssuedBy(s, d));
        } else {
          ProjectWrites(c, s.operation.Running?, d.id, settlement.observation, d.at, d.owner);
        }
      }
    }
  }

  /** What a record knows of the authority: its observation with version, and its watch anchor. */
  function Known(record: Option<SubmitRecord>): (Option<ObservationSnapshot>, int, Option<int>) {
    (SnapshotOf(record), ObservationVersion(record), if record.Some? then record.value.lifecycleWatchStartedAt else None)
  }

  /** Writing a record with the same observation changes no observation. */
  lemma RewriteKeepsEvidence(history: seq<SubmitRecord>, record: SubmitRecord, id: RequestId)
    requires UniqueIds(history)
    requires Known(Some(record)) == Known(Find(history, record.requestId))
    ensures Find(Upsert(history, record), id).Some? ==>
              Known(Find(Upsert(history, record), id)) == Known(Find(history, id))
  {
    UpsertFacts(history, record);
  }

  /** Every other step leaves the evidence of a record that stays retained as it was. */
  lemma OtherStepsKeepEvidence(s: Session, e: Event, id: RequestId)
    requires Inv(s)
    requires DeliveryOf(s, e).None? || DeliveryOf(s, e).value.id != id
    requires RecordOf(s.cockpit, id).Some? && RecordOf(CockpitAfter(s, e), id).Some?
    ensures Known(RecordOf(CockpitAfter(s, e), id)) == Known(RecordOf(s.cockpit, id))
  {
    if DeliveryOf(s, e).Some? {
      DeliveryIsCoherent(s, e);
    } else {
      QuietStepsKeepEvidence(s, e, id);
    }
  }

  lemma ExpiryKeepsEvidence(c: Cockpit, at: int, id: RequestId)
    requires UniqueIds(c.history)
    ensures Known(RecordOf(ExpireWatches(c, at), id)) == Known(RecordOf(c, id))
  {
    ExpireFollows(c, at);
  }

  lemma QuietStepsKeepEvidence(s: Session, e: Event, id: RequestId)
    requires Inv(s) && DeliveryOf(s, e).None?
    requires RecordOf(s.cockpit, id).Some? && RecordOf(CockpitAfter(s, e), id).Some?
    ensures Known(RecordOf(CockpitAfter(s, e), id)) == Known(RecordOf(s.cockpit, id))
  {
    var c := s.cockpit;
    if e.SubmitReturned? {
      UpsertFacts(c.history, e.record);
    } else if e.PollStarts? {
      ExpiryKeepsEvidence(c, e.at, id);
    } else {
      match e
      case RestoreRecovery(_, _, _) => RestoreKeepsEvidence(c, e.id, e.expectedRevision, e.at, id);
      case DismissRecovery(_, _, _) => DismissKeepsEvidence(c, e.id, e.expectedRevision, e.at, id);
      case ReleaseRecord(x, at) =>
        if RecordOf(c, x).Some? && RecordOf(c, x).value.phase.EndgamePhase? {
          RewriteKeepsEvidence(c.history, ReleaseDraft(RecordOf(c, x).value, at), id);
        }
      case _ =>
    }
  }

  lemma RestoreKeepsEvidence(c: Cockpit, x: RequestId, expected: nat, at: int, id: RequestId)
    requires UniqueIds(c.history)
    ensures RecordOf(RestoreFromSlot(c, x, expected, at), id).Some? ==>
              Known(RecordOf(RestoreFromSlot(c, x, expected, at), id)) == Known(RecordOf(c, id))
  {
    if RecordOf(c, x).Some? {
      RewriteKeepsEvidence(c.history, RecordOf(c, x).value.(restoredAt := Some(at), updatedAt := at), id);
    }
  }

  lemma DismissKeepsEvidence(c: Cockpit, x: RequestId, expected: nat, at: int, id: RequestId)
    requires UniqueIds(c.history)
    ensures RecordOf(DismissFromSlot(c, x, expected, at), id).Some? ==>
              Known(RecordOf(DismissFromSlot(c, x, expected, at), id)) == Known(RecordOf(c, id))
  {
    if RecordOf(c, x).Some? {
      RewriteKeepsEvidence(c.history, RecordOf(c, x).value.(recoveryDismissedAt := Some(at), updatedAt := at), id);
    }
  }

  /** A record once evicted, or never submitted, does not appear by itself. */
  lemma RecordsComeFromSubmits(s: Session, e: Event, id: RequestId)
    requires Inv(s) && RecordOf(s.cockpit, id).None? && id in s.sent
    ensures RecordOf(CockpitAfter(s, e), id).None?
  {
    var c := s.cockpit;
    if DeliveryOf(s, e).Some? {
      DeliveryIsCoherent(s, e);
    } else {
      match e
      case SubmitReturned(r) => UpsertFacts(c.history, r);
      case PollStarts(at) => ExpireFollows(c, at);
      case RestoreRecovery(x, expected, at) =>
        if HasRecovery(c, x) && c.draftRevision == expected { RestoreFollows(c, x, expected, at); }
      case DismissRecovery(x, expected, at) =>
        if HasRecovery(c, x) && c.draftRevision == expected { DismissFollows(c, x, expected, at); }
      case ReleaseRecord(x, at) =>
        if RecordOf(c, x).Some? { UpsertFacts(c.history, ReleaseDraft(RecordOf(c, x).value, at)); }
      case _ =>
    }
  }

  lemma StepNeverWeakens(s: Session, e: Event, id: RequestId)
    requires Inv(s)
    requires RecordOf(s.cockpit, id).Some? && RecordOf(CockpitAfter(s, e), id).Some?
    ensures NotWeaker(EvidenceHeld(s, id), EvidenceHeld(Step(s, e), id))
  {
    EvidenceFold.BelowIsPartialOrder();
    if DeliveryOf(s, e).Some? && DeliveryOf(s, e).value.id == id {
      DeliveryIsSettled(s, e);
      var d := DeliveryOf(s, e).value;
      var report := EvidenceFold.Report(d.observation, d.observedVersion, d.at);
      EvidenceFold.FoldNeverWeakens(RecordOf(s.cockpit, id).value, [report]);
      assert EvidenceFold.Fold(RecordOf(s.cockpit, id).value, [report]) ==
             EvidenceFold.Receive(RecordOf(s.cockpit, id).value, report);
    } else {
      OtherStepsKeepEvidence(s, e, id);
    }
  }

  /** Whatever a session does, the evidence of a record that is still retained at the end never weakened. */
  lemma {:induction false} SessionNeverWeakens(s: Session, events: seq<Event>, id: RequestId)
    requires Inv(s) && id in s.sent
    requires RecordOf(Run(s, events).cockpit, id).Some?
    ensures RecordOf(s.cockpit, id).Some?
    ensures NotWeaker(EvidenceHeld(s, id), EvidenceHeld(Run(s, events), id))
    decreases |events|
  {
    EvidenceFold.BelowIsPartialOrder();
    if events != [] {
      var next := Step(s, events[0]);
      StepKeepsInv(s, events[0]);
      SessionNeverWeakens(next, events[1..], id);
      if RecordOf(s.cockpit, id).None? { RecordsComeFromSubmits(s, events[0], id); }
      StepNeverWeakens(s, events[0], id);
      NotWeakerChains(EvidenceHeld(s, id), EvidenceHeld(next, id), EvidenceHeld(Run(s, events), id));
    }
  }

  lemma NotWeakerChains(a: set<Evidence>, b: set<Evidence>, c: set<Evidence>)
    requires NotWeaker(a, b) && NotWeaker(b, c)
    ensures NotWeaker(a, c)
  {
    EvidenceFold.BelowIsPartialOrder();
    forall x <- a, z <- c ensures EvidenceFold.Below(x, z) {
      var y :| y in b;
      assert EvidenceFold.Below(x, y) && EvidenceFold.Below(y, z);
    }
  }

  predicate HoldsState(s: Session, id: RequestId, state: LifecycleState) {
    RecordOf(s.cockpit, id).Some? && EvidenceFold.Holds(RecordOf(s.cockpit, id).value, Server(state))
  }

  predicate AgreesAt(delivery: Option<Delivery>, id: RequestId, state: LifecycleState) {
    delivery.Some? && delivery.value.id == id && EvidenceOf(delivery.value.observation).DefinitiveEvidence? ==>
      delivery.value.observation == Server(state)
  }

  /** Every definitive thing the run delivers about `id` is one and the same state. */
  predicate AgreesOn(s: Session, events: seq<Event>, id: RequestId, state: LifecycleState)
    decreases |events|
  {
    events == [] ||
    (AgreesAt(DeliveryOf(s, events[0]), id, state) && AgreesOn(Step(s, events[0]), events[1..], id, state))
  }

  lemma DefinitiveStep(s: Session, e: Event, id: RequestId, state: LifecycleState)
    requires Inv(s) && IsDefinitive(state) && HoldsState(s, id, state)
    requires AgreesAt(DeliveryOf(s, e), id, state)
    requires RecordOf(CockpitAfter(s, e), id).Some?
    ensures HoldsState(Step(s, e), id, state)
  {
    if DeliveryOf(s, e).Some? && DeliveryOf(s, e).value.id == id {
      DeliveryIsSettled(s, e);
      var d := DeliveryOf(s, e).value;
      var report := EvidenceFold.Report(d.observation, d.observedVersion, d.at);
      EvidenceFold.DefinitiveIsKept(RecordOf(s.cockpit, id).value, report, state);
    } else {
      OtherStepsKeepEvidence(s, e, id);
    }
  }

  /** When the authority never contradicts itself, the word it once gave is kept for the whole session. */
  lemma {:induction false} DefinitiveWordIsKept(s: Session, events: seq<Event>, id: RequestId, state: LifecycleState)
    requires Inv(s) && id in s.sent && IsDefinitive(state) && HoldsState(s, id, state)
    requires AgreesOn(s, events, id, state)
    requires RecordOf(Run(s, events).cockpit, id).Some?
    ensures HoldsState(Run(s, events), id, state)
    decreases |events|
  {
    if events != [] {
      var next := Step(s, events[0]);
      StepKeepsInv(s, events[0]);
      SessionNeverWeakens(next, events[1..], id);
      DefinitiveStep(s, events[0], id, state);
      DefinitiveWordIsKept(next, events[1..], id, state);
    }
  }

  lemma AnchorStep(s: Session, e: Event, id: RequestId)
    requires Inv(s) && id in s.sent
    requires RecordOf(s.cockpit, id).Some? && RecordOf(s.cockpit, id).value.lifecycleWatchStartedAt.Some?
    requires RecordOf(Step(s, e).cockpit, id).Some?
    ensures RecordOf(Step(s, e).cockpit, id).value.lifecycleWatchStartedAt ==
            RecordOf(s.cockpit, id).value.lifecycleWatchStartedAt
  {
    if DeliveryOf(s, e).Some? && DeliveryOf(s, e).value.id == id {
      DeliveryIsSettled(s, e);
    } else {
      OtherStepsKeepEvidence(s, e, id);
    }
  }

  /** The watch anchor of a retained record, once set, never moves. */
  lemma {:induction false} WatchAnchorIsFixed(s: Session, events: seq<Event>, id: RequestId)
    requires Inv(s) && id in s.sent
    requires RecordOf(s.cockpit, id).Some? && RecordOf(s.cockpit, id).value.lifecycleWatchStartedAt.Some?
    requires RecordOf(Run(s, events).cockpit, id).Some?
    ensures RecordOf(Run(s, events).cockpit, id).value.lifecycleWatchStartedAt ==
            RecordOf(s.cockpit, id).value.lifecycleWatchStartedAt
    decreases |events|
  {
    if events != [] {
      var e := events[0];
      StepKeepsInv(s, e);
      SessionNeverWeakens(Step(s, e), events[1..], id);
      AnchorStep(s, e, id);
      WatchAnchorIsFixed(Step(s, e), events[1..], id);
    }
  }

  // ---------------------------------------------------------------- order of reports within a session

  /** The reports about `id` that reach its record in a run: all but those its held recovery preempts. */
  function ReportsOn(s: Session, events: seq<Event>, id: RequestId): seq<EvidenceFold.Report>
    decreases |events|
  {
    if events == [] then [] else
    var d := DeliveryOf(s, events[0]);
    (if d.Some? && d.value.id == id && !HasRecovery(s.cockpit, id)
     then [EvidenceFold.Report(d.value.observation, d.value.observedVersion, d.value.at)] else []) +
    ReportsOn(Step(s, events[0]), events[1..], id)
  }

  /** Two records with the same observation and version. */
  predicate SameStanding(a: SubmitRecord, b: SubmitRecord) {
    SnapshotOf(Some(a)) == SnapshotOf(Some(b)) && a.lifecycleObservationVersion == b.lifecycleObservationVersion
  }

  lemma ReceiveKeepsStanding(a: SubmitRecord, b: SubmitRecord, report: EvidenceFold.Report)
    requires SameStanding(a, b)
    ensures SameStanding(EvidenceFold.Receive(a, report), EvidenceFold.Receive(b, report))
  {
  }

  /** What one step leaves of a record's standing. */
  lemma StepStanding(s: Session, e: Event, id: RequestId)
    requires Inv(s) && RecordOf(s.cockpit, id).Some? && RecordOf(CockpitAfter(s, e), id).Some?
    ensures var record, d := RecordOf(s.cockpit, id).value, DeliveryOf(s, e);
      SameStanding(RecordOf(CockpitAfter(s, e), id).value,
        if d.Some? && d.value.id == id && !HasRecovery(s.cockpit, id)
        then EvidenceFold.Receive(record, EvidenceFold.Report(d.value.observation, d.value.observedVersion, d.value.at))
        else record)
  {
    if DeliveryOf(s, e).Some? && DeliveryOf(s, e).value.id == id {
      DeliveryIsSettled(s, e);
    } else {
      OtherStepsKeepEvidence(s, e, id);
    }
  }

  /** A session's record stands where the fold of its reports puts it, whatever happened in between. */
  lemma {:induction false} SessionFoldsReports(s: Session, events: seq<Event>, id: RequestId, twin: SubmitRecord)
    requires Inv(s) && id in s.sent
    requires RecordOf(Run(s, events).cockpit, id).Some?
    requires RecordOf(s.cockpit, id).Some? && SameStanding(RecordOf(s.cockpit, id).value, twin)
    ensures SameStanding(RecordOf(Run(s, events).cockpit, id).value, EvidenceFold.Fold(twin, ReportsOn(s, events, id)))
    decreases |events|
  {
    if events != [] {
      var e, next := events[0], Step(s, events[0]);
      StepKeepsInv(s, e);
      SessionNeverWeakens(next, events[1..], id);
      StepStanding(s, e, id);
      FoldStep(s, events, id, twin);
      var d := DeliveryOf(s, e);
      if d.Some? && d.value.id == id && !HasRecovery(s.cockpit, id) {
        var report := EvidenceFold.Report(d.value.observation, d.value.observedVersion, d.value.at);
        ReceiveKeepsStanding(RecordOf(s.cockpit, id).value, twin, report);
        SessionFoldsReports(next, events[1..], id, EvidenceFold.Receive(twin, report));
      } else {
        SessionFoldsReports(next, events[1..], id, twin);
      }
    }
  }

  lemma FoldStep(s: Session, events: seq<Event>, id: RequestId, twin: SubmitRecord)
    requires events != []
    ensures var d := DeliveryOf(s, events[0]);
      var rest := ReportsOn(Step(s, events[0]), events[1..], id);
      EvidenceFold.Fold(twin, ReportsOn(s, events, id)) ==
        if d.Some? && d.value.id == id && !HasRecovery(s.cockpit, id)
        then EvidenceFold.Fold(EvidenceFold.Receive(twin,
               EvidenceFold.Report(d.value.observation, d.value.observedVersion, d.value.at)), rest)
        else EvidenceFold.Fold(twin, rest)
  {
    var d := DeliveryOf(s, events[0]);
    var rest := ReportsOn(Step(s, events[0]), events[1..], id);
    if d.Some? && d.value.id == id && !HasRecovery(s.cockpit, id) {
      var report := EvidenceFold.Report(d.value.observation, d.value.observedVersion, d.value.at);
      assert ([report] + rest)[1..] == rest;
    } else {
      assert [] + rest == rest;
    }
  }

  /**
    Two sessions from one state, with their polls and withdrawal answers interleaved in any way, leave
    a record that both retain with the same evidence, when they heard the same and nothing stale.
   */
  lemma SessionOrderIndependent(s: Session, first: seq<Event>, second: seq<Event>, id: RequestId)
    requires Inv(s) && id in s.sent
    requires RecordOf(Run(s, first).cockpit, id).Some? && RecordOf(Run(s, second).cockpit, id).Some?
    requires RecordOf(s.cockpit, id).Some?
    requires EvidenceFold.NoStaleLoss(RecordOf(s.cockpit, id).value, ReportsOn(s, first, id))
    requires EvidenceFold.NoStaleLoss(RecordOf(s.cockpit, id).value, ReportsOn(s, second, id))
    requires EvidenceFold.ReportedEvidence(ReportsOn(s, first, id)) == EvidenceFold.ReportedEvidence(ReportsOn(s, second, id))
    ensures EvidenceHeld(Run(s, first), id) == EvidenceHeld(Run(s, second), id)
  {
    var record := RecordOf(s.cockpit, id).value;
    SessionFoldsReports(s, first, id, record);
    SessionFoldsReports(s, second, id, record);
    EvidenceFold.FoldOrderIndependent(record, ReportsOn(s, first, id), ReportsOn(s, second, id));
  }
}
