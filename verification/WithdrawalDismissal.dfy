/**
  How final it is to dismiss a recovered text: exactly as final as the withdrawal that recovered it.
  While that withdrawal still waits for an answer, one more "withdrawn" opens the recovery again.
 */
module WithdrawalDismissal {
  import opened Wrappers
  import opened SubmitMachine
  import opened SubmitRetention
  import opened CockpitState
  import opened SubmissionLifecycle
  import opened SubmissionWithdrawal
  import opened WithdrawalSafety
  import opened WithdrawalTheorems

  /** The answer says that the request was withdrawn. */
  predicate SaysWithdrawn(answer: Answer) {
    || answer == StatusAnswer(Some(Withdrawn))
    || (answer.WithdrawAnswer? && answer.outcome.Withdrew?)
    || (answer.WithdrawAnswer? && answer.outcome.NotWithdrawable? && answer.state == Some(Withdrawn))
  }

  /** A definitive word, newer than the request, is already on record. */
  predicate Outdated(record: Option<SubmitRecord>, observedVersion: int) {
    && SnapshotOf(record).Some?
    && EvidenceOf(SnapshotOf(record).value.observation).DefinitiveEvidence?
    && record.value.lifecycleObservationVersion > observedVersion
  }

  /**
    The running withdrawal hears that `id` was withdrawn. The answer to its first request counts only
    against the record version that request was issued on; later answers are read afresh.
   */
  predicate HearsWithdrawn(s: Session, e: Event, id: RequestId) {
    && e.WithdrawHears? && s.operation.Running? && s.operation.target.requestId == id && SaysWithdrawn(e.answer)
    && match s.operation.waiting
       case ForWithdraw(v) => e.answer.WithdrawAnswer? && !Outdated(RecordOf(s.cockpit, id), v)
       case ForStatus(_) => e.answer.StatusAnswer?
       case ForRetry(_) => e.answer.WithdrawAnswer?
       case Finishing => false
  }

  predicate WentBack(c: Cockpit, id: RequestId) {
    RecordOf(c, id).Some? && RecordOf(c, id).value.restoredAt.Some?
  }

  /** With an empty slot, only the running withdrawal's own "withdrawn" is applied with a text at hand. */
  lemma WithdrawnIsAppliedExactlyWhen(s: Session, e: Event, id: RequestId)
    requires s.cockpit.withdrawal.NoWithdrawal?
    ensures HearsWithdrawn(s, e, id) <==>
      AppliesWithdrawn(s, e) && DeliveryOf(s, e).value.id == id && DeliveryOf(s, e).value.owner
  {
  }

  /**
    From an empty slot a step opens the recovery of `id` exactly when the running withdrawal hears that
    `id` was withdrawn, its text has not gone back before, and the composer has moved on since.
   */
  lemma RecoveryOpensExactlyWhen(s: Session, e: Event, id: RequestId)
    requires Inv(s) && s.cockpit.withdrawal.NoWithdrawal?
    ensures HasRecovery(CockpitAfter(s, e), id) <==>
      && HearsWithdrawn(s, e, id)
      && !WentBack(s.cockpit, id)
      && s.cockpit.draftRevision != s.operation.target.draftRevision
    ensures HasRecovery(CockpitAfter(s, e), id) ==>
      CockpitAfter(s, e).withdrawal == Recovery(id, s.operation.target.text, e.at)
  {
    WithdrawnIsAppliedExactlyWhen(s, e, id);
    if HearsWithdrawn(s, e, id) {
      HeardWithdrawnResolves(s, e, id);
    } else if DeliveryOf(s, e).Some? {
      OtherDeliveriesOpenNothing(s, e, id);
    } else {
      QuietStepsOpenNothing(s, e);
    }
  }

  lemma HeardWithdrawnResolves(s: Session, e: Event, id: RequestId)
    requires s.cockpit.withdrawal.NoWithdrawal? && HearsWithdrawn(s, e, id)
    ensures var target, next := s.operation.target, CockpitAfter(s, e);
      if WentBack(s.cockpit, id) then next.withdrawal.NoWithdrawal?
      else if s.cockpit.draftRevision == target.draftRevision then next.withdrawal.NoWithdrawal?
      else next.withdrawal == Recovery(id, target.text, e.at)
  {
    var target := s.operation.target;
    WithdrawnIsAppliedExactlyWhen(s, e, id);
    assert CockpitAfter(s, e) == ResolveWithdrawn(s.cockpit, id, e.at, Some(target));
  }

  lemma OtherDeliveriesOpenNothing(s: Session, e: Event, id: RequestId)
    requires Inv(s) && s.cockpit.withdrawal.NoWithdrawal? && DeliveryOf(s, e).Some? && !HearsWithdrawn(s, e, id)
    ensures !HasRecovery(CockpitAfter(s, e), id)
  {
    var c, d := s.cockpit, DeliveryOf(s, e).value;
    WithdrawnIsAppliedExactlyWhen(s, e, id);
    DeliveryIsCoherent(s, e);
    if d.id == id && d.owner {
      var settlement := Settle(CurrentSnapshot(c, id), d.observation, d.observedVersion);
      assert !(settlement.Apply? && settlement.observation == Server(Withdrawn));
      ProjectingOpensNothing(c, s.operation.Running?, d);
    }
  }

  lemma ProjectingOpensNothing(c: Cockpit, inFlight: bool, d: Delivery)
    requires c.withdrawal.NoWithdrawal?
    ensures forall observation ::
      ProjectSettled(c, inFlight, d.id, observation, d.at, d.owner).withdrawal.NoWithdrawal?
    ensures ClearSettledWithdrawal(c, d.id, true, inFlight).withdrawal.NoWithdrawal?
  {
  }

  lemma QuietStepsOpenNothing(s: Session, e: Event)
    requires Inv(s) && s.cockpit.withdrawal.NoWithdrawal? && DeliveryOf(s, e).None?
    ensures !CockpitAfter(s, e).withdrawal.Recovery?
  {
  }

  // ---------------------------------------------------------------- a dismissal that is final

  /** Nothing in the session can bring the text of `id` back. */
  predicate IsGone(s: Session, id: RequestId) {
    && id in s.sent
    && !HasRecovery(s.cockpit, id) && !HasPending(s.cockpit, id)
    && (forall q <- s.cockpit.queue :: q.requestId != id)
    && (s.operation.Running? && s.operation.target.requestId == id ==> s.operation.waiting.Finishing?)
  }

  lemma GoneStep(s: Session, e: Event, id: RequestId)
    requires Inv(s) && IsGone(s, id)
    ensures IsGone(Step(s, e), id)
    ensures Times(Step(s, e).restored, id) == Times(s.restored, id)
  {
    if DeliveryOf(s, e).Some? {
      GoneDelivery(s, e, id);
    } else {
      GoneQuietStep(s, e, id);
    }
  }

  lemma GoneDelivery(s: Session, e: Event, id: RequestId)
    requires Inv(s) && IsGone(s, id) && DeliveryOf(s, e).Some?
    ensures IsGone(Step(s, e), id)
    ensures Times(Step(s, e).restored, id) == Times(s.restored, id)
  {
    var d := DeliveryOf(s, e).value;
    DeliveryIsCoherent(s, e);
    if d.id == id {
      assert !d.owner;
      assert PendingFor(s.cockpit, id, IssuedBy(s, d)).None?;
    }
  }

  lemma GoneQuietStep(s: Session, e: Event, id: RequestId)
    requires Inv(s) && IsGone(s, id) && DeliveryOf(s, e).None?
    ensures IsGone(Step(s, e), id)
    ensures Times(Step(s, e).restored, id) == Times(s.restored, id)
  {
    if e.RestoreRecovery? || e.DismissRecovery? {
      GoneByChoice(s, e, id);
    } else if e.WithdrawStarts? {
      GoneStaysUnchosen(s.cockpit, id, e.at);
    } else {
      GoneOtherwise(s, e, id);
    }
  }

  lemma GoneByChoice(s: Session, e: Event, id: RequestId)
    requires Inv(s) && IsGone(s, id) && (e.RestoreRecovery? || e.DismissRecovery?)
    ensures IsGone(Step(s, e), id)
    ensures Times(Step(s, e).restored, id) == Times(s.restored, id)
  {
    var c := s.cockpit;
    if HasRecovery(c, e.id) && c.draftRevision == e.expectedRevision {
      if e.RestoreRecovery? {
        RestoreFollows(c, e.id, e.expectedRevision, e.at);
      } else {
        DismissFollows(c, e.id, e.expectedRevision, e.at);
      }
    }
  }

  lemma GoneOtherwise(s: Session, e: Event, id: RequestId)
    requires IsGone(s, id) && DeliveryOf(s, e).None?
    requires !e.RestoreRecovery? && !e.DismissRecovery? && !e.WithdrawStarts?
    ensures IsGone(Step(s, e), id)
    ensures Step(s, e).restored == s.restored
  {
  }

  lemma GoneStaysUnchosen(c: Cockpit, id: RequestId, at: int)
    requires !HasPending(c, id) && forall q <- c.queue :: q.requestId != id
    ensures ChooseTarget(c, at).Some? ==> ChooseTarget(c, at).value.requestId != id
  {
  }

  /** Once gone, a text stays gone: over every run it is neither recovered nor written again. */
  lemma {:induction false} GoneForGood(s: Session, events: seq<Event>, id: RequestId)
    requires Inv(s) && IsGone(s, id)
    ensures IsGone(Run(s, events), id) && Times(Run(s, events).restored, id) == Times(s.restored, id)
    decreases |events|
  {
    if events != [] {
      GoneStep(s, events[0], id);
      StepKeepsInv(s, events[0]);
      GoneForGood(Step(s, events[0]), events[1..], id);
    }
  }

  /** The withdrawal that recovered the text still waits for an answer. */
  predicate StillWaiting(s: Session) {
    s.operation.Running? && !s.operation.waiting.Finishing?
  }

  /** What a dismissal leaves, at the revision shown. */
  lemma DismissalLeaves(s: Session, id: RequestId, at: int)
    requires Inv(s) && HasRecovery(s.cockpit, id)
    ensures var t := Step(s, DismissRecovery(id, s.cockpit.draftRevision, at));
      && Inv(t) && t.operation == s.operation && t.cockpit.withdrawal.NoWithdrawal?
      && t.cockpit.queue == s.cockpit.queue && t.cockpit.draftRevision == s.cockpit.draftRevision
      && t.sent == s.sent && t.restored == s.restored && !WentBack(t.cockpit, id)
  {
    var c := s.cockpit;
    StepKeepsInv(s, DismissRecovery(id, c.draftRevision, at));
    DismissFollows(c, id, c.draftRevision, at);
    if RecordOf(c, id).Some? {
      assert RestoreIsRecorded(Find(c.history, id).value, s.restored, true);
      UpsertFacts(c.history, RecordOf(c, id).value.(recoveryDismissedAt := Some(at), updatedAt := at));
    }
  }

  /** One or two answers that open the recovery again. */
  function AnswersThatReopen(waiting: Waiting, at: int): seq<Event> {
    match waiting
    case ForWithdraw(_) => [WithdrawHears(Failure, at), WithdrawHears(StatusAnswer(Some(Withdrawn)), at)]
    case ForStatus(_) => [WithdrawHears(StatusAnswer(Some(Withdrawn)), at)]
    case ForRetry(_) => [WithdrawHears(WithdrawAnswer(Withdrew, None), at)]
    case Finishing => []
  }

  lemma WaitingCanReopen(t: Session, id: RequestId, at: int)
    requires Inv(t) && t.cockpit.withdrawal.NoWithdrawal? && StillWaiting(t) && t.operation.target.requestId == id
    requires !WentBack(t.cockpit, id) && t.cockpit.draftRevision != t.operation.target.draftRevision
    ensures HasRecovery(Run(t, AnswersThatReopen(t.operation.waiting, at)).cockpit, id)
  {
    var status := WithdrawHears(StatusAnswer(Some(Withdrawn)), at);
    match t.operation.waiting
    case ForWithdraw(_) =>
      var lost := WithdrawHears(Failure, at);
      LostAnswerAsksForStatus(t, at);
      RecoveryOpensExactlyWhen(Step(t, lost), status, id);
      assert [lost, status] == [lost] + [status] && [status] == [status] + [];
      RunOne(t, lost, [status]);
      RunOne(Step(t, lost), status, []);
    case ForStatus(_) =>
      RecoveryOpensExactlyWhen(t, status, id);
      assert [status] == [status] + [];
      RunOne(t, status, []);
    case ForRetry(_) =>
      var withdrew := WithdrawHears(WithdrawAnswer(Withdrew, None), at);
      RecoveryOpensExactlyWhen(t, withdrew, id);
      assert [withdrew] == [withdrew] + [];
      RunOne(t, withdrew, []);
  }

  lemma LostAnswerAsksForStatus(t: Session, at: int)
    requires Inv(t) && t.cockpit.withdrawal.NoWithdrawal? && t.operation.Running? && t.operation.waiting.ForWithdraw?
    ensures var next := Step(t, WithdrawHears(Failure, at));
      Inv(next) && next.cockpit == t.cockpit && next.operation.Running? &&
      next.operation.target == t.operation.target && next.operation.waiting.ForStatus?
  {
    StepKeepsInv(t, WithdrawHears(Failure, at));
  }

  /**
    Dismissing a recovery is final, in every continuation, exactly when the withdrawal that recovered
    it no longer waits for an answer.
   */
  lemma DismissalIsFinalExactlyWhen(s: Session, id: RequestId, at: int)
    requires Inv(s) && HasRecovery(s.cockpit, id)
    ensures StaysDismissed(Step(s, DismissRecovery(id, s.cockpit.draftRevision, at)), id) <==> !StillWaiting(s)
  {
    var t := Step(s, DismissRecovery(id, s.cockpit.draftRevision, at));
    DismissalLeaves(s, id, at);
    if StillWaiting(s) {
      WaitingCanReopen(t, id, at);
      assert ComesBack(t, AnswersThatReopen(s.operation.waiting, at), id);
    } else {
      assert IsGone(t, id);
      forall events ensures !ComesBack(t, events, id) { GoneForGood(t, events, id); }
    }
  }

  /** A run at whose end the text of `id` is recovered again, or has been written once more. */
  predicate ComesBack(s: Session, events: seq<Event>, id: RequestId) {
    HasRecovery(Run(s, events).cockpit, id) || Times(Run(s, events).restored, id) != Times(s.restored, id)
  }

  ghost predicate StaysDismissed(s: Session, id: RequestId) {
    forall events :: !ComesBack(s, events, id)
  }

  // ---------------------------------------------------------------- a dismissal undone

  /** A queued message "m" under id "r", as its submit returned it. */
  function Message(): SubmitRecord {
    StartSubmitRecord("r", "m", "epoch", Composer, 0, true, 0).(phase := QueuedPhase)
  }

  /** Withdrawing, typing, a lost answer, a poll that reports the withdrawal, and the dismissal. */
  function UntilDismissed(): seq<Event> {
    [SubmitReturned(Message()), WithdrawStarts(1), Edit("x"), WithdrawHears(Failure, 2),
     PollReports("r", Server(Withdrawn), 0, 3), DismissRecovery("r", 1, 4)]
  }

  /** The withdrawal of the message, with composer revision 0 captured. */
  function Target(): PendingWithdrawal {
    PendingWithdrawal("r", "m", "epoch", 0, 1)
  }

  lemma Withdrawing() returns (s: Session)
    ensures s == Step(Step(START, SubmitReturned(Message())), WithdrawStarts(1))
    ensures s.cockpit.withdrawal == Pending(Target()) && s.cockpit.draftRevision == 0
    ensures s.operation == Running(Target(), ForWithdraw(0)) && Find(s.cockpit.history, "r") == Some(Message())
  {
    UpsertFacts([], Message());
    var queued := Step(START, SubmitReturned(Message()));
    assert queued.cockpit.queue == [QueuedSubmit("r", "m", 0, "epoch")];
    s := Step(queued, WithdrawStarts(1));
  }

  lemma LosingTheAnswer(s: Session) returns (t: Session)
    requires s.cockpit.withdrawal == Pending(Target()) && s.cockpit.draftRevision == 0
    requires s.operation == Running(Target(), ForWithdraw(0)) && Find(s.cockpit.history, "r") == Some(Message())
    ensures t == Step(Step(s, Edit("x")), WithdrawHears(Failure, 2))
    ensures t.cockpit.withdrawal == Pending(Target()) && t.cockpit.draftRevision == 1
    ensures t.operation == Running(Target(), ForStatus(0)) && Find(t.cockpit.history, "r") == Some(Message())
  {
    t := Step(Step(s, Edit("x")), WithdrawHears(Failure, 2));
  }

  lemma Recovering(s: Session) returns (t: Session)
    requires s.cockpit.withdrawal == Pending(Target()) && s.cockpit.draftRevision == 1
    requires s.operation == Running(Target(), ForStatus(0)) && Find(s.cockpit.history, "r") == Some(Message())
    ensures t == Step(s, PollReports("r", Server(Withdrawn), 0, 3))
    ensures t.cockpit.withdrawal == Recovery("r", "m", 3) && t.cockpit.draftRevision == 1
    ensures t.operation == Running(Target(), ForStatus(0))
  {
    t := Step(s, PollReports("r", Server(Withdrawn), 0, 3));
    assert t.cockpit == ResolveWithdrawn(s.cockpit, "r", 3, None);
  }

  lemma UntilRecovered() returns (s: Session)
    ensures s == Run(START, UntilDismissed()[..5]) && Inv(s)
    ensures s.cockpit.withdrawal == Recovery("r", "m", 3) && s.cockpit.draftRevision == 1
    ensures s.operation == Running(Target(), ForStatus(0))
  {
    var e := UntilDismissed();
    var withdrawing := Withdrawing();
    var lost := LosingTheAnswer(withdrawing);
    s := Recovering(lost);
    assert e[..5] == [e[0], e[1], e[2], e[3], e[4]];
    RunFive(START, e[0], e[1], e[2], e[3], e[4]);
    RunKeepsInv(START, e[..5]);
  }

  lemma RunFive(s: Session, a: Event, b: Event, c: Event, d: Event, e: Event)
    ensures Run(s, [a, b, c, d, e]) == Step(Step(Step(Step(Step(s, a), b), c), d), e)
  {
    RunOne(s, a, [b, c, d, e]);
    RunOne(Step(s, a), b, [c, d, e]);
    RunOne(Step(Step(s, a), b), c, [d, e]);
    RunOne(Step(Step(Step(s, a), b), c), d, [e]);
    RunOne(Step(Step(Step(Step(s, a), b), c), d), e, []);
    assert [a, b, c, d, e] == [a] + [b, c, d, e] && [b, c, d, e] == [b] + [c, d, e];
    assert [c, d, e] == [c] + [d, e] && [d, e] == [d] + [e] && [e] == [e] + [];
  }

  lemma RunOne(s: Session, e: Event, rest: seq<Event>)
    ensures Run(s, [e] + rest) == Run(Step(s, e), rest)
  {
    assert ([e] + rest)[1..] == rest;
  }

  /** In this session the user dismisses a recovered text, and the status answer brings it back. */
  lemma DismissalCanBeUndone()
    ensures Run(START, UntilDismissed()).cockpit.withdrawal == NoWithdrawal
    ensures Run(START, UntilDismissed() + [WithdrawHears(StatusAnswer(Some(Withdrawn)), 5)]).cockpit.withdrawal ==
      Recovery("r", "m", 5)
  {
    var events, answer := UntilDismissed(), WithdrawHears(StatusAnswer(Some(Withdrawn)), 5);
    var dismiss := DismissRecovery("r", 1, 4);
    var s := UntilRecovered();
    DismissalLeaves(s, "r", 4);
    assert events == events[..5] + [dismiss] && [dismiss] == [dismiss] + [] && [answer] == [answer] + [];
    RunConcat(START, events[..5], [dismiss]);
    RunOne(s, dismiss, []);
    RunConcat(START, events, [answer]);
    RunOne(Step(s, dismiss), answer, []);
    AnswerReopens(Step(s, dismiss), answer);
  }

  lemma AnswerReopens(t: Session, answer: Event)
    requires Inv(t) && t.cockpit.withdrawal.NoWithdrawal? && t.cockpit.draftRevision == 1 && !WentBack(t.cockpit, "r")
    requires t.operation == Running(Target(), ForStatus(0)) && answer == WithdrawHears(StatusAnswer(Some(Withdrawn)), 5)
    ensures CockpitAfter(t, answer).withdrawal == Recovery("r", "m", 5)
  {
    RecoveryOpensExactlyWhen(t, answer, "r");
  }
}
