/**
  The withdrawal of a queued message racing with status polls, edits and recovery choices
  (dashboard/src/data/submissionWithdrawal.ts). Every piece of code between two awaits is one step;
  responses come in any order, of any age, with any content.
 */
module SubmissionWithdrawal {
  import opened Wrappers
  import opened SubmitMachine
  import opened SubmitRetention
  import opened CockpitState
  import opened SubmissionLifecycle

  /** Where the one running withdrawal waits, with the record version its request was issued against. */
  datatype Waiting =
    | ForWithdraw(observedVersion: int)
    | ForStatus(observedVersion: int)
    | ForRetry(observedVersion: int)
    | Finishing

  datatype Operation = Idle | Running(target: PendingWithdrawal, waiting: Waiting)

  datatype WithdrawOutcome = Withdrew | NotWithdrawable | WithdrawNotFound

  /** What an awaited request delivers: its answer, an epoch mismatch, or any other failure. */
  datatype Answer =
    | WithdrawAnswer(outcome: WithdrawOutcome, state: Option<LifecycleState>)
    | StatusAnswer(lookup: Option<LifecycleState>)
    | EpochMismatch
    | Failure

  datatype Event =
    | Edit(text: string)
    | ClearDraft(revision: nat)
    | SubmitReturned(record: SubmitRecord)
    | PollStarts(at: int)
    | PollReports(id: RequestId, observation: Observation, observedVersion: int, at: int)
    | WithdrawStarts(at: int)
    | WithdrawHears(answer: Answer, at: int)
    | WithdrawSettles
    | RestoreRecovery(id: RequestId, expectedRevision: nat, at: int)
    | DismissRecovery(id: RequestId, expectedRevision: nat, at: int)
    | ReleaseRecord(id: RequestId, at: int)
    | DevReset

  /**
    A session with its running withdrawal. `sent` and `restored` are history: every text ever
    submitted under its id, and the ids whose withdrawn text was written to the composer, in order.
   */
  datatype Session = Session(
    cockpit: Cockpit,
    operation: Operation,
    sent: map<RequestId, string>,
    restored: seq<RequestId>)

  const START := Session(EMPTY, Idle, map[], [])

  /** `withdrawalTargetFor`: an open slot is resumed, otherwise the newest queued entry is taken. */
  function ChooseTarget(c: Cockpit, at: int): Option<PendingWithdrawal> {
    if c.withdrawal.Recovery? then None
    else if c.withdrawal.Pending? then Some(c.withdrawal.target)
    else if c.queue == [] then None
    else
      var entry := c.queue[|c.queue| - 1];
      Some(PendingWithdrawal(entry.requestId, entry.text, entry.expectedBridgeEpoch, c.draftRevision, at))
  }

  /** One observation on its way into the cockpit; `owner` when the withdrawal itself heard it. */
  datatype Delivery = Delivery(
    id: RequestId, observation: Observation, observedVersion: int, at: int, owner: bool)

  /** `applyWithdrawalResult`: what a withdraw answer says about the request, if anything. */
  function ObservedByWithdraw(outcome: WithdrawOutcome, state: Option<LifecycleState>): Option<Observation> {
    if outcome.Withdrew? then Some(Server(Withdrawn))
    else if outcome.NotWithdrawable? && state.Some? then Some(Server(state.value))
    else if outcome.WithdrawNotFound? then Some(NotFound)
    else None
  }

  /** `statusFollowUp`: a held recovery ends it, and a still queued request is withdrawn once more. */
  function ObservedByStatus(c: Cockpit, id: RequestId, lookup: Option<LifecycleState>): Option<Observation> {
    if HasRecovery(c, id) then None
    else if lookup.None? then Some(NotFound)
    else if lookup.value.Queued? then None
    else Some(Server(lookup.value))
  }

  /** What an answer to the running withdrawal delivers, and against which record version. */
  function Heard(
    c: Cockpit, target: PendingWithdrawal, waiting: Waiting, answer: Answer, at: int): Option<Delivery>
  {
    var id := target.requestId;
    var current := ObservationVersion(RecordOf(c, id));
    var (observation, version) :=
      match (waiting, answer)
      case (ForWithdraw(v), WithdrawAnswer(outcome, state)) => (ObservedByWithdraw(outcome, state), v)
      case (ForRetry(v), WithdrawAnswer(outcome, state)) => (ObservedByWithdraw(outcome, state), current)
      case (ForStatus(v), StatusAnswer(lookup)) => (ObservedByStatus(c, id, lookup), current)
      case (ForWithdraw(v), EpochMismatch) => (Some(GenerationLost), v)
      case (ForStatus(v), EpochMismatch) => (Some(GenerationLost), v)
      case (ForRetry(v), EpochMismatch) => (Some(GenerationLost), v)
      case _ => (None, current);
    if observation.None? then None else Some(Delivery(id, observation.value, version, at, true))
  }

  /** Where the withdrawal waits after an answer; an answer of the wrong kind cannot occur. */
  function WaitsNext(c: Cockpit, target: PendingWithdrawal, waiting: Waiting, answer: Answer): Waiting {
    var id := target.requestId;
    match (waiting, answer)
    case (ForWithdraw(v), StatusAnswer(_)) => waiting
    case (ForWithdraw(v), Failure) =>
      if HasRecovery(c, id) then Finishing else ForStatus(ObservationVersion(RecordOf(c, id)))
    case (ForStatus(v), WithdrawAnswer(_, _)) => waiting
    case (ForStatus(v), StatusAnswer(lookup)) =>
      if !HasRecovery(c, id) && lookup == Some(Queued) then ForRetry(v) else Finishing
    case (ForRetry(v), StatusAnswer(_)) => waiting
    case _ => Finishing
  }

  /** `restoreWithdrawnRecovery` */
  function RestoreFromSlot(c: Cockpit, id: RequestId, expected: nat, at: int): Cockpit {
    if !HasRecovery(c, id) || c.draftRevision != expected then c
    else
      var replaced := ReplaceDraftIfRevision(c, expected, c.withdrawal.text);
      var record := RecordOf(c, id);
      var marked :=
        if record.Some? then
          UpsertRecord(replaced, record.value.(restoredAt := Some(at), updatedAt := at))
        else replaced;
      SetWithdrawal(marked, NoWithdrawal)
  }

  /** `dismissWithdrawnRecovery` */
  function DismissFromSlot(c: Cockpit, id: RequestId, expected: nat, at: int): Cockpit {
    if !HasRecovery(c, id) || c.draftRevision != expected then c
    else
      var dismissed := DismissRecoveryIfMatches(c, id, expected);
      var record := RecordOf(c, id);
      if record.Some? then
        UpsertRecord(dismissed, record.value.(recoveryDismissedAt := Some(at), updatedAt := at))
      else dismissed
  }

  /** `settleStoredSubmission` for a returned submit: the record is stored and a queued one enqueued. */
  function StoreReturned(c: Cockpit, record: SubmitRecord): Cockpit {
    var stored := UpsertRecord(c, record);
    if record.source.Composer? && record.phase.QueuedPhase? &&
       !(exists q <- c.queue :: q.requestId == record.requestId)
    then Enqueue(stored, QueuedSubmit(record.requestId, record.text, record.updatedAt, record.expectedBridgeEpoch))
    else stored
  }

  /** A returned submit carries a request id never used before and no withdrawal history. */
  predicate IsFreshReturn(s: Session, record: SubmitRecord) {
    record.requestId !in s.sent && record.restoredAt.None? && record.recoveryDismissedAt.None?
  }

  function DeliveryOf(s: Session, e: Event): Option<Delivery> {
    match e
    case PollReports(id, observation, observedVersion, at) =>
      Some(Delivery(id, observation, observedVersion, at, false))
    case WithdrawHears(answer, at) =>
      if s.operation.Idle? then None
      else Heard(s.cockpit, s.operation.target, s.operation.waiting, answer, at)
    case _ => None
  }

  function IssuedBy(s: Session, d: Delivery): Option<PendingWithdrawal> {
    if d.owner && s.operation.Running? then Some(s.operation.target) else None
  }

  function Receive(s: Session, delivery: Option<Delivery>): Cockpit {
    if delivery.None? then s.cockpit
    else
      var d := delivery.value;
      ApplyObservation(s.cockpit, s.operation.Running?, d.id, d.observation, d.at, d.observedVersion, d.owner, IssuedBy(s, d))
  }

  function CockpitAfter(s: Session, e: Event): Cockpit {
    var c := s.cockpit;
    match e
    case Edit(text) => SetComposerDraft(c, text)
    case ClearDraft(revision) => ReplaceDraftIfRevision(c, revision, "")
    case SubmitReturned(record) => if IsFreshReturn(s, record) then StoreReturned(c, record) else c
    case PollStarts(at) => ExpireWatches(c, at)
    case PollReports(_, _, _, _) => Receive(s, DeliveryOf(s, e))
    case WithdrawStarts(at) =>
      if s.operation.Running? || ChooseTarget(c, at).None? then c
      else SetWithdrawal(c, Pending(ChooseTarget(c, at).value))
    case WithdrawHears(_, _) => Receive(s, DeliveryOf(s, e))
    case WithdrawSettles => c
    case RestoreRecovery(id, expected, at) => RestoreFromSlot(c, id, expected, at)
    case DismissRecovery(id, expected, at) => DismissFromSlot(c, id, expected, at)
    case ReleaseRecord(id, at) =>
      var record := RecordOf(c, id);
      if record.Some? && record.value.phase.EndgamePhase?
      then UpsertRecord(c, ReleaseDraft(record.value, at)) else c
    case DevReset => c
  }

  function OperationAfter(s: Session, e: Event): Operation {
    match e
    case WithdrawStarts(at) =>
      var target := ChooseTarget(s.cockpit, at);
      if s.operation.Running? || target.None? then s.operation
      else Running(target.value, ForWithdraw(ObservationVersion(RecordOf(s.cockpit, target.value.requestId))))
    case WithdrawHears(answer, at) =>
      if s.operation.Idle? then Idle
      else Running(s.operation.target, WaitsNext(s.cockpit, s.operation.target, s.operation.waiting, answer))
    case WithdrawSettles =>
      if s.operation.Running? && s.operation.waiting.Finishing? then Idle else s.operation
    case DevReset => Idle
    case _ => s.operation
  }

  /** The request whose withdrawal a step works on, if it is such a step. */
  function WithdrawnRequest(s: Session, e: Event): Option<RequestId> {
    if e.RestoreRecovery? then Some(e.id)
    else if DeliveryOf(s, e).Some? then Some(DeliveryOf(s, e).value.id)
    else None
  }

  /** A withdrawal step that moves the composer's revision has written withdrawn text into it. */
  predicate WritesComposer(s: Session, e: Event) {
    WithdrawnRequest(s, e).Some? && CockpitAfter(s, e).draftRevision != s.cockpit.draftRevision
  }

  function Step(s: Session, e: Event): Session {
    Session(
      CockpitAfter(s, e),
      OperationAfter(s, e),
      if e.SubmitReturned? && IsFreshReturn(s, e.record) then s.sent[e.record.requestId := e.record.text] else s.sent,
      if WritesComposer(s, e) then s.restored + [WithdrawnRequest(s, e).value] else s.restored)
  }

  function Run(s: Session, events: seq<Event>): Session
    decreases |events|
  {
    if events == [] then s else Run(Step(s, events[0]), events[1..])
  }
}
