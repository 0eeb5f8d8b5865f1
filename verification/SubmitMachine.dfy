/**
  The reliable-submit state machine (dashboard/src/data/submitMachine.ts): the record of one
  submission, the fold of overlapping authority observations into it, and the reducers of the
  reconcile window. Times are integers in milliseconds.
 */
module SubmitMachine {
  import opened Wrappers

  const RECONCILE_WINDOW_MS := 120_000
  const LIFECYCLE_WATCH_WINDOW_MS := RECONCILE_WINDOW_MS

  type RequestId = string

  datatype LifecycleState =
    | Queued
    | Dispatching
    | Delivered
    | Withdrawn
    | Unknown
    | Rejected
    | Unsupported

  datatype Source = Composer | LeafContext | Highlight | Background

  datatype Phase =
    | SendingPhase
    | AcceptedPhase
    | QueuedPhase
    | DeliveringPhase
    | WithdrawnPhase
    | RejectedPhase
    | UnsupportedPhase
    | AmbiguousPhase
    | ReconcilingPhase
    | EndgamePhase
    | ReleasedPhase
    | GenerationLostPhase
    | NotFoundPhase
    | RouteErrorPhase

  datatype SubmitRecord = SubmitRecord(
    requestId: RequestId,
    text: string,
    expectedBridgeEpoch: string,
    source: Source,
    submittedRevision: nat,
    clearDraftOnAccept: bool,
    startedAt: int,
    updatedAt: int,
    phase: Phase,
    reconcileAttempts: nat,
    reconcileWindowElapsedMs: int,
    reconcileWindowStartedAt: Option<int>,
    releasedAt: Option<int>,
    restoredAt: Option<int>,
    recoveryDismissedAt: Option<int>,
    serverLifecycleState: Option<LifecycleState>,
    lifecycleObservationVersion: nat,
    lifecycleWatchStartedAt: Option<int>)

  datatype Observation = Server(state: LifecycleState) | NotFound | GenerationLost

  /** A version a stored observation carries; a recovery slot outranks every finite version. */
  datatype Version = Finite(number: int) | Infinite {
    predicate NewerThan(observed: int) {
      Infinite? || number > observed
    }
  }

  datatype ObservationSnapshot = ObservationSnapshot(observation: Observation, version: Version)

  datatype Settlement = Preserve | Apply(observation: Observation, possibleSendJoin: bool)

  datatype Evidence =
    | QueuedEvidence
    | LossEvidence
    | DispatchEvidence
    | UnknownEvidence
    | DefinitiveEvidence

  predicate IsDefinitive(state: LifecycleState) {
    state.Delivered? || state.Withdrawn? || state.Rejected? || state.Unsupported?
  }

  function EvidenceOf(observation: Observation): Evidence {
    match observation
    case NotFound => LossEvidence
    case GenerationLost => LossEvidence
    case Server(Queued) => QueuedEvidence
    case Server(Dispatching) => DispatchEvidence
    case Server(Unknown) => UnknownEvidence
    case Server(_) => DefinitiveEvidence
  }

  function Rank(evidence: Evidence): nat {
    match evidence
    case QueuedEvidence => 0
    case LossEvidence => 1
    case DispatchEvidence => 2
    case UnknownEvidence => 3
    case DefinitiveEvidence => 4
  }

  function SnapshotOf(record: Option<SubmitRecord>): Option<ObservationSnapshot> {
    if record.None? then None
    else
      var r := record.value;
      var version := Finite(r.lifecycleObservationVersion);
      if r.phase.NotFoundPhase? then Some(ObservationSnapshot(NotFound, version))
      else if r.phase.GenerationLostPhase? then Some(ObservationSnapshot(GenerationLost, version))
      else if r.serverLifecycleState.Some? then
        Some(ObservationSnapshot(Server(r.serverLifecycleState.value), version))
      else None
  }

  /** `settleSubmissionObservation`: what one incoming observation does to the stored one. */
  function Settle(
    current: Option<ObservationSnapshot>, incoming: Observation, observedVersion: int): Settlement
  {
    if current.None? then Apply(incoming, false)
    else
      var have := EvidenceOf(current.value.observation);
      var got := EvidenceOf(incoming);
      var currentIsNewer := current.value.version.NewerThan(observedVersion);
      if (have.LossEvidence? && got.DispatchEvidence?) ||
         (have.DispatchEvidence? && got.LossEvidence? && !currentIsNewer)
      then Apply(Server(Unknown), true)
      else if Rank(got) > Rank(have) then Apply(incoming, false)
      else if Rank(got) < Rank(have) || currentIsNewer then Preserve
      else Apply(incoming, false)
  }

  function StartSubmitRecord(
    requestId: RequestId, text: string, epoch: string, source: Source, revision: nat,
    clearDraftOnAccept: bool, at: int): SubmitRecord
  {
    SubmitRecord(requestId, text, epoch, source, revision, clearDraftOnAccept, at, at,
                 SendingPhase, 0, 0, None, None, None, None, None, 0, None)
  }

  datatype Acceptance = Immediate | QueuedReceipt | RejectedReceipt | UnsupportedReceipt | UnknownReceipt

  datatype Receipt = Receipt(acceptance: Acceptance, bridgeEpoch: string)

  function ReduceReceipt(current: SubmitRecord, receipt: Receipt, at: int): SubmitRecord {
    var common := current.(updatedAt := at, expectedBridgeEpoch := receipt.bridgeEpoch);
    match receipt.acceptance
    case Immediate => common.(phase := AcceptedPhase, serverLifecycleState := Some(Delivered))
    case QueuedReceipt => common.(phase := QueuedPhase, serverLifecycleState := None)
    case RejectedReceipt => common.(phase := RejectedPhase, serverLifecycleState := Some(Rejected))
    case UnsupportedReceipt =>
      common.(phase := UnsupportedPhase, serverLifecycleState := Some(Unsupported))
    case UnknownReceipt => common.(phase := AmbiguousPhase, serverLifecycleState := Some(Unknown))
  }

  function PhaseFor(state: LifecycleState): Phase {
    match state
    case Queued => QueuedPhase
    case Dispatching => DeliveringPhase
    case Delivered => AcceptedPhase
    case Withdrawn => WithdrawnPhase
    case Unknown => AmbiguousPhase
    case Rejected => RejectedPhase
    case Unsupported => UnsupportedPhase
  }

  /** The record shows a lifecycle state the authority reported: the state and the phase that goes with it. */
  predicate Shows(record: SubmitRecord, state: LifecycleState) {
    && record.serverLifecycleState == Some(state)
    && match state
       case Queued => record.phase.QueuedPhase?
       case Dispatching => record.phase.DeliveringPhase?
       case Delivered => record.phase.AcceptedPhase?
       case Withdrawn => record.phase.WithdrawnPhase?
       case Unknown => record.phase.AmbiguousPhase?
       case Rejected => record.phase.RejectedPhase?
       case Unsupported => record.phase.UnsupportedPhase?
  }

  function ProjectLifecycle(current: SubmitRecord, state: LifecycleState, at: int): SubmitRecord {
    current.(
      phase := PhaseFor(state),
      serverLifecycleState := Some(state),
      updatedAt := at,
      lifecycleObservationVersion := current.lifecycleObservationVersion + 1,
      lifecycleWatchStartedAt :=
        if state.Queued? || IsDefinitive(state) then current.lifecycleWatchStartedAt
        else Some(current.lifecycleWatchStartedAt.GetOr(at)))
  }

  /** `projectObservation` of submissionLifecycleClient.ts: write one settled observation. */
  function ProjectObservation(record: SubmitRecord, observation: Observation, at: int): SubmitRecord {
    match observation
    case Server(state) => ProjectLifecycle(record, state, at)
    case NotFound =>
      record.(phase := NotFoundPhase, serverLifecycleState := None, updatedAt := at,
              lifecycleObservationVersion := record.lifecycleObservationVersion + 1)
    case GenerationLost =>
      record.(phase := GenerationLostPhase, serverLifecycleState := None, updatedAt := at,
              lifecycleObservationVersion := record.lifecycleObservationVersion + 1)
  }

  datatype WatchState = ActiveWatch | ExpiredWatch | InactiveWatch

  function WatchStart(record: SubmitRecord): int {
    record.lifecycleWatchStartedAt.GetOr(record.updatedAt)
  }

  function LifecycleWatchState(record: SubmitRecord, at: int): WatchState {
    if record.serverLifecycleState.None? || IsDefinitive(record.serverLifecycleState.value) ||
       record.phase !in {QueuedPhase, DeliveringPhase, AmbiguousPhase}
    then InactiveWatch
    else if at - WatchStart(record) > LIFECYCLE_WATCH_WINDOW_MS then ExpiredWatch
    else ActiveWatch
  }

  datatype ReconciliationState =
    AcceptedReconciliation | RejectedReconciliation | UnresolvedReconciliation | UnsupportedReconciliation

  datatype Reconciliation = Reconciliation(
    state: ReconciliationState, submissionState: Option<LifecycleState>, bridgeEpoch: string)

  function ReduceReconciliation(current: SubmitRecord, result: Reconciliation, at: int): SubmitRecord {
    var common := current.(updatedAt := at, expectedBridgeEpoch := result.bridgeEpoch);
    if result.submissionState.Some? &&
       !(result.state.UnresolvedReconciliation? && result.submissionState.value.Unknown?)
    then ProjectLifecycle(common, result.submissionState.value, at)
    else match result.state
      case AcceptedReconciliation => common.(phase := AcceptedPhase)
      case RejectedReconciliation => common.(phase := RejectedPhase)
      case UnsupportedReconciliation => common.(phase := UnsupportedPhase)
      case UnresolvedReconciliation => common.(phase := ReconcilingPhase)
  }

  function Max(a: int, b: int): int {
    if a < b then b else a
  }

  function ReconcileDelay(attempt: nat): nat {
    if attempt == 0 then 1_000 else if attempt == 1 then 2_000 else 5_000
  }

  function EnterReconcileWindow(record: SubmitRecord, at: int, windowStartedAt: int): SubmitRecord {
    record.(phase := ReconcilingPhase, updatedAt := at,
            reconcileWindowStartedAt := Some(windowStartedAt),
            reconcileWindowElapsedMs := Max(0, at - windowStartedAt))
  }

  function RefreshReconcileElapsed(record: SubmitRecord, at: int): SubmitRecord {
    var startedAt := record.reconcileWindowStartedAt.GetOr(at);
    record.(updatedAt := at,
            reconcileWindowElapsedMs := Max(record.reconcileWindowElapsedMs, at - startedAt))
  }

  function RecordReconcileDelay(record: SubmitRecord, at: int): SubmitRecord {
    RefreshReconcileElapsed(record, at).(
      phase := ReconcilingPhase, reconcileAttempts := record.reconcileAttempts + 1)
  }

  function EnterEndgame(record: SubmitRecord, at: int): SubmitRecord {
    record.(phase := EndgamePhase, updatedAt := at)
  }

  function ReleaseDraft(record: SubmitRecord, at: int): SubmitRecord {
    record.(phase := ReleasedPhase, updatedAt := at, releasedAt := Some(at))
  }
}
