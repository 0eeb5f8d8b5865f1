/**
  The reliable submit driver (dashboard/src/data/submitClient.ts) against an adversarial transport:
  every answer, every delay and every loss is chosen by the environment. The clock never runs
  backwards and a sleep or a deadline timer lasts at least its argument.
 */
module ReliableSubmit {
  import opened Wrappers
  import opened SubmitMachine

  datatype SubmitError =
    | EpochMismatchError
    | PreDispatchError
    | RouteError(httpStatus: Option<int>)
    | DeadlineError
    | OtherError

  /** Only the driver itself raises the deadline error; a transport raises the others. */
  type TransportError = e: SubmitError | !e.DeadlineError? witness OtherError

  /** The fields of a JSON error body that classification reads. */
  datatype ErrorBody = ErrorBody(
    status: Option<string>, retrySafe: bool, stage: Option<string>, expectedEpoch: bool, actualEpoch: bool)

  /** `routeFailure` with its two classifiers; a body that is not JSON leaves only the HTTP status. */
  function RouteFailure(httpStatus: int, body: Option<ErrorBody>, allowCertified: bool): TransportError {
    if body.Some? && httpStatus == 409 && body.value.status == Some("bridge-epoch-mismatch") &&
       body.value.expectedEpoch && body.value.actualEpoch
    then EpochMismatchError
    else if body.Some? && allowCertified && httpStatus == 503 &&
            body.value.status == Some("pre-dispatch-failed") && body.value.retrySafe &&
            body.value.stage == Some("control-ipc")
    then PreDispatchError
    else RouteError(Some(httpStatus))
  }

  /** What the network does with one fetch: a body, an HTTP failure, a loss, or silence. */
  datatype Reply<+T> =
    | Answers(value: T, tookMs: nat)
    | FailsHttp(httpStatus: int, body: Option<ErrorBody>, tookMs: nat)
    | Lost(tookMs: nat)
    | Silent(overdueMs: nat)

  /** The server's word that no byte of the request was dispatched. */
  predicate IsCertificate<T>(reply: Reply<T>) {
    && reply.FailsHttp? && reply.httpStatus == 503 && reply.body.Some?
    && reply.body.value.status == Some("pre-dispatch-failed") && reply.body.value.retrySafe
    && reply.body.value.stage == Some("control-ipc")
  }

  /** The server's word that it is another generation than the one the request was for. */
  predicate IsEpochMismatch<T>(reply: Reply<T>) {
    && reply.FailsHttp? && reply.httpStatus == 409 && reply.body.Some?
    && reply.body.value.status == Some("bridge-epoch-mismatch")
    && reply.body.value.expectedEpoch && reply.body.value.actualEpoch
  }

  /** `createFetchSubmitTransport`: a fetch as the driver sees it; only the submit route may certify. */
  function Fetched<T>(reply: Reply<T>, onSubmitRoute: bool): (attempt: Attempt<T>)
    ensures attempt.Rejects? && attempt.error.PreDispatchError? <==> onSubmitRoute && IsCertificate(reply)
    ensures attempt.Rejects? && attempt.error.EpochMismatchError? <==> IsEpochMismatch(reply)
    ensures attempt.Rejects? && attempt.error.RouteError? ==>
      reply.FailsHttp? && attempt.error.httpStatus == Some(reply.httpStatus)
    ensures attempt.Rejects? && attempt.error.OtherError? <==> reply.Lost?
  {
    match reply
    case Answers(value, tookMs) => Resolves(value, tookMs)
    case FailsHttp(httpStatus, body, tookMs) => Rejects(RouteFailure(httpStatus, body, onSubmitRoute), tookMs)
    case Lost(tookMs) => Rejects(OtherError, tookMs)
    case Silent(overdueMs) => Hangs(overdueMs)
  }

  /** What one network attempt does: it resolves, it rejects, or it outlives its deadline. */
  datatype Attempt<+T> =
    | Resolves(value: T, tookMs: nat)
    | Rejects(error: TransportError, tookMs: nat)
    | Hangs(overdueMs: nat)

  datatype Outcome<+T> = Received(value: T) | Failed(error: SubmitError)

  /** The environment: its answer to the n-th attempt of each kind, and the time that passes unseen. */
  datatype Transport = Transport(
    submit: nat -> Reply<Receipt>,
    reconcile: nat -> Reply<Reconciliation>,
    status: Option<nat -> Attempt<Option<LifecycleState>>>,
    drift: nat -> nat)

  datatype Clock = Clock(at: int, readings: nat) {
    /** `now()`: any amount of time may have passed since the last reading. */
    function Tick(drift: nat -> nat): Clock {
      Clock(at + drift(readings), readings + 1)
    }
    function Pass(ms: nat): Clock {
      this.(at := at + ms)
    }
  }

  /** `boundedAttempt`: the attempt raced against the remaining wall-clock budget. */
  function BoundedAttempt<T>(deadlineAt: int, clock: Clock, attempt: Attempt<T>, drift: nat -> nat)
    : (r: (Outcome<T>, Clock))
    ensures r.1.at >= clock.at
    ensures r.0.Received? ==> attempt.Resolves? && r.0.value == attempt.value && clock.at <= r.1.at < deadlineAt
    ensures r.0.Failed? && attempt.Rejects? ==> r.0.error in {attempt.error, DeadlineError}
    ensures r.0.Failed? && !attempt.Rejects? ==> r.0.error == DeadlineError
    ensures r.0 == Failed(DeadlineError) ==> r.1.at >= deadlineAt
  {
    var begun := clock.Tick(drift);
    if deadlineAt - begun.at <= 0 then (Failed(DeadlineError), begun)
    else match attempt
      case Rejects(error, tookMs) => (Failed(error), begun.Pass(tookMs))
      case Hangs(overdueMs) => (Failed(DeadlineError), begun.(at := deadlineAt + overdueMs))
      case Resolves(value, tookMs) =>
        var ended := begun.Pass(tookMs).Tick(drift);
        if ended.at >= deadlineAt then (Failed(DeadlineError), ended) else (Received(value), ended)
  }

  /** The transport is called only while budget remains. */
  predicate Issues(deadlineAt: int, clock: Clock, drift: nat -> nat) {
    deadlineAt - clock.Tick(drift).at > 0
  }

  datatype Request = Request(requestId: RequestId, text: string, expectedBridgeEpoch: string)

  datatype Call = Call(request: Request, answer: Outcome<Receipt>) {
    /** The server certified that no byte of this request was dispatched. */
    predicate CertifiedUnsent() {
      answer == Failed(PreDispatchError)
    }
  }

  function RequestOf(record: SubmitRecord): Request {
    Request(record.requestId, record.text, record.expectedBridgeEpoch)
  }

  /** The record was last written within this stretch of time. */
  predicate WrittenWithin(record: SubmitRecord, from: int, to: int) {
    from <= record.updatedAt <= to
  }

  /** The identity of a submission that no reducer may touch. */
  predicate SameSubmission(a: SubmitRecord, b: SubmitRecord) {
    && a.requestId == b.requestId && a.text == b.text && a.source == b.source
    && a.submittedRevision == b.submittedRevision && a.clearDraftOnAccept == b.clearDraftOnAccept
  }

  /** Sleep owed before `n` more attempts when `done` were made already. */
  function Backoff(done: nat, n: nat): nat {
    if n == 0 then 0 else Backoff(done, n - 1) + ReconcileDelay(done + n - 1)
  }

  function MinMs(a: int, b: int): int {
    if a < b then a else b
  }

  /** `reconcileCatchOutcome`: the record after a failed attempt, and whether the window is over. */
  function ReconcileFailure(error: SubmitError, record: SubmitRecord, at: int, deadlineAt: int): (SubmitRecord, bool) {
    if error.EpochMismatchError? then
      (record.(phase := GenerationLostPhase, serverLifecycleState := None, updatedAt := at), true)
    else if error.DeadlineError? || at >= deadlineAt then
      (EnterEndgame(RefreshReconcileElapsed(record, at), at), true)
    else if error.RouteError? && error.httpStatus != Some(503) then
      (record.(phase := RouteErrorPhase, updatedAt := at), true)
    else (record.(updatedAt := at), false)
  }

  // ---------------------------------------------------------------- what a reconcile attempt hears

  /** The last thing an attempt learns: a lifecycle state, a reconciliation, or an error, perhaps late. */
  datatype Hearing =
    | StatusSaid(state: LifecycleState)
    | ReconcileSaid(answer: Reconciliation)
    | Threw(error: SubmitError, late: bool)

  /** An error as the catch block meets it: the clock is read once more. */
  function Caught(error: SubmitError, deadlineAt: int, clock: Clock, drift: nat -> nat): Hearing {
    Threw(error, clock.Tick(drift).at >= deadlineAt)
  }

  function HeardFromReconcile(deadlineAt: int, n: nat, transport: Transport, clock: Clock): Hearing {
    var (answer, later) := BoundedAttempt(deadlineAt, clock, Fetched(transport.reconcile(n), false), transport.drift);
    match answer
    case Received(value) => ReconcileSaid(value)
    case Failed(error) => Caught(error, deadlineAt, later, transport.drift)
  }

  /** What the `n`-th attempt hears from its transport: a status read that settles, or the reconcile. */
  function HeardAt(deadlineAt: int, n: nat, transport: Transport, clock: Clock): Hearing {
    if transport.status.None? then HeardFromReconcile(deadlineAt, n, transport, clock) else
    var (status, later) := BoundedAttempt(deadlineAt, clock, transport.status.value(n), transport.drift);
    if status.Failed? then Caught(status.error, deadlineAt, later, transport.drift)
    else if status.value.Some? && !status.value.value.Unknown? then StatusSaid(status.value.value)
    else HeardFromReconcile(deadlineAt, n, transport, later)
  }

  /** A reconciliation that reports a state, other than one that resolves nothing. */
  predicate Reports(answer: Reconciliation) {
    answer.submissionState.Some? && !(answer.state.UnresolvedReconciliation? && answer.submissionState.value.Unknown?)
  }

  /** The attempt settles the submission; otherwise the window goes on. */
  predicate Settling(hearing: Hearing) {
    match hearing
    case StatusSaid(_) => true
    case ReconcileSaid(answer) => Reports(answer) || !answer.state.UnresolvedReconciliation?
    case Threw(error, late) =>
      error.EpochMismatchError? || error.DeadlineError? || late || (error.RouteError? && error.httpStatus != Some(503))
  }

  /** The record shows a verdict that came without a lifecycle state. */
  predicate ShowsVerdict(final: SubmitRecord, verdict: ReconciliationState) {
    match verdict
    case AcceptedReconciliation => final.phase.AcceptedPhase?
    case RejectedReconciliation => final.phase.RejectedPhase?
    case UnsupportedReconciliation => final.phase.UnsupportedPhase?
    case UnresolvedReconciliation => false
  }

  /** How a submission ends on what was heard last. */
  predicate EndsOn(hearing: Hearing, final: SubmitRecord) {
    match hearing
    case StatusSaid(state) => Shows(final, state)
    case ReconcileSaid(answer) =>
      && final.expectedBridgeEpoch == answer.bridgeEpoch
      && if Reports(answer) then Shows(final, answer.submissionState.value) else ShowsVerdict(final, answer.state)
    case Threw(error, late) =>
      if error.EpochMismatchError? then final.phase.GenerationLostPhase? && final.serverLifecycleState.None?
      else if error.DeadlineError? || late then final.phase.EndgamePhase?
      else final.phase.RouteErrorPhase?
  }

  datatype Round = Round(record: SubmitRecord, done: bool, clock: Clock, heard: Hearing)

  /** One pass through the loop body after its sleep: a status read, then a reconcile. */
  method ReconcileOnce(slept: SubmitRecord, deadlineAt: int, n: nat, transport: Transport, start: Clock)
    returns (round: Round)
    requires slept.phase.ReconcilingPhase?
    ensures SameSubmission(round.record, slept)
    ensures round.record.reconcileAttempts == slept.reconcileAttempts
    ensures round.clock.at >= start.at
    ensures round.heard == HeardAt(deadlineAt, n, transport, start)
    ensures round.done <==> Settling(round.heard)
    ensures round.done ==> EndsOn(round.heard, round.record)
    ensures round.done ==> round.record.phase !in {SendingPhase, ReconcilingPhase}
    ensures !round.done ==> round.record.phase in {ReconcilingPhase, AmbiguousPhase}
    ensures round.record.phase.EndgamePhase? ==> round.clock.at >= deadlineAt
    ensures WrittenWithin(round.record, start.at, round.clock.at)
    ensures round.record.reconcileWindowStartedAt == slept.reconcileWindowStartedAt
    ensures round.record.phase.EndgamePhase? && slept.reconcileWindowStartedAt.Some? ==>
      round.record.reconcileWindowElapsedMs >= deadlineAt - slept.reconcileWindowStartedAt.value
  {
    var record := slept;
    var clock := start;
    if transport.status.Some? {
      var (status, later) := BoundedAttempt(deadlineAt, clock, transport.status.value(n), transport.drift);
      clock := later;
      if status.Failed? {
        round := CatchRound(status.error, record, deadlineAt, transport, clock);
        return;
      }
      if status.value.Some? {
        record := ProjectLifecycle(record, status.value.value, clock.at);
        if !record.phase.AmbiguousPhase? { return Round(record, true, clock, StatusSaid(status.value.value)); }
      }
    }
    round := ReconcileRound(record, deadlineAt, n, transport, clock);
  }

  /** The reconcile of an attempt, after a status read that settled nothing. */
  method ReconcileRound(record: SubmitRecord, deadlineAt: int, n: nat, transport: Transport, start: Clock)
    returns (round: Round)
    requires record.phase.ReconcilingPhase? || record.phase.AmbiguousPhase?
    ensures SameSubmission(round.record, record) && round.record.reconcileAttempts == record.reconcileAttempts
    ensures round.clock.at >= start.at
    ensures round.heard == HeardFromReconcile(deadlineAt, n, transport, start)
    ensures round.done <==> Settling(round.heard)
    ensures round.done ==> EndsOn(round.heard, round.record)
    ensures round.done ==> round.record.phase !in {SendingPhase, ReconcilingPhase}
    ensures !round.done ==> round.record.phase in {ReconcilingPhase, AmbiguousPhase}
    ensures round.record.phase.EndgamePhase? ==> round.clock.at >= deadlineAt
    ensures WrittenWithin(round.record, start.at, round.clock.at)
    ensures round.record.reconcileWindowStartedAt == record.reconcileWindowStartedAt
    ensures round.record.phase.EndgamePhase? && record.reconcileWindowStartedAt.Some? ==>
      round.record.reconcileWindowElapsedMs >= deadlineAt - record.reconcileWindowStartedAt.value
  {
    var (answer, clock) := BoundedAttempt(deadlineAt, start, Fetched(transport.reconcile(n), false), transport.drift);
    if answer.Failed? {
      round := CatchRound(answer.error, record, deadlineAt, transport, clock);
    } else {
      var next := ReduceReconciliation(record, answer.value, clock.at);
      round := Round(next, !next.phase.ReconcilingPhase?, clock, ReconcileSaid(answer.value));
    }
  }

  method CatchRound(error: SubmitError, record: SubmitRecord, deadlineAt: int, transport: Transport, start: Clock)
    returns (round: Round)
    requires record.phase.ReconcilingPhase? || record.phase.AmbiguousPhase?
    requires error.DeadlineError? ==> start.at >= deadlineAt
    ensures SameSubmission(round.record, record) && round.record.reconcileAttempts == record.reconcileAttempts
    ensures round.clock.at >= start.at
    ensures round.heard == Caught(error, deadlineAt, start, transport.drift)
    ensures round.done <==> Settling(round.heard)
    ensures round.done ==> EndsOn(round.heard, round.record)
    ensures round.done ==> round.record.phase !in {SendingPhase, ReconcilingPhase}
    ensures !round.done ==> round.record.phase == record.phase
    ensures round.record.phase.EndgamePhase? ==> round.clock.at >= deadlineAt
    ensures WrittenWithin(round.record, start.at, round.clock.at)
    ensures round.record.reconcileWindowStartedAt == record.reconcileWindowStartedAt
    ensures round.record.phase.EndgamePhase? && record.reconcileWindowStartedAt.Some? ==>
      round.record.reconcileWindowElapsedMs >= deadlineAt - record.reconcileWindowStartedAt.value
  {
    var clock := start.Tick(transport.drift);
    var (next, done) := ReconcileFailure(error, record, clock.at, deadlineAt);
    round := Round(next, done, clock, Threw(error, clock.at >= deadlineAt));
  }

  /** The last attempt of a window: its number, its start and deadline, and what it heard. */
  datatype LastAttempt = NoAttempt | Attempted(n: nat, start: Clock, deadlineAt: int, heard: Hearing)

  /** What the last attempt is said to have heard is what its transport told it. */
  predicate FromTransport(last: LastAttempt, transport: Transport) {
    last.Attempted? ==> last.heard == HeardAt(last.deadlineAt, last.n, transport, last.start)
  }

  /** The window ends on what its last attempt heard, or on the endgame when that settled nothing. */
  predicate WindowEnd(last: LastAttempt, final: SubmitRecord) {
    if last.Attempted? && Settling(last.heard) then EndsOn(last.heard, final) else final.phase.EndgamePhase?
  }

  /** One turn of the window's loop: out of time, or a sleep and an attempt. */
  datatype Turn = OutOfTime(record: SubmitRecord, clock: Clock) | Tried(round: Round, start: Clock)

  method WindowTurn(initial: SubmitRecord, deadlineAt: int, n: nat, transport: Transport, start: Clock)
    returns (turn: Turn)
    ensures turn.OutOfTime? ==>
      && turn.record.phase.EndgamePhase? && SameSubmission(turn.record, initial)
      && turn.record.reconcileAttempts == initial.reconcileAttempts
      && turn.clock.at >= deadlineAt && turn.clock.at >= start.at
      && WrittenWithin(turn.record, start.at, turn.clock.at)
      && turn.record.reconcileWindowStartedAt == initial.reconcileWindowStartedAt
      && (initial.reconcileWindowStartedAt.Some? ==>
            turn.record.reconcileWindowElapsedMs >= deadlineAt - initial.reconcileWindowStartedAt.value)
    ensures turn.Tried? ==>
      && SameSubmission(turn.round.record, initial)
      && turn.round.record.reconcileAttempts == initial.reconcileAttempts + 1
      && start.at + ReconcileDelay(initial.reconcileAttempts) <= turn.start.at < deadlineAt
      && turn.round.clock.at >= turn.start.at
      && turn.round.heard == HeardAt(deadlineAt, n, transport, turn.start)
      && (turn.round.done <==> Settling(turn.round.heard))
      && (turn.round.done ==> EndsOn(turn.round.heard, turn.round.record))
      && (turn.round.done ==> turn.round.record.phase !in {SendingPhase, ReconcilingPhase})
      && (turn.round.record.phase.EndgamePhase? ==> turn.round.clock.at >= deadlineAt)
      && WrittenWithin(turn.round.record, start.at, turn.round.clock.at)
      && turn.round.record.reconcileWindowStartedAt == initial.reconcileWindowStartedAt
      && (turn.round.record.phase.EndgamePhase? && initial.reconcileWindowStartedAt.Some? ==>
            turn.round.record.reconcileWindowElapsedMs >= deadlineAt - initial.reconcileWindowStartedAt.value)
  {
    var clock := start.Tick(transport.drift);
    var remainingMs := deadlineAt - clock.at;
    if remainingMs <= 0 {
      return OutOfTime(EnterEndgame(RefreshReconcileElapsed(initial, clock.at), clock.at), clock);
    }
    var delayMs := ReconcileDelay(initial.reconcileAttempts);
    clock := clock.Pass(MinMs(delayMs, remainingMs)).Tick(transport.drift);
    if clock.at >= deadlineAt {
      return OutOfTime(EnterEndgame(RefreshReconcileElapsed(initial, clock.at), clock.at), clock);
    }
    var round := ReconcileOnce(RecordReconcileDelay(initial, clock.at), deadlineAt, n, transport, clock);
    turn := Tried(round, clock);
  }

  /** `reconcileWindow`: ask about the same request id under backoff until resolved or out of time. */
  method ReconcileWindow(
    initial: SubmitRecord, windowStartedAt: int, deadlineAt: int, transport: Transport, start: Clock)
    returns (final: SubmitRecord, attempts: nat, clock: Clock, last: LastAttempt)
    requires windowStartedAt <= start.at
    ensures SameSubmission(final, initial)
    ensures final.phase !in {SendingPhase, ReconcilingPhase}
    ensures final.reconcileAttempts == initial.reconcileAttempts + attempts
    ensures attempts > 0 ==> Backoff(initial.reconcileAttempts, attempts) < deadlineAt - windowStartedAt
    ensures start.at >= deadlineAt ==> attempts == 0 && final.phase.EndgamePhase?
    ensures final.phase.EndgamePhase? ==> clock.at >= deadlineAt
    ensures clock.at >= start.at
    ensures last.NoAttempt? <==> attempts == 0
    ensures last.Attempted? ==> last.n == attempts - 1 && last.deadlineAt == deadlineAt && start.at <= last.start.at < deadlineAt
    ensures FromTransport(last, transport) && WindowEnd(last, final)
    ensures WrittenWithin(final, start.at, clock.at) && final.reconcileWindowStartedAt == Some(windowStartedAt)
    ensures final.phase.EndgamePhase? ==> final.reconcileWindowElapsedMs >= deadlineAt - windowStartedAt
  {
    clock := start.Tick(transport.drift);
    final := EnterReconcileWindow(initial, clock.at, windowStartedAt);
    attempts, last := 0, NoAttempt;
    while true
      invariant SameSubmission(final, initial)
      invariant final.reconcileAttempts == initial.reconcileAttempts + attempts
      invariant attempts > 0 ==> Backoff(initial.reconcileAttempts, attempts) < deadlineAt - windowStartedAt
      invariant Backoff(initial.reconcileAttempts, attempts) <= clock.at - windowStartedAt
      invariant clock.at >= start.at
      invariant start.at >= deadlineAt ==> attempts == 0
      invariant last.NoAttempt? <==> attempts == 0
      invariant last.Attempted? ==> last.n == attempts - 1 && last.deadlineAt == deadlineAt && start.at <= last.start.at < deadlineAt
      invariant FromTransport(last, transport) && (last.Attempted? ==> !Settling(last.heard))
      invariant WrittenWithin(final, start.at, clock.at) && final.reconcileWindowStartedAt == Some(windowStartedAt)
      decreases deadlineAt - clock.at
    {
      var turn := WindowTurn(final, deadlineAt, attempts, transport, clock);
      if turn.OutOfTime? {
        final, clock := turn.record, turn.clock;
        return;
      }
      last := Attempted(attempts, turn.start, deadlineAt, turn.round.heard);
      final, clock, attempts := turn.round.record, turn.round.clock, attempts + 1;
      if turn.round.done { return; }
    }
  }

  /** `submitCatchOutcome` for an error that is not retried. */
  function SubmitFailure(error: SubmitError, record: SubmitRecord, at: int): SubmitRecord {
    match error
    case EpochMismatchError =>
      record.(phase := GenerationLostPhase, serverLifecycleState := None, updatedAt := at)
    case RouteError(_) => record.(phase := RouteErrorPhase, updatedAt := at)
    case PreDispatchError => record.(phase := RouteErrorPhase, updatedAt := at)
    case _ => record.(phase := AmbiguousPhase, updatedAt := at)
  }

  /** Every call but the last was certified unsent, so at most one call can have been dispatched. */
  predicate AtMostOneDispatch(calls: seq<Call>) {
    forall i :: 0 <= i < |calls| - 1 ==> calls[i].CertifiedUnsent()
  }

  /** What the last submit answer obliges the final record to say. */
  predicate Answered(answer: Outcome<Receipt>, final: SubmitRecord) {
    match answer
    case Received(Receipt(Immediate, epoch)) =>
      final.phase.AcceptedPhase? && final.serverLifecycleState == Some(Delivered) && final.expectedBridgeEpoch == epoch
    case Received(Receipt(QueuedReceipt, epoch)) =>
      final.phase.QueuedPhase? && final.serverLifecycleState == None && final.expectedBridgeEpoch == epoch
    case Received(Receipt(RejectedReceipt, epoch)) =>
      final.phase.RejectedPhase? && final.serverLifecycleState == Some(Rejected) && final.expectedBridgeEpoch == epoch
    case Received(Receipt(UnsupportedReceipt, epoch)) =>
      final.phase.UnsupportedPhase? && final.serverLifecycleState == Some(Unsupported) && final.expectedBridgeEpoch == epoch
    case Failed(EpochMismatchError) => final.phase.GenerationLostPhase? && final.serverLifecycleState == None
    case Failed(RouteError(_)) => final.phase.RouteErrorPhase?
    case Failed(PreDispatchError) => final.phase in {RouteErrorPhase, EndgamePhase}
    case _ => final.phase !in {SendingPhase, ReconcilingPhase}
  }

  /** The outcome of the `n`-th submit call, and the clock after it. */
  function Submitted(n: nat, deadlineAt: int, clock: Clock, transport: Transport): (Outcome<Receipt>, Clock) {
    BoundedAttempt(deadlineAt, clock, Fetched(transport.submit(n), true), transport.drift)
  }

  /** The calls of one execution from its `n`-th on: one more follows exactly a first certified failure. */
  function CallsFrom(n: nat, request: Request, deadlineAt: int, clock: Clock, transport: Transport): seq<Call>
    requires n <= 1
    decreases 1 - n
  {
    var (answer, later) := Submitted(n, deadlineAt, clock, transport);
    (if Issues(deadlineAt, clock, transport.drift) then [Call(request, answer)] else []) +
    (if n == 0 && answer == Failed(PreDispatchError) then CallsFrom(1, request, deadlineAt, later, transport) else [])
  }

  /** What the submit loop leaves: settled by the last answer, or ambiguous and left to reconciliation. */
  predicate LoopEnd(calls: seq<Call>, record: SubmitRecord, late: bool) {
    && record.phase !in {SendingPhase, ReconcilingPhase, EndgamePhase}
    && (calls == [] ==> record.phase.AmbiguousPhase? && late)
    && (calls != [] && calls[|calls| - 1].CertifiedUnsent() ==>
          if |calls| == 1 then record.phase.AmbiguousPhase? && late else record.phase.RouteErrorPhase?)
    && (calls != [] && !record.phase.AmbiguousPhase? ==> Answered(calls[|calls| - 1].answer, record))
    && (record.phase.AmbiguousPhase? <==> LeftOpen(calls))
    && (calls != [] && calls[|calls| - 1].answer.Received? && record.phase.AmbiguousPhase? ==>
          record.serverLifecycleState == Some(Unknown) &&
          record.expectedBridgeEpoch == calls[|calls| - 1].answer.value.bridgeEpoch)
  }

  /** An answer that does not tell what became of the submission. */
  predicate Unsettled(answer: Outcome<Receipt>) {
    match answer
    case Received(receipt) => receipt.acceptance.UnknownReceipt?
    case Failed(error) => error.DeadlineError? || error.OtherError? || error.PreDispatchError?
  }

  /** The calls leave the submission's fate open: to be reconciled. */
  predicate LeftOpen(calls: seq<Call>) {
    calls == [] || (Unsettled(calls[|calls| - 1].answer) && !(|calls| == 2 && calls[1].CertifiedUnsent()))
  }

  /** The record after an answer that is not retried. */
  function Reduced(answer: Outcome<Receipt>, record: SubmitRecord, at: int): SubmitRecord {
    match answer
    case Received(receipt) => ReduceReceipt(record, receipt, at)
    case Failed(error) => SubmitFailure(error, record, at)
  }

  lemma ReducedEnds(calls: seq<Call>, answer: Outcome<Receipt>, initial: SubmitRecord, at: int, late: bool)
    requires calls != [] && calls[|calls| - 1].answer != answer ==> |calls| == 1 && calls[0].CertifiedUnsent()
    requires calls == [] || calls[|calls| - 1].answer != answer ==> answer == Failed(DeadlineError) && late
    requires answer == Failed(PreDispatchError) ==> |calls| == 2
    ensures SameSubmission(Reduced(answer, initial, at), initial)
    ensures Reduced(answer, initial, at).reconcileAttempts == initial.reconcileAttempts
    ensures LoopEnd(calls, Reduced(answer, initial, at), late) && Reduced(answer, initial, at).updatedAt == at
  {
  }

  /** The loop of `executeReliableSubmit`. */
  method SubmitLoop(initial: SubmitRecord, deadlineAt: int, transport: Transport, start: Clock)
    returns (record: SubmitRecord, calls: seq<Call>, clock: Clock)
    ensures calls == CallsFrom(0, RequestOf(initial), deadlineAt, start, transport)
    ensures |calls| <= 2 && AtMostOneDispatch(calls)
    ensures |calls| == 2 ==> IsCertificate(transport.submit(0))
    ensures SameSubmission(record, initial) && record.reconcileAttempts == initial.reconcileAttempts
    ensures LoopEnd(calls, record, clock.at >= deadlineAt)
    ensures WrittenWithin(record, start.at, clock.at)
    ensures clock.at >= start.at
  {
    clock, record := start, initial;
    var preDispatchRetries := 0;
    calls := [];
    ghost var expected := CallsFrom(0, RequestOf(initial), deadlineAt, clock, transport);
    while true
      invariant record == initial && start.at <= clock.at
      invariant 0 <= preDispatchRetries <= 1 && |calls| == preDispatchRetries
      invariant expected == calls + CallsFrom(preDispatchRetries, RequestOf(initial), deadlineAt, clock, transport)
      invariant preDispatchRetries == 1 ==> IsCertificate(transport.submit(0)) && calls[0].CertifiedUnsent()
      decreases 1 - preDispatchRetries
    {
      var issued := Issues(deadlineAt, clock, transport.drift);
      var (answer, later) := Submitted(preDispatchRetries, deadlineAt, clock, transport);
      clock := later;
      if issued { calls := calls + [Call(RequestOf(record), answer)]; }
      if answer == Failed(PreDispatchError) && preDispatchRetries == 0 {
        preDispatchRetries := 1;
        continue;
      }
      record := Reduced(answer, record, clock.at);
      ReducedEnds(calls, answer, initial, clock.at, clock.at >= deadlineAt);
      break;
    }
  }

  lemma CallsCarryTheRequest(n: nat, request: Request, deadlineAt: int, clock: Clock, transport: Transport)
    requires n <= 1
    ensures forall c <- CallsFrom(n, request, deadlineAt, clock, transport) :: c.request == request
    decreases 1 - n
  {
    if n == 0 { CallsCarryTheRequest(1, request, deadlineAt, Submitted(n, deadlineAt, clock, transport).1, transport); }
  }

  /**
    `executeReliableSubmit`: whatever the transport does, it ends; it issues at most two calls, all
    with one id, text and epoch, the second only after the server's exact certificate; when the last
    answer is a certificate, it ends on a route error if that was the resend's and on the endgame if no
    time was left to resend; and the reconcile attempts fit the window under the backoff.
   */
  method ExecuteReliableSubmit(initial: SubmitRecord, windowMs: nat, transport: Transport, start: Clock)
    returns (final: SubmitRecord, calls: seq<Call>, attempts: nat, clock: Clock, last: LastAttempt)
    ensures |calls| <= 2 && AtMostOneDispatch(calls)
    ensures forall c <- calls :: c.request == RequestOf(initial)
    ensures var begun := start.Tick(transport.drift);
      calls == CallsFrom(0, RequestOf(initial), begun.at + windowMs, begun, transport)
    ensures |calls| == 2 ==> IsCertificate(transport.submit(0))
    ensures SameSubmission(final, initial)
    ensures EndsRightly(calls, final, attempts, last)
    ensures FromTransport(last, transport)
    ensures last.Attempted? ==> last.deadlineAt == start.Tick(transport.drift).at + windowMs
    ensures final.reconcileAttempts == initial.reconcileAttempts + attempts
    ensures attempts > 0 ==> Backoff(initial.reconcileAttempts, attempts) < windowMs
    ensures initial.reconcileAttempts == 0 && windowMs == RECONCILE_WINDOW_MS ==> attempts <= 25
    ensures WrittenWithin(final, start.at, clock.at)
    ensures final.phase.EndgamePhase? ==> final.reconcileWindowElapsedMs >= windowMs
    ensures clock.at >= start.at
  {
    clock := start.Tick(transport.drift);
    var windowStartedAt := clock.at;
    var deadlineAt := windowStartedAt + windowMs;
    CallsCarryTheRequest(0, RequestOf(initial), deadlineAt, clock, transport);
    final, calls, clock := SubmitLoop(initial, deadlineAt, transport, clock);
    final, attempts, clock, last := ReconcileIfOpen(calls, final, windowStartedAt, deadlineAt, transport, clock);
    if initial.reconcileAttempts == 0 { AttemptsOfFreshWindow(attempts); }
  }

  /**
    How an execution ends: settled, as its last submit answer obliges; a certificate as last answer ends
    on the endgame exactly when no resend was made; a submission left open ends on what the window's
    last attempt heard.
   */
  predicate EndsRightly(calls: seq<Call>, final: SubmitRecord, attempts: nat, last: LastAttempt) {
    && final.phase !in {SendingPhase, ReconcilingPhase}
    && (calls != [] ==> Answered(calls[|calls| - 1].answer, final))
    && (calls != [] && calls[|calls| - 1].CertifiedUnsent() ==> (final.phase.EndgamePhase? <==> |calls| == 1))
    && (calls == [] ==> final.phase.EndgamePhase? && attempts == 0)
    && (LeftOpen(calls) ==> WindowEnd(last, final))
    && (last.Attempted? ==> LeftOpen(calls) && last.n == attempts - 1)
  }

  /** The tail of `executeReliableSubmit`: an ambiguous submission is reconciled in the same window. */
  method ReconcileIfOpen(
    ghost calls: seq<Call>, record: SubmitRecord, windowStartedAt: int, deadlineAt: int, transport: Transport, start: Clock)
    returns (final: SubmitRecord, attempts: nat, clock: Clock, last: LastAttempt)
    requires windowStartedAt <= start.at && LoopEnd(calls, record, start.at >= deadlineAt)
    requires WrittenWithin(record, windowStartedAt, start.at)
    ensures WrittenWithin(final, windowStartedAt, clock.at)
    ensures final.phase.EndgamePhase? ==> final.reconcileWindowElapsedMs >= deadlineAt - windowStartedAt
    ensures SameSubmission(final, record) && final.reconcileAttempts == record.reconcileAttempts + attempts
    ensures EndsRightly(calls, final, attempts, last)
    ensures FromTransport(last, transport) && (last.Attempted? ==> last.deadlineAt == deadlineAt)
    ensures attempts > 0 ==> Backoff(record.reconcileAttempts, attempts) < deadlineAt - windowStartedAt
    ensures clock.at >= start.at
  {
    LoopEndMeans(calls, record, start.at >= deadlineAt);
    final, attempts, clock, last := record, 0, start, NoAttempt;
    if record.phase.AmbiguousPhase? {
      final, attempts, clock, last := ReconcileWindow(record, windowStartedAt, deadlineAt, transport, start);
      OpenMeansAnswered(calls, final);
    }
  }

  lemma LoopEndMeans(calls: seq<Call>, record: SubmitRecord, late: bool)
    requires LoopEnd(calls, record, late)
    ensures record.phase !in {SendingPhase, ReconcilingPhase, EndgamePhase}
    ensures record.phase.AmbiguousPhase? <==> LeftOpen(calls)
    ensures !record.phase.AmbiguousPhase? ==> calls != [] && Answered(calls[|calls| - 1].answer, record)
    ensures calls == [] ==> late
    ensures calls != [] && calls[|calls| - 1].CertifiedUnsent() ==>
      if |calls| == 1 then record.phase.AmbiguousPhase? && late else record.phase.RouteErrorPhase?
  {
  }

  lemma OpenMeansAnswered(calls: seq<Call>, final: SubmitRecord)
    requires LeftOpen(calls) && final.phase !in {SendingPhase, ReconcilingPhase}
    requires calls != [] && calls[|calls| - 1].CertifiedUnsent() ==> final.phase.EndgamePhase?
    ensures calls != [] ==> Answered(calls[|calls| - 1].answer, final)
  {
  }

  /** A server that certifies its failure only as the window closes. */
  function LateCertificate(): Transport {
    var body := ErrorBody(Some("pre-dispatch-failed"), true, Some("control-ipc"), false, false);
    Transport(n => FailsHttp(503, Some(body), RECONCILE_WINDOW_MS), n => Lost(0), None, n => 0)
  }

  /** Its certificate leaves no time to resend: nothing was dispatched, yet the submit ends on the endgame. */
  method LateCertificateEndsOnEndgame(initial: SubmitRecord)
    returns (final: SubmitRecord, calls: seq<Call>)
    ensures final.phase.EndgamePhase? && |calls| == 1 && calls[0].CertifiedUnsent()
  {
    var attempts, clock, last;
    final, calls, attempts, clock, last := ExecuteReliableSubmit(initial, RECONCILE_WINDOW_MS, LateCertificate(), Clock(0, 0));
    LateCertificateCalls(RequestOf(initial));
  }

  lemma LateCertificateCalls(request: Request)
    ensures CallsFrom(0, request, RECONCILE_WINDOW_MS, Clock(0, 1), LateCertificate()) ==
      [Call(request, Failed(PreDispatchError))]
  {
    var transport := LateCertificate();
    var first := Submitted(0, RECONCILE_WINDOW_MS, Clock(0, 1), transport);
    assert first == (Failed(PreDispatchError), Clock(RECONCILE_WINDOW_MS, 2));
    assert CallsFrom(1, request, RECONCILE_WINDOW_MS, first.1, transport) == [];
  }

  lemma BackoffGrows(n: nat)
    ensures n >= 2 ==> Backoff(0, n) == 5_000 * n - 7_000
    ensures n < 2 ==> Backoff(0, n) == 1_000 * n
  {
    if n > 0 { BackoffGrows(n - 1); }
  }

  /** A fresh window of 120 s holds 25 attempts of a fresh record, and never 26. */
  lemma AttemptsOfFreshWindow(attempts: nat)
    ensures Backoff(0, attempts) < RECONCILE_WINDOW_MS <==> attempts <= 25
  {
    BackoffGrows(attempts);
  }

  /** `retryPayload`: a retry carries the first message of its id, whatever the draft says now. */
  function RetryPayload(record: SubmitRecord, candidateText: string): (RequestId, string) {
    (record.requestId, record.text)
  }

  /** What a user may start: a fresh submit, a retry after a route error, another reconcile window. */
  datatype UserAct =
    | Submit(record: SubmitRecord, transport: Transport)
    | Retry(requestId: RequestId, candidateText: string, transport: Transport)
    | KeepWaiting(requestId: RequestId, transport: Transport)

  /** No server keyed by request id ever sees two texts under one id. */
  predicate OneTextPerId(calls: seq<Call>) {
    forall a <- calls, b <- calls :: a.request.requestId == b.request.requestId ==> a.request.text == b.request.text
  }

  predicate CallsMatch(calls: seq<Call>, records: map<RequestId, SubmitRecord>) {
    forall c <- calls :: c.request.requestId in records && c.request.text == records[c.request.requestId].text
  }

  predicate KeyedById(records: map<RequestId, SubmitRecord>) {
    forall id <- records :: records[id].requestId == id
  }

  /** Any sequence of submits, manual retries and renewed waits, against any transports. */
  method DriveSubmissions(acts: seq<UserAct>, start: Clock)
    returns (calls: seq<Call>, records: map<RequestId, SubmitRecord>)
    ensures OneTextPerId(calls) && CallsMatch(calls, records)
    ensures forall id <- records :: records[id].phase !in {SendingPhase, ReconcilingPhase}
  {
    calls, records := [], map[];
    var clock := start;
    for i := 0 to |acts|
      invariant CallsMatch(calls, records) && KeyedById(records)
      invariant forall id <- records :: records[id].phase !in {SendingPhase, ReconcilingPhase}
    {
      match acts[i]
      case Submit(record, transport) =>
        // request ids come from crypto.randomUUID, so a fresh submit never reuses one
        if record.requestId !in records {
          var final, issued, _, later, _ := ExecuteReliableSubmit(record, RECONCILE_WINDOW_MS, transport, clock);
          calls, records, clock := calls + issued, records[record.requestId := final], later;
        }
      case Retry(id, candidateText, transport) =>
        if id in records && records[id].phase.RouteErrorPhase? {
          var (requestId, text) := RetryPayload(records[id], candidateText);
          clock := clock.Tick(transport.drift);
          var restarted := records[id].(requestId := requestId, text := text, phase := SendingPhase, updatedAt := clock.at);
          var final, issued, _, later, _ := ExecuteReliableSubmit(restarted, RECONCILE_WINDOW_MS, transport, clock);
          calls, records, clock := calls + issued, records[id := final], later;
        }
      case KeepWaiting(id, transport) =>
        if id in records && records[id].phase.EndgamePhase? {
          clock := clock.Tick(transport.drift);
          var final, _, later, _ :=
            ReconcileWindow(records[id], clock.at, clock.at + RECONCILE_WINDOW_MS, transport, clock);
          records, clock := records[id := final], later;
        }
    }
  }
}
