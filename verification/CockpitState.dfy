/**
  The value of one session's cockpit slice (dashboard/src/data/sessionCockpitStore.ts) as far as
  submissions go: the composer with its revision, the queued entries, the retained records and the
  single withdrawal slot; with the store's write operations on it.
 */
module CockpitState {
  import opened Wrappers
  import opened SubmitMachine
  import opened SubmitRetention

  datatype QueuedSubmit = QueuedSubmit(
    requestId: RequestId, text: string, queuedAt: int, expectedBridgeEpoch: string)

  datatype PendingWithdrawal = PendingWithdrawal(
    requestId: RequestId, text: string, expectedBridgeEpoch: string, draftRevision: nat, requestedAt: int)

  /** The one withdrawal slot of a session. */
  datatype Withdrawal =
    | NoWithdrawal
    | Pending(target: PendingWithdrawal)
    | Recovery(requestId: RequestId, text: string, withdrawnAt: int)

  datatype Cockpit = Cockpit(
    draft: string,
    draftRevision: nat,
    queue: seq<QueuedSubmit>,
    history: seq<SubmitRecord>,
    withdrawal: Withdrawal)

  const EMPTY := Cockpit("", 0, [], [], NoWithdrawal)

  function SetComposerDraft(c: Cockpit, draft: string): Cockpit {
    c.(draft := draft, draftRevision := c.draftRevision + 1)
  }

  /** `replaceComposerDraftIfRevision`; `clearComposerDraftIfRevision` is the case of an empty draft. */
  function ReplaceDraftIfRevision(c: Cockpit, expected: nat, draft: string): Cockpit {
    if c.draftRevision != expected then c else SetComposerDraft(c, draft)
  }

  function Enqueue(c: Cockpit, entry: QueuedSubmit): Cockpit {
    c.(queue := CompactQueue(c.queue + [entry]))
  }

  function WithoutId(queue: seq<QueuedSubmit>, id: RequestId): seq<QueuedSubmit> {
    if queue == [] then []
    else (if queue[0].requestId == id then [] else [queue[0]]) + WithoutId(queue[1..], id)
  }

  function Dequeue(c: Cockpit, id: RequestId): Cockpit {
    c.(queue := WithoutId(c.queue, id))
  }

  function UpsertRecord(c: Cockpit, record: SubmitRecord): Cockpit {
    c.(history := Upsert(c.history, record))
  }

  function SetWithdrawal(c: Cockpit, withdrawal: Withdrawal): Cockpit {
    c.(withdrawal := withdrawal)
  }

  function RecordOf(c: Cockpit, id: RequestId): Option<SubmitRecord> {
    Find(c.history, id)
  }

  predicate HasRecovery(c: Cockpit, id: RequestId) {
    c.withdrawal.Recovery? && c.withdrawal.requestId == id
  }

  predicate HasPending(c: Cockpit, id: RequestId) {
    c.withdrawal.Pending? && c.withdrawal.target.requestId == id
  }

  /** `dismissWithdrawalRecoveryIfMatches` */
  function DismissRecoveryIfMatches(c: Cockpit, id: RequestId, expected: nat): Cockpit {
    if c.draftRevision != expected || !HasRecovery(c, id) then c else SetWithdrawal(c, NoWithdrawal)
  }

  lemma {:induction false} WithoutIdMembers(queue: seq<QueuedSubmit>, id: RequestId)
    ensures forall q :: q in WithoutId(queue, id) <==> q in queue && q.requestId != id
  {
    if queue != [] {
      WithoutIdMembers(queue[1..], id);
      assert forall q :: q in queue <==> q == queue[0] || q in queue[1..];
    }
  }
}
