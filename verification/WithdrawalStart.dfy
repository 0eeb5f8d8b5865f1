/** Which message a withdrawal takes, and what stands in the queue it is taken from. */
module WithdrawalStart {
  import opened Wrappers
  import opened SubmitMachine
  import opened SubmitRetention
  import opened CockpitState
  import opened SubmissionLifecycle
  import opened SubmissionWithdrawal
  import opened WithdrawalSafety
  import opened WithdrawalTheorems

  /** The withdrawal of one queued entry, begun at the composer revision on screen. */
  predicate Takes(target: PendingWithdrawal, entry: QueuedSubmit, c: Cockpit, at: int) {
    && target.requestId == entry.requestId && target.text == entry.text
    && target.expectedBridgeEpoch == entry.expectedBridgeEpoch
    && target.draftRevision == c.draftRevision && target.requestedAt == at
  }

  /** A withdrawal is under way: it waits for its first answer, against the record as it now stands. */
  predicate HasBegun(s: Session, t: Session, target: PendingWithdrawal) {
    && t == s.(cockpit := s.cockpit.(withdrawal := Pending(target)), operation := t.operation)
    && t.operation.Running? && t.operation.target == target && t.operation.waiting.ForWithdraw?
    && t.operation.waiting.observedVersion ==
         (if RecordOf(s.cockpit, target.requestId).None? then -1
          else RecordOf(s.cockpit, target.requestId).value.lifecycleObservationVersion)
  }

  /**
    Starting a withdrawal: an open one is resumed; otherwise the last entry of the queue is taken. A
    running withdrawal, a held recovery or an empty queue blocks it.
   */
  lemma WithdrawalTakesTheLastQueued(s: Session, at: int)
    ensures var t, c := Step(s, WithdrawStarts(at)), s.cockpit;
      if s.operation.Running? || c.withdrawal.Recovery? then t == s
      else if c.withdrawal.Pending? then HasBegun(s, t, c.withdrawal.target)
      else if c.queue == [] then t == s
      else
        && t.operation.Running? && HasBegun(s, t, t.operation.target)
        && Takes(t.operation.target, c.queue[|c.queue| - 1], c, at)
  {
  }

  // ---------------------------------------------------------------- what stands in the queue

  /** The observation takes the request out of the queue: it is applied and does not say "queued". */
  predicate LeavesQueue(s: Session, d: Delivery) {
    var settlement := Settle(CurrentSnapshot(s.cockpit, d.id), d.observation, d.observedVersion);
    settlement.Apply? && settlement.observation != Server(Queued)
  }

  predicate IsQueuedReturn(s: Session, e: Event) {
    && e.SubmitReturned? && IsFreshReturn(s, e.record)
    && e.record.source.Composer? && e.record.phase.QueuedPhase?
  }

  /** The newest 64. */
  function Newest(queue: seq<QueuedSubmit>): seq<QueuedSubmit> {
    if |queue| <= 64 then queue else queue[|queue| - 64..]
  }

  lemma DeliveryQueue(s: Session, e: Event)
    requires DeliveryOf(s, e).Some?
    ensures var d := DeliveryOf(s, e).value;
      CockpitAfter(s, e).queue == if LeavesQueue(s, d) then WithoutId(s.cockpit.queue, d.id) else s.cockpit.queue
  {
  }

  /** A queued composer submit goes last; a settled one goes; nothing else moves. */
  lemma QueueAfter(s: Session, e: Event)
    requires Inv(s)
    ensures var before, after := s.cockpit.queue, CockpitAfter(s, e).queue;
      if IsQueuedReturn(s, e) then
        after == Newest(before + [QueuedSubmit(e.record.requestId, e.record.text, e.record.updatedAt, e.record.expectedBridgeEpoch)])
      else if DeliveryOf(s, e).Some? && LeavesQueue(s, DeliveryOf(s, e).value) then
        && (forall q :: q in after <==> q in before && q.requestId != DeliveryOf(s, e).value.id)
        && after == WithoutId(before, DeliveryOf(s, e).value.id)
      else after == before
  {
    if DeliveryOf(s, e).Some? {
      DeliveryQueue(s, e);
      WithoutIdMembers(s.cockpit.queue, DeliveryOf(s, e).value.id);
    } else if e.RestoreRecovery? || e.DismissRecovery? || e.ReleaseRecord? || e.PollStarts? {
      RecordStepQueue(s, e);
    }
  }

  lemma RecordStepQueue(s: Session, e: Event)
    requires e.RestoreRecovery? || e.DismissRecovery? || e.ReleaseRecord? || e.PollStarts?
    ensures CockpitAfter(s, e).queue == s.cockpit.queue
  {
  }

  // ---------------------------------------------------------------- the queue is in submit order

  /** A session in which nothing has been submitted. */
  ghost predicate IsNew(s: Session) {
    Inv(s) && s.sent == map[] && s.cockpit.queue == []
  }

  /** The step of a run that returned the submit of `id`; -1 when none did. */
  function TakenAt(s0: Session, events: seq<Event>, id: RequestId): (k: int)
    ensures -1 <= k < |events|
  {
    if events == [] then -1 else
    var rest, e := events[..|events| - 1], events[|events| - 1];
    if e.SubmitReturned? && e.record.requestId == id && IsFreshReturn(Run(s0, rest), e.record) then |rest|
    else TakenAt(s0, rest, id)
  }

  predicate InSubmitOrder(s0: Session, queue: seq<QueuedSubmit>, events: seq<Event>) {
    forall i, j :: 0 <= i < j < |queue| ==> TakenAt(s0, events, queue[i].requestId) < TakenAt(s0, events, queue[j].requestId)
  }

  predicate AllTaken(s0: Session, queue: seq<QueuedSubmit>, events: seq<Event>) {
    forall i :: 0 <= i < |queue| ==> TakenAt(s0, events, queue[i].requestId) >= 0
  }

  lemma {:induction false} SentWasTaken(s0: Session, events: seq<Event>, id: RequestId)
    requires IsNew(s0)
    ensures id in Run(s0, events).sent <==> TakenAt(s0, events, id) >= 0
  {
    if events != [] {
      var rest, e := events[..|events| - 1], events[|events| - 1];
      SentWasTaken(s0, rest, id);
      RunLast(s0, events);
    }
  }

  lemma RunPush(s: Session, events: seq<Event>, e: Event)
    ensures Run(s, events + [e]) == Step(Run(s, events), e)
  {
    RunConcat(s, events, [e]);
    RunSingle(Run(s, events), e);
  }

  lemma RunSingle(s: Session, e: Event)
    ensures Run(s, [e]) == Step(s, e)
  {
    assert [e][1..] == [];
  }

  lemma RunLast(s0: Session, events: seq<Event>)
    requires events != []
    ensures Run(s0, events) == Step(Run(s0, events[..|events| - 1]), events[|events| - 1])
  {
    assert events == events[..|events| - 1] + [events[|events| - 1]];
    RunPush(s0, events[..|events| - 1], events[|events| - 1]);
  }

  lemma {:induction false} DroppingKeepsOrder(s0: Session, queue: seq<QueuedSubmit>, id: RequestId, events: seq<Event>)
    requires InSubmitOrder(s0, queue, events)
    ensures InSubmitOrder(s0, WithoutId(queue, id), events)
  {
    if queue != [] {
      var rest := WithoutId(queue[1..], id);
      DroppingKeepsOrder(s0, queue[1..], id, events);
      WithoutIdMembers(queue[1..], id);
      forall k | 0 <= k < |rest| ensures TakenAt(s0, events, queue[0].requestId) < TakenAt(s0, events, rest[k].requestId) {
        assert rest[k] in queue[1..];
        var j :| 1 <= j < |queue| && queue[j] == rest[k];
      }
    }
  }

  /** One more step leaves the numbers of messages already sent alone. */
  lemma SameOrderLater(s0: Session, queue: seq<QueuedSubmit>, events: seq<Event>)
    requires IsNew(s0)
    requires events != [] && InSubmitOrder(s0, queue, events[..|events| - 1]) && AllTaken(s0, queue, events[..|events| - 1])
    ensures InSubmitOrder(s0, queue, events) && AllTaken(s0, queue, events)
  {
    var rest := events[..|events| - 1];
    forall i | 0 <= i < |queue| ensures TakenAt(s0, events, queue[i].requestId) == TakenAt(s0, rest, queue[i].requestId) {
      SentWasTaken(s0, rest, queue[i].requestId);
    }
  }

  lemma AppendingKeepsOrder(s0: Session, queue: seq<QueuedSubmit>, entry: QueuedSubmit, events: seq<Event>)
    requires InSubmitOrder(s0, queue, events)
    requires forall i :: 0 <= i < |queue| ==> TakenAt(s0, events, queue[i].requestId) < TakenAt(s0, events, entry.requestId)
    ensures InSubmitOrder(s0, Newest(queue + [entry]), events)
  {
    var all := queue + [entry];
    assert InSubmitOrder(s0, all, events);
  }

  /** In every session the queue stands in the order its messages were submitted. */
  lemma {:induction false} QueueIsInSubmitOrder(s0: Session, events: seq<Event>)
    requires IsNew(s0)
    ensures InSubmitOrder(s0, Run(s0, events).cockpit.queue, events)
    ensures AllTaken(s0, Run(s0, events).cockpit.queue, events)
    decreases |events|, 1
  {
    var s := Run(s0, events);
    RunKeepsInv(s0, events);
    forall i | 0 <= i < |s.cockpit.queue| ensures TakenAt(s0, events, s.cockpit.queue[i].requestId) >= 0 {
      assert s.cockpit.queue[i] in s.cockpit.queue;
      SentWasTaken(s0, events, s.cockpit.queue[i].requestId);
    }
    if events != [] { QueueOrderStep(s0, events); }
  }

  lemma QueueOrderStep(s0: Session, events: seq<Event>)
    requires events != [] && IsNew(s0)
    ensures InSubmitOrder(s0, Run(s0, events).cockpit.queue, events)
    decreases |events|, 0
  {
    var rest, e := events[..|events| - 1], events[|events| - 1];
    var before := Run(s0, rest);
    QueueIsInSubmitOrder(s0, rest);
    RunKeepsInv(s0, rest);
    RunLast(s0, events);
    QueueAfter(before, e);
    SameOrderLater(s0, before.cockpit.queue, events);
    if IsQueuedReturn(before, e) {
      var entry := QueuedSubmit(e.record.requestId, e.record.text, e.record.updatedAt, e.record.expectedBridgeEpoch);
      EarlierThan(s0, before.cockpit.queue, events);
      AppendingKeepsOrder(s0, before.cockpit.queue, entry, events);
    } else if DeliveryOf(before, e).Some? {
      DroppingKeepsOrder(s0, before.cockpit.queue, DeliveryOf(before, e).value.id, events);
    }
  }

  lemma EarlierThan(s0: Session, queue: seq<QueuedSubmit>, events: seq<Event>)
    requires IsNew(s0)
    requires events != [] && AllTaken(s0, queue, events[..|events| - 1])
    ensures forall i :: 0 <= i < |queue| ==> TakenAt(s0, events, queue[i].requestId) < |events| - 1
  {
    var rest := events[..|events| - 1];
    forall i | 0 <= i < |queue| ensures TakenAt(s0, events, queue[i].requestId) < |events| - 1 {
      SentWasTaken(s0, rest, queue[i].requestId);
    }
  }

  /** In every session, a fresh withdrawal takes back the latest submitted message still queued. */
  lemma LatestQueuedIsWithdrawn(s0: Session, events: seq<Event>, at: int)
    requires IsNew(s0)
    requires var s := Run(s0, events);
      s.operation.Idle? && s.cockpit.withdrawal.NoWithdrawal? && s.cockpit.queue != []
    ensures var s := Run(s0, events);
      var t := Step(s, WithdrawStarts(at));
      && t.operation.Running?
      && (exists entry <- s.cockpit.queue :: Takes(t.operation.target, entry, s.cockpit, at))
      && forall q <- s.cockpit.queue ::
           TakenAt(s0, events, q.requestId) <= TakenAt(s0, events, t.operation.target.requestId)
  {
    var s := Run(s0, events);
    QueueIsInSubmitOrder(s0, events);
    WithdrawalTakesTheLastQueued(s, at);
    LastIsLatest(s0, s.cockpit.queue, events);
    assert s.cockpit.queue[|s.cockpit.queue| - 1] in s.cockpit.queue;
  }

  lemma LastIsLatest(s0: Session, queue: seq<QueuedSubmit>, events: seq<Event>)
    requires InSubmitOrder(s0, queue, events) && queue != []
    ensures forall q <- queue ::
      TakenAt(s0, events, q.requestId) <= TakenAt(s0, events, queue[|queue| - 1].requestId)
  {
    forall q <- queue ensures TakenAt(s0, events, q.requestId) <= TakenAt(s0, events, queue[|queue| - 1].requestId) {
      var i :| 0 <= i < |queue| && queue[i] == q;
    }
  }

  lemma StartIsNew()
    ensures IsNew(START)
  {
  }
}
