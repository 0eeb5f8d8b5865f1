/**
  The mutable session slice of sessionCockpitStore.ts with the client code that writes it. Every
  method is proved against the function of CockpitState, SubmissionLifecycle or
  SubmissionWithdrawal that the safety theorems are about.
 */
module CockpitSession {
  import opened Wrappers
  import opened SubmitMachine
  import opened SubmitRetention
  import State = CockpitState
  import opened SubmissionLifecycle
  import opened SubmissionWithdrawal

  class SessionSlice {
    var draft: string
    var draftRevision: nat
    var queue: seq<State.QueuedSubmit>
    var history: seq<SubmitRecord>
    var withdrawal: State.Withdrawal
    /** The session's entry in `withdrawalsInFlight`, with the continuation it stands for. */
    var operation: Operation

    function View(): State.Cockpit
      reads this
    {
      State.Cockpit(draft, draftRevision, queue, history, withdrawal)
    }

    /** What every store write keeps: one record per id, and a history that is already compacted. */
    predicate Valid()
      reads this
    {
      UniqueIds(history) && Compact(history) == history
    }

    constructor ()
      ensures Valid() && View() == State.EMPTY && operation == Idle
    {
      draft, draftRevision, queue, history := "", 0, [], [];
      withdrawal, operation := State.NoWithdrawal, Idle;
    }

    method SetComposerDraft(text: string)
      requires Valid()
      modifies this
      ensures Valid() && operation == old(operation)
      ensures View() == State.SetComposerDraft(old(View()), text)
    {
      draft := text;
      draftRevision := draftRevision + 1;
    }

    method ReplaceComposerDraftIfRevision(expected: nat, text: string) returns (replaced: bool)
      requires Valid()
      modifies this
      ensures Valid() && operation == old(operation)
      ensures replaced <==> old(draftRevision) == expected
      ensures View() == State.ReplaceDraftIfRevision(old(View()), expected, text)
    {
      replaced := draftRevision == expected;
      if replaced {
        SetComposerDraft(text);
      }
    }

    method EnqueueSubmit(entry: State.QueuedSubmit)
      requires Valid()
      modifies this
      ensures Valid() && operation == old(operation)
      ensures View() == State.Enqueue(old(View()), entry)
    {
      queue := CompactQueue(queue + [entry]);
    }

    method DequeueSubmit(id: RequestId)
      requires Valid()
      modifies this
      ensures Valid() && operation == old(operation)
      ensures View() == State.Dequeue(old(View()), id)
    {
      queue := State.WithoutId(queue, id);
    }

    method UpsertSubmitRecord(record: SubmitRecord)
      requires Valid()
      modifies this
      ensures Valid() && operation == old(operation)
      ensures View() == State.UpsertRecord(old(View()), record)
    {
      UpsertFacts(history, record);
      PlaceFind(history, record);
      CompactIdempotent(Place(history, record));
      var index := IndexOf(history, record.requestId);
      var placed := if index < |history| then history[index := record] else history + [record];
      history := Compact(placed);
    }

    method SetWithdrawal(next: State.Withdrawal)
      requires Valid()
      modifies this
      ensures Valid() && operation == old(operation)
      ensures View() == State.SetWithdrawal(old(View()), next)
    {
      withdrawal := next;
    }

    method DismissWithdrawalRecoveryIfMatches(id: RequestId, expected: nat) returns (dismissed: bool)
      requires Valid()
      modifies this
      ensures Valid() && operation == old(operation)
      ensures dismissed <==> old(draftRevision) == expected && State.HasRecovery(old(View()), id)
      ensures View() == State.DismissRecoveryIfMatches(old(View()), id, expected)
    {
      dismissed := draftRevision == expected && withdrawal.Recovery? && withdrawal.requestId == id;
      if dismissed {
        withdrawal := State.NoWithdrawal;
      }
    }

    method ClearSettledWithdrawal(id: RequestId, owner: bool, inFlight: bool)
      requires Valid()
      modifies this
      ensures Valid() && operation == old(operation)
      ensures View() == SubmissionLifecycle.ClearSettledWithdrawal(old(View()), id, owner, inFlight)
    {
      if !withdrawal.Pending? || withdrawal.target.requestId != id { return; }
      if !owner && inFlight { return; }
      SetWithdrawal(State.NoWithdrawal);
    }

    method RestoreOrRecoverWithdrawal(
      id: RequestId, pending: State.PendingWithdrawal, projected: Option<SubmitRecord>, at: int)
      requires Valid()
      modifies this
      ensures Valid() && operation == old(operation)
      ensures View() == RestoreOrRecover(old(View()), id, pending, projected, at)
    {
      var replaced := ReplaceComposerDraftIfRevision(pending.draftRevision, pending.text);
      if replaced {
        if projected.Some? { UpsertSubmitRecord(projected.value.(restoredAt := Some(at))); }
        SetWithdrawal(State.NoWithdrawal);
      } else {
        if projected.Some? { UpsertSubmitRecord(projected.value); }
        SetWithdrawal(State.Recovery(id, pending.text, at));
      }
    }

    method ResolveAuthoritativeWithdrawal(id: RequestId, at: int, issued: Option<State.PendingWithdrawal>)
      requires Valid()
      modifies this
      ensures Valid() && operation == old(operation)
      ensures View() == ResolveWithdrawn(old(View()), id, at, issued)
    {
      var record := Find(history, id);
      var pending := SelectPending(View(), id, issued);
      var projected := ProjectWithdrawn(record, at);
      DequeueSubmit(id);
      if pending.None? || pending.value.requestId != id {
        if projected.Some? { UpsertSubmitRecord(projected.value); }
      } else if record.Some? && record.value.restoredAt.Some? {
        UpsertSubmitRecord(projected.value);
        SetWithdrawal(State.NoWithdrawal);
      } else {
        RestoreOrRecoverWithdrawal(id, pending.value, projected, at);
      }
    }

    method ApplyLifecycleObservation(
      id: RequestId, incoming: Observation, at: int, observedVersion: int, owner: bool,
      issued: Option<State.PendingWithdrawal>)
      requires Valid()
      modifies this
      ensures Valid() && operation == old(operation)
      ensures View() == ApplyObservation(
                          old(View()), old(operation).Running?, id, incoming, at, observedVersion, owner, issued)
    {
      var inFlight := operation.Running?;
      match Settle(CurrentSnapshot(View(), id), incoming, observedVersion)
      case Preserve =>
        if owner { ClearSettledWithdrawal(id, true, inFlight); }
      case Apply(observation, _) =>
        if observation == Server(Withdrawn) {
          ResolveAuthoritativeWithdrawal(id, at, issued);
        } else {
          var record := Find(history, id);
          if record.Some? { UpsertSubmitRecord(ProjectObservation(record.value, observation, at)); }
          if observation != Server(Queued) {
            DequeueSubmit(id);
            ClearSettledWithdrawal(id, owner, inFlight);
          }
        }
    }

    /** `lifecyclePollTargets`: collect what to ask about, and give up on the expired watches. */
    method LifecyclePollTargets(at: int) returns (targets: seq<PollTarget>)
      requires Valid()
      modifies this
      ensures Valid() && operation == old(operation)
      ensures targets == PollTargets(old(View()), at)
      ensures View() == ExpireWatches(old(View()), at)
    {
      ghost var before := View();
      var records := history;
      targets := QueueTargets(View());
      PartlyEnds(before, at);
      for i := 0 to |records|
        invariant Valid() && operation == old(operation)
        invariant View() == before.(history := Partly(before, at, i))
        invariant targets == QueueTargets(before) + WatchedTargets(before, at, i)
      {
        targets := VisitRecord(records[i], at, targets, before, i);
      }
    }

    /** The body of the loop: a queued or pending request is skipped, an expired watch is given up. */
    method VisitRecord(
      record: SubmitRecord, at: int, targets: seq<PollTarget>, ghost before: State.Cockpit, ghost n: nat)
      returns (more: seq<PollTarget>)
      requires Valid() && UniqueIds(before.history)
      requires n < |before.history| && record == before.history[n]
      requires View() == before.(history := Partly(before, at, n))
      requires targets == QueueTargets(before) + WatchedTargets(before, at, n)
      modifies this
      ensures Valid() && operation == old(operation)
      ensures View() == before.(history := Partly(before, at, n + 1))
      ensures more == QueueTargets(before) + WatchedTargets(before, at, n + 1)
    {
      PollRecord(before, at, n);
      more := targets;
      if !IsTarget(targets, record.requestId) {
        match LifecycleWatchState(record, at)
        case InactiveWatch =>
        case ExpiredWatch => UpsertSubmitRecord(EnterEndgame(record, at));
        case ActiveWatch => more := targets + [PollTarget(record.requestId, record.expectedBridgeEpoch)];
      }
    }

    /** The first half of `withdrawLastQueued`, up to its request; false when it is blocked. */
    method StartWithdrawal(at: int) returns (started: bool)
      requires Valid()
      modifies this
      ensures Valid()
      ensures View() == CockpitAfter(Session(old(View()), old(operation), map[], []), WithdrawStarts(at))
      ensures operation == OperationAfter(Session(old(View()), old(operation), map[], []), WithdrawStarts(at))
      ensures started <==> old(operation).Idle? && operation.Running?
    {
      started := false;
      if operation.Idle? {
        var target := ChooseTarget(View(), at);
        if target.Some? {
          if !withdrawal.Pending? { SetWithdrawal(State.Pending(target.value)); }
          operation := Running(target.value, ForWithdraw(ObservationVersion(Find(history, target.value.requestId))));
          started := true;
        }
      }
    }

    /** The code that runs when the awaited answer of the running withdrawal arrives. */
    method HearAnswer(answer: Answer, at: int)
      requires Valid() && operation.Running?
      modifies this
      ensures Valid()
      ensures View() == CockpitAfter(Session(old(View()), old(operation), map[], []), WithdrawHears(answer, at))
      ensures operation == OperationAfter(Session(old(View()), old(operation), map[], []), WithdrawHears(answer, at))
    {
      var target, waiting := operation.target, operation.waiting;
      var heard := Heard(View(), target, waiting, answer, at);
      var next := WaitsNext(View(), target, waiting, answer);
      HearingDelivers(Session(View(), operation, map[], []), answer, at, heard);
      if heard.Some? {
        var d := heard.value;
        ApplyLifecycleObservation(d.id, d.observation, d.at, d.observedVersion, d.owner, Some(target));
      }
      operation := Running(target, next);
    }

    method RestoreWithdrawnRecovery(id: RequestId, expected: nat, at: int) returns (restored: bool)
      requires Valid()
      modifies this
      ensures Valid() && operation == old(operation)
      ensures View() == RestoreFromSlot(old(View()), id, expected, at)
      ensures restored <==> State.HasRecovery(old(View()), id) && old(draftRevision) == expected
    {
      restored := false;
      if withdrawal.Recovery? && withdrawal.requestId == id {
        var text := withdrawal.text;
        restored := ReplaceComposerDraftIfRevision(expected, text);
        if restored {
          var record := Find(history, id);
          if record.Some? {
            UpsertSubmitRecord(record.value.(restoredAt := Some(at), updatedAt := at));
          }
          SetWithdrawal(State.NoWithdrawal);
        }
      }
    }

    method DismissWithdrawnRecovery(id: RequestId, expected: nat, at: int) returns (dismissed: bool)
      requires Valid()
      modifies this
      ensures Valid() && operation == old(operation)
      ensures View() == DismissFromSlot(old(View()), id, expected, at)
      ensures dismissed <==> State.HasRecovery(old(View()), id) && old(draftRevision) == expected
    {
      dismissed := DismissWithdrawalRecoveryIfMatches(id, expected);
      if dismissed {
        var record := Find(history, id);
        if record.Some? {
          UpsertSubmitRecord(record.value.(recoveryDismissedAt := Some(at), updatedAt := at));
        }
      }
    }
  }

  /** What an answer makes of the cockpit: the observation it delivers, or nothing. */
  lemma HearingDelivers(s: Session, answer: Answer, at: int, heard: Option<Delivery>)
    requires s.operation.Running? && heard == Heard(s.cockpit, s.operation.target, s.operation.waiting, answer, at)
    ensures heard.None? ==> CockpitAfter(s, WithdrawHears(answer, at)) == s.cockpit
    ensures heard.Some? ==>
      var d := heard.value;
      CockpitAfter(s, WithdrawHears(answer, at)) ==
        ApplyObservation(s.cockpit, true, d.id, d.observation, d.at, d.observedVersion, d.owner, Some(s.operation.target))
  {
  }

  /** The history while a poll is part way through giving up on expired watches. */
  function Partly(c: State.Cockpit, at: int, n: nat): (partial: seq<SubmitRecord>)
    requires n <= |c.history|
    ensures |partial| == |c.history|
  {
    seq(|c.history|, i requires 0 <= i < |c.history| => if i < n then EndgameOf(c, c.history[i], at) else c.history[i])
  }

  /** What the loop of a poll does at one record. */
  lemma PollRecord(c: State.Cockpit, at: int, n: nat)
    requires n < |c.history| && UniqueIds(c.history)
    requires UniqueIds(Partly(c, at, n)) && Compact(Partly(c, at, n)) == Partly(c, at, n)
    ensures
      var record := c.history[n];
      && (IsTarget(QueueTargets(c) + WatchedTargets(c, at, n), record.requestId) <==>
          InQueueOrPending(c, record.requestId))
      && (QueueTargets(c) + WatchedTargets(c, at, n)) +
         (if IsWatched(c, record, at) then [PollTarget(record.requestId, record.expectedBridgeEpoch)] else []) ==
         QueueTargets(c) + WatchedTargets(c, at, n + 1)
      && Partly(c, at, n + 1) ==
         if Expires(c, record, at) then Upsert(Partly(c, at, n), EnterEndgame(record, at)) else Partly(c, at, n)
  {
    var record := c.history[n];
    QueueTargetIds(c, record.requestId);
    WatchedTargetIds(c, at, n, record.requestId);
    TargetsConcat(QueueTargets(c), WatchedTargets(c, at, n), record.requestId);
    PartlyNext(c, at, n);
    if Expires(c, record, at) { EndgameUpsert(c, at, n); }
  }

  lemma PartlyEnds(c: State.Cockpit, at: int)
    ensures Partly(c, at, 0) == c.history
    ensures c.(history := Partly(c, at, |c.history|)) == ExpireWatches(c, at)
  {}

  lemma PartlyNext(c: State.Cockpit, at: int, n: nat)
    requires n < |c.history|
    ensures Partly(c, at, n + 1) == Partly(c, at, n)[n := EndgameOf(c, c.history[n], at)]
  {}

  /** Giving one record up rewrites it in place and evicts nothing. */
  lemma EndgameUpsert(c: State.Cockpit, at: int, n: nat)
    requires n < |c.history|
    requires UniqueIds(Partly(c, at, n)) && Compact(Partly(c, at, n)) == Partly(c, at, n)
    requires Expires(c, c.history[n], at)
    ensures Upsert(Partly(c, at, n), EnterEndgame(c.history[n], at)) == Partly(c, at, n + 1)
  {
    var records := Partly(c, at, n);
    var record := EnterEndgame(c.history[n], at);
    FindMember(records, records[n]);
    assert IndexOf(records, record.requestId) == n;
    assert Place(records, record) == Partly(c, at, n + 1) by { PartlyNext(c, at, n); }
    ProtectedRewriteKeepsCompact(records, n, record);
  }

  /** Replacing a protected record by a protected one under the same id leaves nothing to compact. */
  lemma ProtectedRewriteKeepsCompact(records: seq<SubmitRecord>, n: nat, record: SubmitRecord)
    requires UniqueIds(records) && Compact(records) == records && n < |records|
    requires record.requestId == records[n].requestId && IsProtected(record) && IsProtected(records[n])
    ensures Compact(records[n := record]) == records[n := record]
  {
    var placed := records[n := record];
    var kept := ProtectedIds(records) + Ids(Tail(Settled(records), HISTORY_WINDOW));
    SameIds(records, placed);
    SameProtectedIds(records, placed);
    assert records[n] in records;
    KeepIdsReplace(records, n, record, Ids(records) - ProtectedIds(records));
    assert Settled(placed) == Settled(records);
    KeepIdsMembers(records, kept);
    assert Ids(records) <= kept;
    KeepAll(placed, kept);
  }

  lemma SameProtectedIds(a: seq<SubmitRecord>, b: seq<SubmitRecord>)
    requires |a| == |b|
    requires forall i :: 0 <= i < |a| ==> a[i].requestId == b[i].requestId && (IsProtected(a[i]) <==> IsProtected(b[i]))
    ensures ProtectedIds(a) == ProtectedIds(b)
  {
    forall id ensures id in ProtectedIds(a) <==> id in ProtectedIds(b) {
      if id in ProtectedIds(a) {
        var i :| 0 <= i < |a| && IsProtected(a[i]) && a[i].requestId == id;
        assert b[i] in b;
      }
      if id in ProtectedIds(b) {
        var i :| 0 <= i < |b| && IsProtected(b[i]) && b[i].requestId == id;
        assert a[i] in a;
      }
    }
  }

  lemma SameIds(a: seq<SubmitRecord>, b: seq<SubmitRecord>)
    requires |a| == |b| && forall i :: 0 <= i < |a| ==> a[i].requestId == b[i].requestId
    ensures Ids(a) == Ids(b)
  {
    forall id ensures id in Ids(a) <==> id in Ids(b) {
      if id in Ids(a) {
        var i :| 0 <= i < |a| && a[i].requestId == id;
        assert b[i] in b;
      }
      if id in Ids(b) {
        var i :| 0 <= i < |b| && b[i].requestId == id;
        assert a[i] in a;
      }
    }
  }

  /** A record that the filter drops may be replaced under its id without changing the result. */
  lemma {:induction false} KeepIdsReplace(records: seq<SubmitRecord>, n: nat, record: SubmitRecord, ids: set<RequestId>)
    requires n < |records| && record.requestId == records[n].requestId && record.requestId !in ids
    ensures KeepIds(records[n := record], ids) == KeepIds(records, ids)
    decreases |records|
  {
    var placed := records[n := record];
    if n == 0 {
      assert placed[1..] == records[1..];
    } else {
      assert placed[1..] == records[1..][n - 1 := record];
      KeepIdsReplace(records[1..], n - 1, record, ids);
    }
  }
}
