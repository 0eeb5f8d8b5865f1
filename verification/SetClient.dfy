/** setClient.ts as it updates the store in place, proved against the steps of SetControls. */
module SetClient {
  import opened Wrappers
  import opened P = PairChange
  import opened S = SetControls

  /** `resolvePendingsByReadback`. */
  method ResolvePendings(pending: map<Kind, PendingSet>, snapshot: Snapshot) returns (resolutions: seq<Resolution>)
    ensures resolutions == ResolveAll(pending, snapshot)
  {
    resolutions := [];
    var kinds := [Model, Effort];
    for i := 0 to 2
      invariant i == 0 ==> resolutions == []
      invariant i == 1 ==> resolutions == Resolve(pending, snapshot, Model)
      invariant i == 2 ==> resolutions == ResolveAll(pending, snapshot)
    {
      var kind := kinds[i];
      if kind in pending {
        var p := pending[kind];
        var confirmed := Selected(snapshot, kind) == Some(p.requested);
        if p.phase == QueuedAwaitingTurn {
          if confirmed { resolutions := resolutions + [Resolution(kind, true, p.requested, false)]; }
        } else if p.phase == UnknownVerifying {
          resolutions := resolutions + [Resolution(kind, confirmed, p.requested, true)];
        }
      }
    }
  }

  class SetSession {
    var snapshot: Option<Snapshot>
    var echo: map<Kind, Echo>
    var pending: map<Kind, PendingSet>
    var ledger: seq<Entry>
    var pair: Option<Pair>
    var pairLog: seq<P.Event>
    var effortPosts: nat
    var pairOutcome: Option<Outcome>

    function View(): Controls
      reads this
    {
      Controls(snapshot, echo, pending, ledger, pair, pairLog, effortPosts, pairOutcome)
    }

    constructor ()
      ensures View() == S.Init()
    {
      snapshot, echo, pending, ledger := None, map[], map[], [];
      pair, pairLog, effortPosts, pairOutcome := None, [], 0, None;
    }

    /** `sendSet`, up to its POST. */
    method SendSet(kind: Kind, value: string, at: int)
      modifies this
      ensures View() == S.Step(old(View()), Send(kind, value, at))
    {
      pending := pending[kind := PendingSet(value, InFlight)];
    }

    /** `commitPairDirective` on what the pair machine makes of one event. */
    method CommitPair(e: P.Event, at: int)
      requires pair.Some?
      modifies this
      ensures View() == Commit(old(View()), e)
    {
      var d := Apply(pair.value, e);
      pair := if d.pair.outcome == Some(Completed) then None else Some(d.pair);
      pairLog, pairOutcome := pairLog + [e], d.pair.outcome;
      if d.sendEffort {
        effortPosts := effortPosts + 1;
        SendSet(Effort, d.pair.effort, at);
      }
    }

    /** `applySetResult`. */
    method ApplySetResult(f: Fact, at: int)
      modifies this
      ensures View() == S.Step(old(View()), Answer(f, at))
    {
      ledger := ledger + [Entry(f, Benign(f))];
      if f.kind in pending && pending[f.kind].requested == f.requested {
        match PhaseAfter(f.acceptance)
        case None => pending := pending - {f.kind};
        case Some(phase) => pending := pending[f.kind := PendingSet(f.requested, phase)];
      }
      if Proven(f).Some? { echo := echo[f.kind := Echo(Proven(f).value, at)]; }
      if pair.Some? && pair.value.outcome.None? && pair.value.step == f.kind && Expected(pair.value) == f.requested {
        CommitPair(P.Result(f.kind, f.acceptance), at);
      }
    }

    /** The route-failure end of `sendSet`. */
    method RouteFailed(kind: Kind, value: string, at: int)
      modifies this
      ensures View() == S.Step(old(View()), Fail(kind, value, at))
    {
      if kind in pending && pending[kind].requested == value { pending := pending - {kind}; }
      if pair.Some? && pair.value.outcome.None? && pair.value.step == kind && Expected(pair.value) == value {
        CommitPair(P.RouteError(kind), at);
      }
    }

    /** `applyReadbackResolution`. */
    method ApplyOne(r: Resolution, at: int)
      modifies this
      ensures View() == ApplyResolution(old(View()), r)
    {
      pending := pending - {r.kind};
      if r.wasUnknown && r.confirmed { ledger := AcknowledgeMatching(ledger, r.kind, r.requested); }
      if pair.Some? && pair.value.phase == AwaitingReadback && pair.value.step == r.kind {
        CommitPair(P.Readback(r.confirmed), at);
      }
    }

    /** `setLiveSnapshot` and `applySnapshotReadback`. */
    method SnapshotArrives(model: Option<string>, effort: Option<string>, at: int)
      modifies this
      ensures View() == S.Step(old(View()), Read(model, effort, at))
    {
      var read := Snapshot(model, effort, at);
      snapshot := Some(read);
      ghost var seen := View();
      var resolutions := ResolvePendings(pending, read);
      for i := 0 to |resolutions|
        invariant ApplyResolutions(View(), resolutions[i..]) == ApplyResolutions(seen, resolutions)
      {
        assert resolutions[i..][0] == resolutions[i] && resolutions[i..][1..] == resolutions[i + 1..];
        ApplyOne(resolutions[i], at);
      }
    }

    /** `acknowledgeSetAttention`. */
    method AcknowledgeAttention(at: int)
      modifies this
      ensures View() == S.Step(old(View()), Acknowledge(at))
    {
      ledger := AcknowledgeAll(ledger);
      if pair.Some? && pair.value.outcome.Some? { pair := None; }
    }

    /** `startPairChangeFlow`. */
    method StartPairChange(modelKey: string, effortKey: string, at: int)
      modifies this
      ensures View() == S.Step(old(View()), BeginPair(modelKey, effortKey, at))
    {
      pair, pairLog, effortPosts, pairOutcome := Some(P.Start(modelKey, effortKey)), [], 0, None;
      SendSet(Model, modelKey, at);
    }
  }
}
