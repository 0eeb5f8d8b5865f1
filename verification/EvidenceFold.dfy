/**
  What the settlement of submitMachine.ts guarantees over every sequence of authority reports:
  the evidence a record holds is the least upper bound of everything reported, except where a
  stale loss report meets a dispatching record.
 */
module EvidenceFold {
  import opened Wrappers
  import opened SubmitMachine

  /** One response: what the authority said, and the record version its request was issued against. */
  datatype Report = Report(observation: Observation, observedVersion: int, at: int)

  /** How strong two evidence classes are; loss and dispatching are incomparable. */
  predicate Below(weak: Evidence, strong: Evidence) {
    || weak == strong
    || weak.QueuedEvidence?
    || strong.DefinitiveEvidence?
    || (strong.UnknownEvidence? && !weak.DefinitiveEvidence?)
  }

  predicate IsUpperBound(bound: Evidence, classes: set<Evidence>) {
    forall c <- classes :: Below(c, bound)
  }

  ghost predicate IsJoin(join: Evidence, classes: set<Evidence>) {
    && IsUpperBound(join, classes)
    && forall other :: IsUpperBound(other, classes) ==> Below(join, other)
  }

  function RecordEvidence(record: SubmitRecord): set<Evidence> {
    var snapshot := SnapshotOf(Some(record));
    if snapshot.None? then {} else {EvidenceOf(snapshot.value.observation)}
  }

  function ReportedEvidence(reports: seq<Report>): set<Evidence> {
    set r <- reports :: EvidenceOf(r.observation)
  }

  /** The report was issued before the version the record has now. */
  predicate Stale(record: SubmitRecord, report: Report) {
    record.lifecycleObservationVersion > report.observedVersion
  }

  predicate StaleLoss(record: SubmitRecord, report: Report) {
    && RecordEvidence(record) == {DispatchEvidence}
    && EvidenceOf(report.observation).LossEvidence?
    && Stale(record, report)
  }

  function Receive(record: SubmitRecord, report: Report): SubmitRecord {
    match Settle(SnapshotOf(Some(record)), report.observation, report.observedVersion)
    case Preserve => record
    case Apply(observation, _) => ProjectObservation(record, observation, report.at)
  }

  function Fold(record: SubmitRecord, reports: seq<Report>): SubmitRecord
    decreases |reports|
  {
    if reports == [] then record else Fold(Receive(record, reports[0]), reports[1..])
  }

  /** No report of the run is a stale loss against the record it meets. */
  predicate NoStaleLoss(record: SubmitRecord, reports: seq<Report>)
    decreases |reports|
  {
    reports == [] ||
    (!StaleLoss(record, reports[0]) && NoStaleLoss(Receive(record, reports[0]), reports[1..]))
  }

  lemma BelowIsPartialOrder()
    ensures forall a: Evidence :: Below(a, a)
    ensures forall a, b :: Below(a, b) && Below(b, a) ==> a == b
    ensures forall a, b, c :: Below(a, b) && Below(b, c) ==> Below(a, c)
  {}

  lemma JoinIsUnique(a: Evidence, b: Evidence, classes: set<Evidence>)
    requires IsJoin(a, classes) && IsJoin(b, classes)
    ensures a == b
  {
    assert IsUpperBound(a, classes) && IsUpperBound(b, classes);
    BelowIsPartialOrder();
  }

  /** One report moves the evidence to the join, exactly when it is not a stale loss. */
  lemma ReceiveJoins(record: SubmitRecord, report: Report)
    ensures RecordEvidence(Receive(record, report)) != {}
    ensures forall after <- RecordEvidence(Receive(record, report)) ::
              IsJoin(after, RecordEvidence(record) + {EvidenceOf(report.observation)})
              <==> !StaleLoss(record, report)
    ensures StaleLoss(record, report) ==> Receive(record, report) == record
  {
    var before := RecordEvidence(record);
    var got := EvidenceOf(report.observation);
    var next := Receive(record, report);
    assert SnapshotOf(Some(next)).Some?;
    var after := EvidenceOf(SnapshotOf(Some(next)).value.observation);
    assert RecordEvidence(next) == {after};
    var all := before + {got};
    assert got in all;
    if SnapshotOf(Some(record)).Some? {
      var have := EvidenceOf(SnapshotOf(Some(record)).value.observation);
      assert before == {have} && have in all;
      if StaleLoss(record, report) {
        assert have in before;
        assert after == DispatchEvidence && !Below(LossEvidence, after);
      } else {
        assert StaleLoss(record, report) <==> have.DispatchEvidence? && got.LossEvidence? && Stale(record, report)
          by { assert have in before; }
        forall other | IsUpperBound(other, all) ensures Below(after, other) {
          assert Below(have, other) && Below(got, other);
        }
        assert IsJoin(after, all);
      }
    } else {
      assert IsJoin(after, all) by {
        forall other | IsUpperBound(other, all) ensures Below(after, other) {
          assert Below(got, other);
        }
      }
    }
  }

  /** A join of joins is the join of everything. */
  lemma JoinExtends(part: Evidence, classes: set<Evidence>, more: set<Evidence>, whole: Evidence)
    requires IsJoin(part, classes) && IsJoin(whole, {part} + more)
    ensures IsJoin(whole, classes + more)
  {
    BelowIsPartialOrder();
    assert part in {part} + more;
    forall c <- classes + more ensures Below(c, whole) {
      if c in more { assert c in {part} + more; }
    }
    forall other | IsUpperBound(other, classes + more) ensures Below(whole, other) {
      assert IsUpperBound(other, classes) by { forall c <- classes ensures Below(c, other) { assert c in classes + more; } }
      assert IsUpperBound(other, {part} + more) by {
        forall c <- {part} + more ensures Below(c, other) { if c in more { assert c in classes + more; } }
      }
    }
  }

  /** Over a whole run without a stale loss, the record ends on the join of all evidence. */
  lemma {:induction false} FoldIsJoin(record: SubmitRecord, reports: seq<Report>)
    requires NoStaleLoss(record, reports)
    requires reports != []
    ensures RecordEvidence(Fold(record, reports)) != {}
    ensures forall after <- RecordEvidence(Fold(record, reports)) ::
              IsJoin(after, RecordEvidence(record) + ReportedEvidence(reports))
    decreases |reports|
  {
    var next := Receive(record, reports[0]);
    ReceiveJoins(record, reports[0]);
    var rest := reports[1..];
    assert ReportedEvidence(reports) == {EvidenceOf(reports[0].observation)} + ReportedEvidence(rest) by {
      assert reports == [reports[0]] + rest;
    }
    if rest == [] {
      assert ReportedEvidence(rest) == {};
      assert RecordEvidence(record) + ReportedEvidence(reports) == RecordEvidence(record) + {EvidenceOf(reports[0].observation)};
    } else {
      FoldIsJoin(next, rest);
      var part :| part in RecordEvidence(next);
      var whole :| whole in RecordEvidence(Fold(next, rest));
      var classes := RecordEvidence(record) + {EvidenceOf(reports[0].observation)};
      assert RecordEvidence(next) == {part};
      assert RecordEvidence(Fold(next, rest)) == {whole};
      JoinExtends(part, classes, ReportedEvidence(rest), whole);
      assert classes + ReportedEvidence(rest) == RecordEvidence(record) + ReportedEvidence(reports);
    }
  }

  /** Order and repetition of reports do not matter when none is a stale loss. */
  lemma FoldOrderIndependent(record: SubmitRecord, first: seq<Report>, second: seq<Report>)
    requires NoStaleLoss(record, first) && NoStaleLoss(record, second)
    requires ReportedEvidence(first) == ReportedEvidence(second)
    ensures RecordEvidence(Fold(record, first)) == RecordEvidence(Fold(record, second))
  {
    assert (first == []) == (second == []) by {
      assert forall rs: seq<Report> :: rs != [] ==> EvidenceOf(rs[0].observation) in ReportedEvidence(rs);
    }
    if first != [] {
      FoldIsJoin(record, first);
      FoldIsJoin(record, second);
      var a :| a in RecordEvidence(Fold(record, first));
      var b :| b in RecordEvidence(Fold(record, second));
      JoinIsUnique(a, b, RecordEvidence(record) + ReportedEvidence(first));
    }
  }

  /** Stale or not, evidence never weakens over a run. */
  lemma {:induction false} FoldNeverWeakens(record: SubmitRecord, reports: seq<Report>)
    ensures forall before <- RecordEvidence(record), after <- RecordEvidence(Fold(record, reports)) ::
              Below(before, after)
    ensures RecordEvidence(record) != {} ==> RecordEvidence(Fold(record, reports)) != {}
    decreases |reports|
  {
    BelowIsPartialOrder();
    if reports != [] {
      var next := Receive(record, reports[0]);
      ReceiveJoins(record, reports[0]);
      FoldNeverWeakens(next, reports[1..]);
      forall before <- RecordEvidence(record), after <- RecordEvidence(Fold(record, reports))
        ensures Below(before, after)
      {
        var middle :| middle in RecordEvidence(next);
        assert before in RecordEvidence(record) + {EvidenceOf(reports[0].observation)};
        assert Below(before, middle);
      }
    }
  }

  /** Every definitive report of the run names one and the same state. */
  predicate DefinitivelyAgree(reports: seq<Report>, state: LifecycleState) {
    forall r <- reports :: EvidenceOf(r.observation).DefinitiveEvidence? ==> r.observation == Server(state)
  }

  predicate Holds(record: SubmitRecord, observation: Observation) {
    SnapshotOf(Some(record)).Some? && SnapshotOf(Some(record)).value.observation == observation
  }

  lemma DefinitiveIsKept(record: SubmitRecord, report: Report, state: LifecycleState)
    requires IsDefinitive(state) && DefinitivelyAgree([report], state)
    requires Holds(record, Server(state))
    ensures Holds(Receive(record, report), Server(state))
  {
    assert report in [report];
  }

  /** Once the agreed definitive state is held, no later report of any age moves the record off it. */
  lemma {:induction false} DefinitiveIsForever(record: SubmitRecord, reports: seq<Report>, state: LifecycleState)
    requires IsDefinitive(state) && DefinitivelyAgree(reports, state)
    requires Holds(record, Server(state))
    ensures Holds(Fold(record, reports), Server(state))
    decreases |reports|
  {
    if reports != [] {
      assert reports[0] in reports;
      DefinitiveIsKept(record, reports[0], state);
      DefinitiveIsForever(Receive(record, reports[0]), reports[1..], state);
    }
  }

  /** A definitive report is admitted whatever its age, unless a different definitive state is held. */
  lemma {:induction false} DefinitiveArrives(record: SubmitRecord, reports: seq<Report>, state: LifecycleState, k: nat)
    requires IsDefinitive(state) && DefinitivelyAgree(reports, state)
    requires DefinitiveEvidence in RecordEvidence(record) ==> Holds(record, Server(state))
    requires k < |reports| && reports[k].observation == Server(state)
    ensures Holds(Fold(record, reports), Server(state))
    decreases |reports|
  {
    var next := Receive(record, reports[0]);
    assert reports[0] in reports;
    if k == 0 {
      DefinitiveIsForever(next, reports[1..], state);
    } else {
      DefinitiveArrives(next, reports[1..], state, k - 1);
    }
  }

  // ---------------------------------------------------------------- what a report writes

  /** The class of each observation, written out. */
  lemma ClassesAre(o: Observation)
    ensures EvidenceOf(o).QueuedEvidence? <==> o == Server(Queued)
    ensures EvidenceOf(o).LossEvidence? <==> o == NotFound || o == GenerationLost
    ensures EvidenceOf(o).DispatchEvidence? <==> o == Server(Dispatching)
    ensures EvidenceOf(o).UnknownEvidence? <==> o == Server(Unknown)
    ensures EvidenceOf(o).DefinitiveEvidence? <==>
      o == Server(Delivered) || o == Server(Withdrawn) || o == Server(Rejected) || o == Server(Unsupported)
  {
  }

  /** The record says what was observed. */
  predicate SaysObserved(record: SubmitRecord, o: Observation) {
    match o
    case Server(state) => Shows(record, state)
    case NotFound => record.phase.NotFoundPhase? && record.serverLifecycleState.None?
    case GenerationLost => record.phase.GenerationLostPhase? && record.serverLifecycleState.None?
  }

  /**
    A report is applied, or leaves the record as it is. One that is applied writes what it settled on,
    advances the version by one, dates the record, and anchors the watch at the first report that finds
    the request dispatching or unknown.
   */
  lemma ReceiveWrites(record: SubmitRecord, report: Report)
    ensures var next, settled := Receive(record, report), Settle(SnapshotOf(Some(record)), report.observation, report.observedVersion);
      if settled.Preserve? then next == record
      else
        && SaysObserved(next, settled.observation)
        && next.lifecycleObservationVersion == record.lifecycleObservationVersion + 1
        && next.updatedAt == report.at
        && next.lifecycleWatchStartedAt ==
             (if record.lifecycleWatchStartedAt.None? &&
                 (settled.observation == Server(Dispatching) || settled.observation == Server(Unknown))
              then Some(report.at) else record.lifecycleWatchStartedAt)
        && next == record.(phase := next.phase, serverLifecycleState := next.serverLifecycleState,
             lifecycleObservationVersion := next.lifecycleObservationVersion, updatedAt := next.updatedAt,
             lifecycleWatchStartedAt := next.lifecycleWatchStartedAt)
  {
  }

  /**
    What a report settles on: itself, or "unknown" where a loss and a dispatch meet, which is flagged as
    a possible send.
   */
  lemma SettlesOn(have: ObservationSnapshot, incoming: Observation, observedVersion: int)
    ensures var settled := Settle(Some(have), incoming, observedVersion);
      settled.Apply? ==>
        && (settled.possibleSendJoin <==> {EvidenceOf(have.observation), EvidenceOf(incoming)} == {LossEvidence, DispatchEvidence})
        && settled.observation == if settled.possibleSendJoin then Server(Unknown) else incoming
    ensures Settle(None, incoming, observedVersion) == Apply(incoming, false)
  {
    var classes := {EvidenceOf(have.observation), EvidenceOf(incoming)};
    assert LossEvidence in classes && DispatchEvidence in classes <==> classes == {LossEvidence, DispatchEvidence};
  }

  /** The version counts the reports that were applied. */
  function Applied(record: SubmitRecord, reports: seq<Report>): nat
    decreases |reports|
  {
    if reports == [] then 0
    else (if Settle(SnapshotOf(Some(record)), reports[0].observation, reports[0].observedVersion).Apply? then 1 else 0) +
         Applied(Receive(record, reports[0]), reports[1..])
  }

  lemma {:induction false} VersionCountsApplied(record: SubmitRecord, reports: seq<Report>)
    ensures Fold(record, reports).lifecycleObservationVersion == record.lifecycleObservationVersion + Applied(record, reports)
    decreases |reports|
  {
    if reports != [] {
      ReceiveWrites(record, reports[0]);
      VersionCountsApplied(Receive(record, reports[0]), reports[1..]);
    }
  }
}
