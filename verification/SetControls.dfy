/**
  The set controls of one session: setClient.ts and setAcceptance.ts over the store's pending sets,
  evidence and ledger, with the effective marker of sessionCapabilities.ts. Announcements, route-error
  texts and loading flags are not modelled.
 */
module SetControls {
  import opened Wrappers
  import opened P = PairChange

  datatype PendingPhase = InFlight | QueuedAwaitingTurn | UnknownVerifying

  datatype PendingSet = PendingSet(requested: string, phase: PendingPhase)

  datatype Snapshot = Snapshot(model: Option<string>, effort: Option<string>, at: int)

  datatype Echo = Echo(value: string, at: int)

  datatype Fact = Fact(kind: Kind, requested: string, acceptance: Acceptance, effective: Option<string>)

  datatype Entry = Entry(fact: Fact, acknowledged: bool)

  /** `pairLog`, `effortPosts` and `pairOutcome` are the history of the current pair change. */
  datatype Controls = Controls(
    snapshot: Option<Snapshot>,
    echo: map<Kind, Echo>,
    pending: map<Kind, PendingSet>,
    ledger: seq<Entry>,
    pair: Option<Pair>,
    pairLog: seq<P.Event>,
    effortPosts: nat,
    pairOutcome: Option<Outcome>)

  datatype Event =
    | Send(kind: Kind, value: string, at: int)
    | Answer(fact: Fact, at: int)
    | Fail(kind: Kind, value: string, at: int)
    | Read(model: Option<string>, effort: Option<string>, at: int)
    | Acknowledge(at: int)
    | BeginPair(modelKey: string, effortKey: string, at: int)

  function Init(): Controls {
    Controls(None, map[], map[], [], None, [], 0, None)
  }

  // ---------------------------------------------------------------- the acceptance table

  predicate IsClamp(f: Fact) {
    f.acceptance.EchoVerified? && f.effective.Some? && f.effective.value != f.requested
  }

  /** Whether the outcome is filed as already seen. */
  predicate Benign(f: Fact) {
    match f.acceptance
    case EchoVerified => f.effective.Some? && !IsClamp(f)
    case Immediate => true
    case Queued => true
    case Unknown => false
    case Unsupported => false
  }

  function PhaseAfter(a: Acceptance): Option<PendingPhase> {
    match a
    case Queued => Some(QueuedAwaitingTurn)
    case Unknown => Some(UnknownVerifying)
    case _ => None
  }

  /** The value the server proved effective with its answer, if it did. */
  function Proven(f: Fact): Option<string> {
    if f.acceptance.EchoVerified? then f.effective else None
  }

  // ---------------------------------------------------------------- steps

  function Selected(s: Snapshot, kind: Kind): Option<string> {
    if kind == Model then s.model else s.effort
  }

  function Expected(p: Pair): string {
    if p.step == Model then p.modelKey else p.effort
  }

  function Commit(s: Controls, e: P.Event): Controls
    requires s.pair.Some?
  {
    var d := Apply(s.pair.value, e);
    s.(pair := if d.pair.outcome == Some(Completed) then None else Some(d.pair),
       pairLog := s.pairLog + [e],
       pairOutcome := d.pair.outcome,
       effortPosts := s.effortPosts + if d.sendEffort then 1 else 0,
       pending := if d.sendEffort then s.pending[Effort := PendingSet(d.pair.effort, InFlight)] else s.pending)
  }

  predicate PairWaitsFor(s: Controls, kind: Kind, value: string) {
    s.pair.Some? && s.pair.value.outcome.None? && s.pair.value.step == kind && Expected(s.pair.value) == value
  }

  function MovePending(s: Controls, f: Fact): Controls {
    if f.kind !in s.pending || s.pending[f.kind].requested != f.requested then s
    else match PhaseAfter(f.acceptance)
      case None => s.(pending := s.pending - {f.kind})
      case Some(phase) => s.(pending := s.pending[f.kind := PendingSet(f.requested, phase)])
  }

  function Answered(s: Controls, f: Fact, at: int): Controls {
    var filed := MovePending(s.(ledger := s.ledger + [Entry(f, Benign(f))]), f);
    var marked := if Proven(f).Some? then filed.(echo := filed.echo[f.kind := Echo(Proven(f).value, at)]) else filed;
    if PairWaitsFor(marked, f.kind, f.requested) then Commit(marked, P.Result(f.kind, f.acceptance)) else marked
  }

  function Failed(s: Controls, kind: Kind, value: string): Controls {
    var cleared :=
      if kind in s.pending && s.pending[kind].requested == value then s.(pending := s.pending - {kind}) else s;
    if PairWaitsFor(cleared, kind, value) then Commit(cleared, P.RouteError(kind)) else cleared
  }

  datatype Resolution = Resolution(kind: Kind, confirmed: bool, requested: string, wasUnknown: bool)

  function Resolve(pending: map<Kind, PendingSet>, snapshot: Snapshot, kind: Kind): seq<Resolution> {
    if kind !in pending then [] else
    var p := pending[kind];
    var confirmed := Selected(snapshot, kind) == Some(p.requested);
    match p.phase
    case InFlight => []
    case QueuedAwaitingTurn => if confirmed then [Resolution(kind, true, p.requested, false)] else []
    case UnknownVerifying => [Resolution(kind, confirmed, p.requested, true)]
  }

  function ResolveAll(pending: map<Kind, PendingSet>, snapshot: Snapshot): seq<Resolution> {
    Resolve(pending, snapshot, Model) + Resolve(pending, snapshot, Effort)
  }

  function AcknowledgeMatching(ledger: seq<Entry>, kind: Kind, requested: string): seq<Entry> {
    if ledger == [] then [] else
    var e := ledger[0];
    [if e.fact.kind == kind && e.fact.requested == requested then e.(acknowledged := true) else e] +
    AcknowledgeMatching(ledger[1..], kind, requested)
  }

  function AcknowledgeAll(ledger: seq<Entry>): seq<Entry> {
    if ledger == [] then [] else [ledger[0].(acknowledged := true)] + AcknowledgeAll(ledger[1..])
  }

  function ApplyResolution(s: Controls, r: Resolution): Controls {
    var cleared := s.(
      pending := s.pending - {r.kind},
      ledger := if r.wasUnknown && r.confirmed then AcknowledgeMatching(s.ledger, r.kind, r.requested) else s.ledger);
    if cleared.pair.Some? && cleared.pair.value.phase == AwaitingReadback && cleared.pair.value.step == r.kind
    then Commit(cleared, P.Readback(r.confirmed))
    else cleared
  }

  function ApplyResolutions(s: Controls, rs: seq<Resolution>): Controls
    decreases |rs|
  {
    if rs == [] then s else ApplyResolutions(ApplyResolution(s, rs[0]), rs[1..])
  }

  function ReadBack(s: Controls, snapshot: Snapshot): Controls {
    ApplyResolutions(s.(snapshot := Some(snapshot)), ResolveAll(s.pending, snapshot))
  }

  function Step(s: Controls, e: Event): Controls {
    match e
    case Send(kind, value, _) => s.(pending := s.pending[kind := PendingSet(value, InFlight)])
    case Answer(f, at) => Answered(s, f, at)
    case Fail(kind, value, _) => Failed(s, kind, value)
    case Read(model, effort, at) => ReadBack(s, Snapshot(model, effort, at))
    case Acknowledge(_) =>
      s.(ledger := AcknowledgeAll(s.ledger),
         pair := if s.pair.Some? && s.pair.value.outcome.Some? then None else s.pair)
    case BeginPair(modelKey, effortKey, _) =>
      s.(pair := Some(Start(modelKey, effortKey)), pairLog := [], effortPosts := 0, pairOutcome := None,
         pending := s.pending[Model := PendingSet(modelKey, InFlight)])
  }

  function After(events: seq<Event>): Controls {
    if events == [] then Init() else Step(After(events[..|events| - 1]), events[|events| - 1])
  }

  /** The marker: a snapshot, overlaid by an echo newer than it. */
  function Effective(s: Controls, kind: Kind): Option<string> {
    if kind in s.echo && (s.snapshot.None? || s.echo[kind].at > s.snapshot.value.at) then Some(s.echo[kind].value)
    else if s.snapshot.Some? then Selected(s.snapshot.value, kind)
    else None
  }

  // ---------------------------------------------------------------- what each step leaves alone

  lemma {:induction false} ResolutionsLeaveEvidence(s: Controls, rs: seq<Resolution>)
    ensures var t := ApplyResolutions(s, rs); t.snapshot == s.snapshot && t.echo == s.echo
    decreases |rs|
  {
    if rs != [] { ResolutionsLeaveEvidence(ApplyResolution(s, rs[0]), rs[1..]); }
  }

  /** The evidence a step leaves behind. */
  lemma EvidenceAfter(s: Controls, e: Event)
    ensures var t := Step(s, e);
      && t.snapshot == (if e.Read? then Some(Snapshot(e.model, e.effort, e.at)) else s.snapshot)
      && t.echo == (if e.Answer? && Proven(e.fact).Some?
                    then s.echo[e.fact.kind := Echo(Proven(e.fact).value, e.at)] else s.echo)
  {
    if e.Read? {
      var snapshot := Snapshot(e.model, e.effort, e.at);
      ResolutionsLeaveEvidence(s.(snapshot := Some(snapshot)), ResolveAll(s.pending, snapshot));
    }
  }

  // ---------------------------------------------------------------- the marker is the latest proof

  /** What the server last proved about one kind: a snapshot's value, possibly none, or an echoed one. */
  datatype Proof = Proof(value: Option<string>, at: int, echoed: bool)

  function Proves(e: Event, kind: Kind): Option<Proof> {
    match e
    case Read(model, effort, at) => Some(Proof(if kind == Model then model else effort, at, false))
    case Answer(f, at) =>
      if f.kind == kind && f.acceptance.EchoVerified? && f.effective.Some? then Some(Proof(f.effective, at, true)) else None
    case _ => None
  }

  function LatestProof(events: seq<Event>, kind: Kind): Option<Proof> {
    if events == [] then None
    else if Proves(events[|events| - 1], kind).Some? then Proves(events[|events| - 1], kind)
    else LatestProof(events[..|events| - 1], kind)
  }

  function LatestValue(events: seq<Event>, kind: Kind): Option<string> {
    match LatestProof(events, kind)
    case None => None
    case Some(p) => p.value
  }

  predicate Monotone(events: seq<Event>) {
    forall i, j :: 0 <= i < j < |events| ==> events[i].at <= events[j].at
  }

  predicate Strict(events: seq<Event>) {
    forall i, j :: 0 <= i < j < |events| ==> events[i].at < events[j].at
  }

  predicate Before(s: Controls, now: int) {
    && (s.snapshot.Some? ==> s.snapshot.value.at <= now)
    && (forall k <- s.echo :: s.echo[k].at <= now)
  }

  /** How the two stored pieces of evidence relate to the latest proof. */
  predicate Matches(s: Controls, latest: Option<Proof>, kind: Kind) {
    match latest
    case None => s.snapshot.None? && kind !in s.echo
    case Some(p) =>
      if p.echoed then
        && kind in s.echo && p.value == Some(s.echo[kind].value) && s.echo[kind].at == p.at
        && (s.snapshot.Some? ==> s.snapshot.value.at <= p.at)
      else
        && s.snapshot.Some? && Selected(s.snapshot.value, kind) == p.value && s.snapshot.value.at == p.at
        && (kind in s.echo ==> s.echo[kind].at <= p.at)
  }

  lemma StepMatches(s: Controls, e: Event, latest: Option<Proof>, kind: Kind)
    requires Matches(s, latest, kind) && Before(s, e.at)
    ensures Matches(Step(s, e), if Proves(e, kind).Some? then Proves(e, kind) else latest, kind)
    ensures Before(Step(s, e), e.at)
  {
    EvidenceAfter(s, e);
  }

  lemma {:induction false} RunMatches(events: seq<Event>, kind: Kind)
    requires Monotone(events)
    ensures Matches(After(events), LatestProof(events, kind), kind)
    ensures events != [] ==> Before(After(events), events[|events| - 1].at)
  {
    if events != [] {
      var rest, e := events[..|events| - 1], events[|events| - 1];
      RunMatches(rest, kind);
      WaitBefore(After(rest), rest, e.at);
      StepMatches(After(rest), e, LatestProof(rest, kind), kind);
    }
  }

  lemma WaitBefore(s: Controls, rest: seq<Event>, now: int)
    requires rest == [] ==> s == Init()
    requires rest != [] ==> Before(s, rest[|rest| - 1].at) && rest[|rest| - 1].at <= now
    ensures Before(s, now)
  {
  }

  /** The echo came in the very millisecond of a snapshot that says otherwise. */
  predicate Tied(events: seq<Event>, kind: Kind) {
    var s, p := After(events).snapshot, LatestProof(events, kind);
    p.Some? && p.value.echoed && s.Some? && s.value.at == p.value.at && Selected(s.value, kind) != p.value.value
  }

  /** On a clock that may stand still, the marker is the latest proof except on such a tie. */
  lemma MarkerIsLatestProofExactlyWhen(events: seq<Event>, kind: Kind)
    requires Monotone(events)
    ensures Effective(After(events), kind) == LatestValue(events, kind) <==> !Tied(events, kind)
  {
    RunMatches(events, kind);
  }

  /** On a strict clock the marker is always the latest proof. */
  lemma MarkerIsLatestProof(events: seq<Event>, kind: Kind)
    requires Strict(events)
    ensures Effective(After(events), kind) == LatestValue(events, kind)
  {
    NoTies(events, kind);
    MarkerIsLatestProofExactlyWhen(events, kind);
  }

  lemma {:induction false} LatestIsDated(events: seq<Event>, kind: Kind)
    ensures var p := LatestProof(events, kind);
      p.Some? ==> exists i :: 0 <= i < |events| && Proves(events[i], kind) == p
  {
    if events != [] {
      var rest, e := events[..|events| - 1], events[|events| - 1];
      LatestIsDated(rest, kind);
      if Proves(e, kind).None? && LatestProof(rest, kind).Some? {
        var i :| 0 <= i < |rest| && Proves(rest[i], kind) == LatestProof(rest, kind);
        assert events[i] == rest[i];
      } else if Proves(e, kind).Some? {
        assert Proves(events[|rest|], kind) == Proves(e, kind);
      }
    }
  }

  lemma {:induction false} SnapshotIsDated(events: seq<Event>)
    ensures var s := After(events).snapshot;
      s.Some? ==> exists i :: 0 <= i < |events| && events[i].Read? && events[i].at == s.value.at
  {
    if events != [] {
      var rest, e := events[..|events| - 1], events[|events| - 1];
      SnapshotIsDated(rest);
      EvidenceAfter(After(rest), e);
      if e.Read? {
        assert events[|rest|].Read?;
      } else if After(rest).snapshot.Some? {
        var i :| 0 <= i < |rest| && rest[i].Read? && rest[i].at == After(rest).snapshot.value.at;
        assert events[i].Read?;
      }
    }
  }

  lemma NoTies(events: seq<Event>, kind: Kind)
    requires Strict(events)
    ensures !Tied(events, kind)
  {
    LatestIsDated(events, kind);
    SnapshotIsDated(events);
  }

  /** Two proofs in one millisecond: the newer echo is not shown. */
  lemma SameMillisecondShowsTheOlder()
    ensures var events := [Read(Some("small"), None, 5), Answer(Fact(Model, "large", EchoVerified, Some("large")), 5)];
      && Monotone(events) && LatestValue(events, Model) == Some("large")
      && Effective(After(events), Model) == Some("small")
  {
    var first := Read(Some("small"), None, 5);
    var second := Answer(Fact(Model, "large", EchoVerified, Some("large")), 5);
    var events := [first, second];
    assert events[..1] == [first] && [first][..0] == [];
    EvidenceAfter(Init(), first);
    EvidenceAfter(After([first]), second);
    assert Proves(second, Model) == Some(Proof(Some("large"), 5, true));
  }

  /** No request, and no answer short of a proof, moves the marker. */
  lemma OnlyProofMovesTheMarker(s: Controls, e: Event, kind: Kind)
    requires Proves(e, kind).None?
    ensures Effective(Step(s, e), kind) == Effective(s, kind)
  {
    EvidenceAfter(s, e);
  }

  // ---------------------------------------------------------------- the ledger

  /** Every entry stays, in order; an acknowledgment may only turn on. */
  predicate Extends(before: seq<Entry>, after: seq<Entry>) {
    && |before| <= |after|
    && forall i :: 0 <= i < |before| ==>
         after[i].fact == before[i].fact && (before[i].acknowledged ==> after[i].acknowledged)
  }

  function FactsOf(ledger: seq<Entry>): seq<Fact> {
    if ledger == [] then [] else [ledger[0].fact] + FactsOf(ledger[1..])
  }

  lemma {:induction false} MatchingExtends(ledger: seq<Entry>, kind: Kind, requested: string)
    ensures var after := AcknowledgeMatching(ledger, kind, requested);
      Extends(ledger, after) && FactsOf(after) == FactsOf(ledger)
  {
    if ledger != [] { MatchingExtends(ledger[1..], kind, requested); }
  }

  lemma {:induction false} AllExtends(ledger: seq<Entry>)
    ensures var after := AcknowledgeAll(ledger);
      Extends(ledger, after) && FactsOf(after) == FactsOf(ledger) && forall e <- after :: e.acknowledged
  {
    if ledger != [] { AllExtends(ledger[1..]); }
  }

  lemma {:induction false} ResolutionsExtend(s: Controls, rs: seq<Resolution>)
    ensures var t := ApplyResolutions(s, rs); Extends(s.ledger, t.ledger) && FactsOf(t.ledger) == FactsOf(s.ledger)
    decreases |rs|
  {
    if rs != [] {
      MatchingExtends(s.ledger, rs[0].kind, rs[0].requested);
      ResolutionsExtend(ApplyResolution(s, rs[0]), rs[1..]);
    }
  }

  lemma {:induction false} FactsPush(ledger: seq<Entry>, e: Entry)
    ensures FactsOf(ledger + [e]) == FactsOf(ledger) + [e.fact]
  {
    if ledger == [] {
      assert [e][1..] == [];
    } else {
      FactsPush(ledger[1..], e);
      assert (ledger + [e])[1..] == ledger[1..] + [e];
    }
  }

  lemma LedgerAfter(s: Controls, e: Event)
    ensures Extends(s.ledger, Step(s, e).ledger)
    ensures FactsOf(Step(s, e).ledger) == FactsOf(s.ledger) + if e.Answer? then [e.fact] else []
  {
    match e
    case Answer(f, at) => FactsPush(s.ledger, Entry(f, Benign(f)));
    case Read(model, effort, at) =>
      var snapshot := Snapshot(model, effort, at);
      ResolutionsExtend(s.(snapshot := Some(snapshot)), ResolveAll(s.pending, snapshot));
    case Acknowledge(_) => AllExtends(s.ledger);
    case _ =>
  }

  function FactsIn(events: seq<Event>): seq<Fact> {
    if events == [] then []
    else FactsIn(events[..|events| - 1]) + if events[|events| - 1].Answer? then [events[|events| - 1].fact] else []
  }

  /** The ledger is the full record of the answers, in the order they came. */
  lemma {:induction false} LedgerRecordsEveryAnswer(events: seq<Event>)
    ensures FactsOf(After(events).ledger) == FactsIn(events)
  {
    if events != [] {
      LedgerRecordsEveryAnswer(events[..|events| - 1]);
      LedgerAfter(After(events[..|events| - 1]), events[|events| - 1]);
    }
  }

  /** From any point of a run to any later one the ledger only grows. */
  lemma {:induction false} LedgerOnlyGrows(events: seq<Event>, k: nat)
    requires k <= |events|
    ensures Extends(After(events[..k]).ledger, After(events).ledger)
    decreases |events| - k
  {
    if k == |events| {
      assert events[..k] == events;
    } else {
      LedgerOnlyGrows(events, k + 1);
      assert events[..k + 1][..k] == events[..k];
      LedgerAfter(After(events[..k]), events[k]);
    }
  }

  /** An outcome that needs nobody's attention: accepted as asked, or awaiting its turn. */
  predicate NeedsNoAttention(f: Fact) {
    f.acceptance.Immediate? || f.acceptance.Queued? || (f.acceptance.EchoVerified? && f.effective == Some(f.requested))
  }

  /** A snapshot that proves a set effective whose answer was unknown. */
  predicate ConfirmsUnknown(s: Controls, e: Event, f: Fact) {
    && e.Read? && f.kind in s.pending && s.pending[f.kind] == PendingSet(f.requested, UnknownVerifying)
    && (if f.kind == Model then e.model else e.effort) == Some(f.requested)
  }

  lemma {:induction false} MatchingAcknowledges(ledger: seq<Entry>, kind: Kind, requested: string, i: nat)
    requires i < |ledger|
    ensures var after := AcknowledgeMatching(ledger, kind, requested);
      && |after| == |ledger| && after[i].fact == ledger[i].fact
      && (after[i].acknowledged <==>
            ledger[i].acknowledged || (ledger[i].fact.kind == kind && ledger[i].fact.requested == requested))
  {
    MatchingExtends(ledger, kind, requested);
    if i > 0 { MatchingAcknowledges(ledger[1..], kind, requested, i - 1); }
    assert |AcknowledgeMatching(ledger, kind, requested)| == |ledger| by { MatchingKeepsLength(ledger, kind, requested); }
  }

  lemma {:induction false} MatchingKeepsLength(ledger: seq<Entry>, kind: Kind, requested: string)
    ensures |AcknowledgeMatching(ledger, kind, requested)| == |ledger|
  {
    if ledger != [] { MatchingKeepsLength(ledger[1..], kind, requested); }
  }

  /** The resolution acknowledges the entries of an unknown set it confirms, and no others. */
  lemma ResolutionAcknowledges(s: Controls, r: Resolution, i: nat)
    requires i < |s.ledger|
    ensures var after := ApplyResolution(s, r).ledger;
      && |after| == |s.ledger| && after[i].fact == s.ledger[i].fact
      && (after[i].acknowledged <==>
            s.ledger[i].acknowledged ||
            (r.wasUnknown && r.confirmed && s.ledger[i].fact.kind == r.kind && s.ledger[i].fact.requested == r.requested))
  {
    MatchingAcknowledges(s.ledger, r.kind, r.requested, i);
  }

  lemma ReadbackAcknowledges(s: Controls, snapshot: Snapshot, i: nat)
    requires i < |s.ledger|
    ensures var after, f := ReadBack(s, snapshot).ledger, s.ledger[i].fact;
      && |after| == |s.ledger|
      && (after[i].acknowledged <==>
            s.ledger[i].acknowledged || ConfirmsUnknown(s, Read(snapshot.model, snapshot.effort, snapshot.at), f))
  {
    var seen := s.(snapshot := Some(snapshot));
    var first, second := Resolve(s.pending, snapshot, Model), Resolve(s.pending, snapshot, Effort);
    Unroll(seen, first, second);
    var one := if first == [] then seen else ApplyResolution(seen, first[0]);
    if first != [] { ResolutionAcknowledges(seen, first[0], i); }
    if second != [] { ResolutionAcknowledges(one, second[0], i); }
    ConfirmsExactly(s, snapshot, s.ledger[i].fact, first, second);
  }

  /** Among the resolutions of a snapshot, those that confirm an unknown set. */
  lemma ConfirmsExactly(s: Controls, snapshot: Snapshot, f: Fact, first: seq<Resolution>, second: seq<Resolution>)
    requires first == Resolve(s.pending, snapshot, Model) && second == Resolve(s.pending, snapshot, Effort)
    ensures ConfirmsUnknown(s, Read(snapshot.model, snapshot.effort, snapshot.at), f) <==>
      (exists r <- first + second :: r.wasUnknown && r.confirmed && r.kind == f.kind && r.requested == f.requested)
  {
    var own := if f.kind == Model then first else second;
    assert forall r <- first :: r.kind == Model;
    assert forall r <- second :: r.kind == Effort;
    assert forall r <- first + second :: r in first || r in second;
    if ConfirmsUnknown(s, Read(snapshot.model, snapshot.effort, snapshot.at), f) {
      assert own[0] in first + second && own[0].wasUnknown && own[0].confirmed;
    }
  }

  /**
    When an entry counts as seen: filed so if it needs no attention; later by an acknowledgment, or by
    the snapshot that proves its unknown set effective.
   */
  lemma SeenExactlyWhen(s: Controls, e: Event, i: nat)
    requires i < |Step(s, e).ledger|
    ensures var after := Step(s, e).ledger;
      if i < |s.ledger| then
        after[i].acknowledged <==>
          s.ledger[i].acknowledged || e.Acknowledge? || ConfirmsUnknown(s, e, s.ledger[i].fact)
      else e.Answer? && i == |s.ledger| && after[i].fact == e.fact && (after[i].acknowledged <==> NeedsNoAttention(e.fact))
  {
    match e
    case Read(model, effort, at) =>
      ReadbackLength(s, Snapshot(model, effort, at));
      if i < |s.ledger| { ReadbackAcknowledges(s, Snapshot(model, effort, at), i); }
    case Acknowledge(_) =>
      AcknowledgeAllLength(s.ledger);
      AllExtends(s.ledger);
      assert AcknowledgeAll(s.ledger)[i] in AcknowledgeAll(s.ledger);
    case _ =>
  }

  lemma {:induction false} AcknowledgeAllLength(ledger: seq<Entry>)
    ensures |AcknowledgeAll(ledger)| == |ledger|
  {
    if ledger != [] { AcknowledgeAllLength(ledger[1..]); }
  }

  lemma ReadbackLength(s: Controls, snapshot: Snapshot)
    ensures |ReadBack(s, snapshot).ledger| == |s.ledger|
  {
    var seen := s.(snapshot := Some(snapshot));
    var first, second := Resolve(s.pending, snapshot, Model), Resolve(s.pending, snapshot, Effort);
    Unroll(seen, first, second);
    forall l: seq<Entry>, kind, requested ensures |AcknowledgeMatching(l, kind, requested)| == |l| {
      MatchingKeepsLength(l, kind, requested);
    }
  }

  // ---------------------------------------------------------------- pending sets

  predicate Owns(s: Controls, kind: Kind, value: string) {
    kind in s.pending && s.pending[kind].requested == value
  }

  /** The pending sets an answer leaves, before the pair posts anything: only its own set is moved. */
  function PendingAfterAnswer(s: Controls, f: Fact): map<Kind, PendingSet> {
    if !Owns(s, f.kind, f.requested) then s.pending
    else if f.acceptance.Queued? then s.pending[f.kind := PendingSet(f.requested, QueuedAwaitingTurn)]
    else if f.acceptance.Unknown? then s.pending[f.kind := PendingSet(f.requested, UnknownVerifying)]
    else s.pending - {f.kind}
  }

  /** Sends and answers move only the set they speak of; a pair change adds the effort it posts. */
  lemma PendingAfter(s: Controls, e: Event)
    requires !e.Read?
    ensures var t := Step(s, e);
      match e
      case Send(kind, value, _) => t.pending == s.pending[kind := PendingSet(value, InFlight)]
      case Answer(f, _) =>
        t.pending == (if t.effortPosts == s.effortPosts then PendingAfterAnswer(s, f)
                      else PendingAfterAnswer(s, f)[Effort := PendingSet(s.pair.value.effort, InFlight)]) &&
        (t.effortPosts != s.effortPosts ==> s.pair.Some?)
      case Fail(kind, value, _) => t.pending == if Owns(s, kind, value) then s.pending - {kind} else s.pending
      case BeginPair(modelKey, _, _) => t.pending == s.pending[Model := PendingSet(modelKey, InFlight)]
      case Acknowledge(_) => t.pending == s.pending
      case Read(_, _, _) => true
  {
    if e.Answer? {
      PendingAfterOneAnswer(s, e.fact, e.at);
    } else if e.Fail? {
      PendingAfterFailure(s, e.kind, e.value);
    }
  }

  lemma PendingAfterOneAnswer(s: Controls, f: Fact, at: int)
    ensures var t := Answered(s, f, at);
      t.pending == (if t.effortPosts == s.effortPosts then PendingAfterAnswer(s, f)
                    else PendingAfterAnswer(s, f)[Effort := PendingSet(s.pair.value.effort, InFlight)]) &&
      (t.effortPosts != s.effortPosts ==> s.pair.Some?)
  {
    var filed := MovePending(s.(ledger := s.ledger + [Entry(f, Benign(f))]), f);
    assert filed.pending == PendingAfterAnswer(s, f) && filed.pair == s.pair;
  }

  lemma PendingAfterFailure(s: Controls, kind: Kind, value: string)
    ensures Failed(s, kind, value).pending == if Owns(s, kind, value) then s.pending - {kind} else s.pending
  {
  }

  /** Acknowledging clears a finished pair from the screen and leaves a running one. */
  lemma AcknowledgingClearsFinishedPair(s: Controls, at: int)
    ensures var t := Step(s, Acknowledge(at));
      && t.pair == (if s.pair.Some? && s.pair.value.outcome.Some? then None else s.pair)
      && t.pairOutcome == s.pairOutcome && t.pending == s.pending
  {
  }

  // ---------------------------------------------------------------- the pair inside the controls

  lemma {:induction false} PairPush(p: Pair, events: seq<P.Event>, e: P.Event)
    ensures P.After(p, events + [e]) == Apply(P.After(p, events), e).pair
    ensures Sends(p, events + [e]) == Sends(p, events) + if Apply(P.After(p, events), e).sendEffort then 1 else 0
    decreases |events|
  {
    if events == [] {
      assert [e][1..] == [];
    } else {
      PairPush(Apply(p, events[0]).pair, events[1..], e);
      assert (events + [e])[1..] == events[1..] + [e];
    }
  }

  /** The pair on screen is the pair machine run on the log; its posts are the machine's sends. */
  predicate PairInv(s: Controls, modelKey: string, effortKey: string) {
    && (s.pair.Some? ==> s.pair.value == P.After(Start(modelKey, effortKey), s.pairLog))
    && s.effortPosts == Sends(Start(modelKey, effortKey), s.pairLog)
    && s.pairOutcome == P.After(Start(modelKey, effortKey), s.pairLog).outcome
  }

  lemma CommitKeepsPair(s: Controls, e: P.Event, modelKey: string, effortKey: string)
    requires s.pair.Some? && PairInv(s, modelKey, effortKey)
    ensures PairInv(Commit(s, e), modelKey, effortKey)
  {
    PairPush(Start(modelKey, effortKey), s.pairLog, e);
  }

  lemma {:induction false} ResolutionsKeepPair(s: Controls, rs: seq<Resolution>, modelKey: string, effortKey: string)
    requires PairInv(s, modelKey, effortKey)
    ensures PairInv(ApplyResolutions(s, rs), modelKey, effortKey)
    decreases |rs|
  {
    if rs != [] {
      var r := rs[0];
      var cleared := s.(
        pending := s.pending - {r.kind},
        ledger := if r.wasUnknown && r.confirmed then AcknowledgeMatching(s.ledger, r.kind, r.requested) else s.ledger);
      if cleared.pair.Some? { CommitKeepsPair(cleared, P.Readback(r.confirmed), modelKey, effortKey); }
      ResolutionsKeepPair(ApplyResolution(s, r), rs[1..], modelKey, effortKey);
    }
  }

  lemma StepKeepsPair(s: Controls, e: Event, modelKey: string, effortKey: string)
    requires PairInv(s, modelKey, effortKey) && !e.BeginPair?
    ensures PairInv(Step(s, e), modelKey, effortKey)
  {
    match e
    case Answer(f, at) =>
      var filed := MovePending(s.(ledger := s.ledger + [Entry(f, Benign(f))]), f);
      var marked := if Proven(f).Some? then filed.(echo := filed.echo[f.kind := Echo(Proven(f).value, at)]) else filed;
      if marked.pair.Some? { CommitKeepsPair(marked, P.Result(f.kind, f.acceptance), modelKey, effortKey); }
    case Fail(kind, value, _) =>
      var cleared :=
        if kind in s.pending && s.pending[kind].requested == value then s.(pending := s.pending - {kind}) else s;
      if cleared.pair.Some? { CommitKeepsPair(cleared, P.RouteError(kind), modelKey, effortKey); }
    case Read(model, effort, at) =>
      var snapshot := Snapshot(model, effort, at);
      ResolutionsKeepPair(s.(snapshot := Some(snapshot)), ResolveAll(s.pending, snapshot), modelKey, effortKey);
    case _ =>
  }

  lemma {:induction false} RunKeepsPair(s: Controls, events: seq<Event>, modelKey: string, effortKey: string)
    requires PairInv(s, modelKey, effortKey) && forall e <- events :: !e.BeginPair?
    ensures PairInv(Onward(s, events), modelKey, effortKey)
    decreases |events|
  {
    if events != [] {
      assert events[0] in events;
      StepKeepsPair(s, events[0], modelKey, effortKey);
      RunKeepsPair(Step(s, events[0]), events[1..], modelKey, effortKey);
    }
  }

  function Onward(s: Controls, events: seq<Event>): Controls
    decreases |events|
  {
    if events == [] then s else Onward(Step(s, events[0]), events[1..])
  }

  // What of the session's own events bears on the running pair change.

  /** The value is what the pair asked for on the step at hand, and it still waits. */
  predicate AtHand(p: Pair, kind: Kind, value: string) {
    && p.outcome.None? && p.step == kind
    && ((kind == Model && value == p.modelKey) || (kind == Effort && value == p.effort))
  }

  /** A snapshot's word on a set that waits for one: unknown sets either way, queued ones only if confirmed. */
  function ReadbackOn(pending: map<Kind, PendingSet>, kind: Kind, selected: Option<string>): seq<P.Event> {
    if kind !in pending || pending[kind].phase.InFlight? then []
    else if selected == Some(pending[kind].requested) then [P.Readback(true)]
    else if pending[kind].phase.UnknownVerifying? then [P.Readback(false)]
    else []
  }

  /** Answers and route failures for the value at hand, and readbacks of the step while it awaits one. */
  function Bearing(s: Controls, e: Event): seq<P.Event> {
    if s.pair.None? then [] else
    var p := s.pair.value;
    match e
    case Answer(f, _) => if AtHand(p, f.kind, f.requested) then [P.Result(f.kind, f.acceptance)] else []
    case Fail(kind, value, _) => if AtHand(p, kind, value) then [P.RouteError(kind)] else []
    case Read(model, effort, _) =>
      if p.phase == AwaitingReadback then ReadbackOn(s.pending, p.step, if p.step == Model then model else effort) else []
    case _ => []
  }

  function BearingAll(s: Controls, events: seq<Event>): seq<P.Event>
    decreases |events|
  {
    if events == [] then [] else Bearing(s, events[0]) + BearingAll(Step(s, events[0]), events[1..])
  }

  lemma ReadbackIsLogged(s: Controls, snapshot: Snapshot)
    ensures ReadBack(s, snapshot).pairLog == s.pairLog + Bearing(s, Read(snapshot.model, snapshot.effort, snapshot.at))
  {
    var seen := s.(snapshot := Some(snapshot));
    var first, second := Resolve(s.pending, snapshot, Model), Resolve(s.pending, snapshot, Effort);
    Unroll(seen, first, second);
  }

  lemma StepIsLogged(s: Controls, e: Event)
    requires !e.BeginPair?
    ensures Step(s, e).pairLog == s.pairLog + Bearing(s, e)
  {
    if e.Read? { ReadbackIsLogged(s, Snapshot(e.model, e.effort, e.at)); }
  }

  /** The log of a pair change is what of the session's events bears on it, in order. */
  lemma {:induction false} LogIsWhatBears(s: Controls, events: seq<Event>)
    requires forall e <- events :: !e.BeginPair?
    ensures Onward(s, events).pairLog == s.pairLog + BearingAll(s, events)
    decreases |events|
  {
    if events != [] {
      assert events[0] in events;
      var next, rest := Step(s, events[0]), events[1..];
      StepIsLogged(s, events[0]);
      LogIsWhatBears(next, rest);
      LogJoins(s.pairLog, Bearing(s, events[0]), BearingAll(next, rest));
    }
  }

  lemma LogJoins(a: seq<P.Event>, b: seq<P.Event>, c: seq<P.Event>)
    ensures (a + b) + c == a + (b + c)
  {
  }

  /**
    From the moment a pair change begins until the next one does, whatever else happens in the session:
    effort is posted at most once, only when the events prove model; the pair ends as the events call
    for, completed only with both proved; and it posted no effort exactly when it was aborted.
   */
  lemma PairPostsEffortOnce(s: Controls, modelKey: string, effortKey: string, at: int, events: seq<Event>)
    requires forall e <- events :: !e.BeginPair?
    ensures var begun := Step(s, BeginPair(modelKey, effortKey, at));
      var t, heard := Onward(begun, events), BearingAll(begun, events);
      && t.effortPosts == (if VerdictOn(Model, false, heard).Proved? then 1 else 0)
      && t.pairOutcome == OutcomeOf(modelKey, heard)
      && (t.pair.Some? ==> t.pair.value.outcome == t.pairOutcome)
      && (t.pairOutcome.Some? ==> (t.pairOutcome.value.Aborted? <==> t.effortPosts == 0))
  {
    var begun := Step(s, BeginPair(modelKey, effortKey, at));
    RunKeepsPair(begun, events, modelKey, effortKey);
    LogIsWhatBears(begun, events);
    var t := Onward(begun, events);
    assert t.pairLog == BearingAll(begun, events);
    PairFollowsVerdicts(modelKey, effortKey, t.pairLog);
    OutcomeTellsWhatWasSent(modelKey, effortKey, t.pairLog);
  }

  /** A pair change whose model and then effort are accepted completes, posts effort once and is cleared. */
  lemma AcceptedPairCompletes(s: Controls, begin: Event, model: Event, effort: Event)
    requires begin.BeginPair? && model.Answer? && effort.Answer?
    requires model.fact.kind == Model && model.fact.requested == begin.modelKey && Accepted(model.fact.acceptance)
    requires effort.fact.kind == Effort && effort.fact.requested == begin.effortKey && Accepted(effort.fact.acceptance)
    ensures var t := Step(Step(Step(s, begin), model), effort);
      t.pair.None? && t.pairOutcome == Some(Completed) && t.effortPosts == 1
  {
    var begun := Step(s, begin);
    AcceptedAnswerMoves(begun, model);
    AcceptedAnswerMoves(Step(begun, model), effort);
  }

  /** An accepted answer for the value at hand: model lets effort go out, effort completes the pair. */
  lemma AcceptedAnswerMoves(s: Controls, e: Event)
    requires e.Answer? && s.pair.Some? && AtHand(s.pair.value, e.fact.kind, e.fact.requested) && Accepted(e.fact.acceptance)
    ensures var t, p := Step(s, e), s.pair.value;
      if p.step == Model then
        && t.pair == Some(p.(step := Effort, phase := Inflight)) && t.effortPosts == s.effortPosts + 1
        && Effort in t.pending && t.pending[Effort] == PendingSet(p.effort, InFlight)
      else t.pair.None? && t.pairOutcome == Some(Completed) && t.effortPosts == s.effortPosts
  {
  }

  // ---------------------------------------------------------------- readbacks

  /** After a readback no set is left unverified, and a queued one only if the snapshot disproves it. */
  lemma ReadbackSettles(s: Controls, snapshot: Snapshot, kind: Kind)
    ensures var t := ReadBack(s, snapshot);
      kind in t.pending ==>
        && t.pending[kind].phase != UnknownVerifying
        && (t.pending[kind].phase == QueuedAwaitingTurn ==> Selected(snapshot, kind) != Some(t.pending[kind].requested))
  {
    var seen := s.(snapshot := Some(snapshot));
    var first, second := Resolve(s.pending, snapshot, Model), Resolve(s.pending, snapshot, Effort);
    Unroll(seen, first, second);
  }

  lemma Unroll(s: Controls, first: seq<Resolution>, second: seq<Resolution>)
    requires |first| <= 1 && |second| <= 1
    ensures ApplyResolutions(s, first + second) ==
      (var one := if first == [] then s else ApplyResolution(s, first[0]);
       if second == [] then one else ApplyResolution(one, second[0]))
  {
    if first == [] {
      assert first + second == second;
      if second != [] { assert second[1..] == []; }
    } else {
      var one := ApplyResolution(s, first[0]);
      assert (first + second)[0] == first[0] && (first + second)[1..] == second;
      assert ApplyResolutions(s, first + second) == ApplyResolutions(one, second);
      if second != [] { assert second[1..] == []; }
    }
  }

  /**
    When a readback makes the pair post effort, the record of that fresh post stays only if no older
    effort set is resolved by the same readback: the older one's clearing comes after it.
   */
  lemma FreshEffortStaysExactlyWhen(s: Controls, snapshot: Snapshot)
    requires ReadBack(s, snapshot).effortPosts == s.effortPosts + 1
    ensures Effort in ReadBack(s, snapshot).pending <==> Resolve(s.pending, snapshot, Effort) == []
  {
    var seen := s.(snapshot := Some(snapshot));
    Unroll(seen, Resolve(s.pending, snapshot, Model), Resolve(s.pending, snapshot, Effort));
  }

  /** Effort "low" and model "m" both answered unknown while a pair change to "m" and "high" runs. */
  function BothUnknown(): seq<Event> {
    [BeginPair("m", "high", 1), Send(Effort, "low", 2), Answer(Fact(Effort, "low", Unknown, None), 3),
     Answer(Fact(Model, "m", Unknown, None), 4)]
  }

  lemma BothUnknownLeaves() returns (s: Controls)
    ensures s == After(BothUnknown())
    ensures s.pending == map[Model := PendingSet("m", UnknownVerifying), Effort := PendingSet("low", UnknownVerifying)]
    ensures s.pair == Some(Pair("m", "high", Model, AwaitingReadback, None)) && s.effortPosts == 0
  {
    var e := BothUnknown();
    assert [e[0]] == [] + [e[0]] && [e[0], e[1]] == [e[0]] + [e[1]];
    assert [e[0], e[1], e[2]] == [e[0], e[1]] + [e[2]] && e == [e[0], e[1], e[2]] + [e[3]];
    AfterOneMore([], e[0]);
    AfterOneMore([e[0]], e[1]);
    AfterOneMore([e[0], e[1]], e[2]);
    AfterOneMore([e[0], e[1], e[2]], e[3]);
    var s1 := Step(Init(), e[0]);
    var s3 := Step(Step(s1, e[1]), e[2]);
    assert s3.pair == s1.pair && s3.pending == map[Model := PendingSet("m", InFlight), Effort := PendingSet("low", UnknownVerifying)];
    s := Step(s3, e[3]);
  }

  /**
    A readback that confirms the model posts effort "high", and with the unknown "low" it clears the
    record of that very post.
   */
  lemma FreshEffortCanBeWiped()
    ensures var s := After(BothUnknown() + [Read(Some("m"), Some("mid"), 5)]);
      && s.effortPosts == 1 && Effort !in s.pending
      && s.pair == Some(Pair("m", "high", Effort, Inflight, None))
  {
    var s := BothUnknownLeaves();
    AfterOneMore(BothUnknown(), Read(Some("m"), Some("mid"), 5));
    BothResolve(s, Snapshot(Some("m"), Some("mid"), 5));
  }

  lemma AfterOneMore(events: seq<Event>, e: Event)
    ensures After(events + [e]) == Step(After(events), e)
  {
    assert (events + [e])[..|events|] == events;
  }

  /** One readback that confirms the model and settles the older effort. */
  lemma BothResolve(s: Controls, read: Snapshot)
    requires s.pending == map[Model := PendingSet("m", UnknownVerifying), Effort := PendingSet("low", UnknownVerifying)]
    requires s.pair == Some(Pair("m", "high", Model, AwaitingReadback, None)) && read.model == Some("m")
    ensures var t := ReadBack(s, read);
      && t.effortPosts == s.effortPosts + 1 && Effort !in t.pending
      && t.pair == Some(Pair("m", "high", Effort, Inflight, None))
  {
    var seen := s.(snapshot := Some(read));
    var model, effort := Resolution(Model, true, "m", true), Resolution(Effort, read.effort == Some("low"), "low", true);
    assert Resolve(s.pending, read, Model) == [model] && Resolve(s.pending, read, Effort) == [effort];
    Unroll(seen, [model], [effort]);
    WipesFreshEffort(seen, model, effort);
  }

  lemma WipesFreshEffort(s: Controls, model: Resolution, effort: Resolution)
    requires s.pair == Some(Pair("m", "high", Model, AwaitingReadback, None))
    requires model.kind == Model && model.confirmed && effort.kind == Effort
    ensures var t := ApplyResolution(ApplyResolution(s, model), effort);
      && t.effortPosts == s.effortPosts + 1 && Effort !in t.pending
      && t.pair == Some(Pair("m", "high", Effort, Inflight, None))
  {
  }
}
