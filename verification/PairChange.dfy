/** The serialized model-then-effort change of pairChange.ts. Detail texts are not modelled. */
module PairChange {
  import opened Wrappers

  datatype Kind = Model | Effort

  datatype Acceptance = EchoVerified | Immediate | Queued | Unknown | Unsupported

  datatype Phase = Inflight | AwaitingReadback

  datatype Outcome = Completed | Aborted(routeError: bool) | Partial(model: string, routeError: bool)

  datatype Pair = Pair(modelKey: string, effort: string, step: Kind, phase: Phase, outcome: Option<Outcome>)

  datatype Directive = Directive(pair: Pair, sendEffort: bool, done: bool)

  predicate Accepted(a: Acceptance) {
    a.EchoVerified? || a.Immediate? || a.Queued?
  }

  function Start(modelKey: string, effort: string): Pair {
    Pair(modelKey, effort, Model, Inflight, None)
  }

  function Ignore(p: Pair): Directive {
    Directive(p, false, p.outcome.Some?)
  }

  function Hold(p: Pair): Directive {
    Directive(p.(phase := AwaitingReadback), false, false)
  }

  /** The step at hand succeeded: send effort after model, finish after effort. */
  function Advance(p: Pair): Directive {
    if p.step == Model then Directive(p.(step := Effort, phase := Inflight), true, false)
    else Directive(p.(outcome := Some(Completed)), false, true)
  }

  function Refuse(p: Pair, routeError: bool): Directive {
    Directive(p.(outcome := Some(if p.step == Model then Aborted(routeError) else Partial(p.modelKey, routeError))),
              false, true)
  }

  function ApplyResult(p: Pair, kind: Kind, acceptance: Acceptance): Directive {
    if p.outcome.Some? || kind != p.step then Ignore(p)
    else if Accepted(acceptance) then Advance(p)
    else if acceptance.Unknown? then Hold(p)
    else Refuse(p, false)
  }

  function ApplyRouteError(p: Pair, kind: Kind): Directive {
    if p.outcome.Some? || kind != p.step then Ignore(p) else Refuse(p, true)
  }

  function ApplyReadback(p: Pair, confirmed: bool): Directive {
    if p.outcome.Some? || p.phase != AwaitingReadback then Ignore(p)
    else if confirmed then Advance(p)
    else Refuse(p, false)
  }

  datatype Event =
    | Result(kind: Kind, acceptance: Acceptance)
    | RouteError(kind: Kind)
    | Readback(confirmed: bool)

  function Apply(p: Pair, e: Event): Directive {
    match e
    case Result(kind, acceptance) => ApplyResult(p, kind, acceptance)
    case RouteError(kind) => ApplyRouteError(p, kind)
    case Readback(confirmed) => ApplyReadback(p, confirmed)
  }

  function After(p: Pair, events: seq<Event>): Pair
    decreases |events|
  {
    if events == [] then p else After(Apply(p, events[0]).pair, events[1..])
  }

  /** How many of the events told the driver to send effort. */
  function Sends(p: Pair, events: seq<Event>): nat
    decreases |events|
  {
    if events == [] then 0
    else (if Apply(p, events[0]).sendEffort then 1 else 0) + Sends(Apply(p, events[0]).pair, events[1..])
  }

  // ---------------------------------------------------------------- the same run, read as two verdicts

  datatype Verdict = Pending(held: bool) | Proved(at: nat) | Refused(at: nat, routeError: bool)

  function Later(v: Verdict): Verdict {
    match v
    case Pending(held) => Pending(held)
    case Proved(at) => Proved(at + 1)
    case Refused(at, routeError) => Refused(at + 1, routeError)
  }

  /**
    The verdict on one kind of set: the first accepting or refusing answer to it, or the first readback
    after an answer of unknown. `held` tells whether such an answer has been seen.
   */
  function VerdictOn(kind: Kind, held: bool, events: seq<Event>): Verdict
    decreases |events|
  {
    if events == [] then Pending(held) else
    var e := events[0];
    if e.Result? && e.kind == kind && Accepted(e.acceptance) then Proved(0)
    else if e.Result? && e.kind == kind && e.acceptance.Unsupported? then Refused(0, false)
    else if e.RouteError? && e.kind == kind then Refused(0, true)
    else if e.Readback? && held then (if e.confirmed then Proved(0) else Refused(0, false))
    else Later(VerdictOn(kind, held || (e.Result? && e.kind == kind), events[1..]))
  }

  predicate InBounds(v: Verdict, n: nat) {
    (v.Proved? ==> v.at < n) && (v.Refused? ==> v.at < n)
  }

  lemma {:induction false} VerdictInBounds(kind: Kind, held: bool, events: seq<Event>)
    ensures InBounds(VerdictOn(kind, held, events), |events|)
    decreases |events|
  {
    if events != [] {
      var e := events[0];
      VerdictInBounds(kind, held || (e.Result? && e.kind == kind), events[1..]);
    }
  }

  /** An outcome ends the story: nothing later changes it or sends anything. */
  lemma {:induction false} OutcomeIsAbsorbing(p: Pair, events: seq<Event>)
    requires p.outcome.Some?
    ensures After(p, events) == p && Sends(p, events) == 0
    decreases |events|
  {
    if events != [] { OutcomeIsAbsorbing(p, events[1..]); }
  }

  function Phased(p: Pair, held: bool): Pair {
    p.(phase := if held then AwaitingReadback else Inflight)
  }

  /** The run of one step of the change does what the verdict on it says. */
  predicate Follows(p: Pair, events: seq<Event>, v: Verdict) {
    && InBounds(v, |events|)
    && match v
       case Pending(h) => After(p, events) == Phased(p, h) && Sends(p, events) == 0
       case Proved(at) =>
         if p.step == Model then
           && After(p, events) == After(Advance(p).pair, events[at + 1..])
           && Sends(p, events) == 1 + Sends(Advance(p).pair, events[at + 1..])
         else
           After(p, events).outcome == Some(Completed) && Sends(p, events) == 0
       case Refused(at, routeError) =>
         After(p, events).outcome == Refuse(p, routeError).pair.outcome && Sends(p, events) == 0
  }

  /** One step of the change, up to its verdict. */
  lemma {:induction false} StepFollowsVerdict(p: Pair, held: bool, events: seq<Event>)
    requires p.outcome.None? && p == Phased(p, held)
    ensures Follows(p, events, VerdictOn(p.step, held, events))
    decreases |events|
  {
    if events != [] {
      var e, rest := events[0], events[1..];
      var heldNow := held || (e.Result? && e.kind == p.step);
      var v := VerdictOn(p.step, held, events);
      HeadFollows(p, held, events);
      if v == Proved(0) && Apply(p, e) == Advance(p) {
        ProvedAtOnce(p, events);
      } else if v.Refused? && v.at == 0 && Apply(p, e) == Refuse(p, v.routeError) {
        OutcomeIsAbsorbing(Apply(p, e).pair, rest);
      } else {
        StepFollowsVerdict(Phased(p, heldNow), heldNow, rest);
        FollowsLater(p, heldNow, events, VerdictOn(p.step, heldNow, rest));
      }
    }
  }

  lemma ProvedAtOnce(p: Pair, events: seq<Event>)
    requires events != [] && p.outcome.None? && Apply(p, events[0]) == Advance(p)
    ensures Follows(p, events, Proved(0))
  {
    if p.step == Effort { OutcomeIsAbsorbing(Advance(p).pair, events[1..]); }
  }

  lemma FollowsLater(p: Pair, held: bool, events: seq<Event>, v: Verdict)
    requires events != [] && p.outcome.None?
    requires Apply(p, events[0]).pair == Phased(p, held) && !Apply(p, events[0]).sendEffort
    requires Follows(Phased(p, held), events[1..], v)
    ensures Follows(p, events, Later(v))
  {
    if v.Proved? { assert events[1..][v.at + 1..] == events[v.at + 2..]; }
  }

  /** What the first event does to the pair, and what it does to the verdict. */
  lemma HeadFollows(p: Pair, held: bool, events: seq<Event>)
    requires events != [] && p.outcome.None? && p == Phased(p, held)
    ensures var e, d := events[0], Apply(p, events[0]);
      var heldNow := held || (e.Result? && e.kind == p.step);
      var v := VerdictOn(p.step, held, events);
      || (v == Proved(0) && d == Advance(p))
      || (v.Refused? && v.at == 0 && d == Refuse(p, v.routeError))
      || (v == Later(VerdictOn(p.step, heldNow, events[1..])) && d.pair == Phased(p, heldNow) && !d.sendEffort)
  {
  }

  /** The outcome the two verdicts call for: model's, then effort's on what follows it. */
  function OutcomeOf(modelKey: string, events: seq<Event>): Option<Outcome> {
    VerdictInBounds(Model, false, events);
    match VerdictOn(Model, false, events)
    case Pending(_) => None
    case Refused(_, routeError) => Some(Aborted(routeError))
    case Proved(at) =>
      match VerdictOn(Effort, false, events[at + 1..])
      case Pending(_) => None
      case Refused(_, routeError) => Some(Partial(modelKey, routeError))
      case Proved(_) => Some(Completed)
  }

  /**
    Over any sequence of answers, route failures and readbacks, effort is sent once if model was proved
    and never otherwise, and the outcome is the one the two verdicts call for.
   */
  lemma PairFollowsVerdicts(modelKey: string, effort: string, events: seq<Event>)
    ensures var p := After(Start(modelKey, effort), events);
      && p.outcome == OutcomeOf(modelKey, events)
      && Sends(Start(modelKey, effort), events) == (if VerdictOn(Model, false, events).Proved? then 1 else 0)
      && p.modelKey == modelKey && p.effort == effort
  {
    var start := Start(modelKey, effort);
    StepFollowsVerdict(start, false, events);
    GoalIsFixed(start, events);
    var v := VerdictOn(Model, false, events);
    if v.Proved? { StepFollowsVerdict(Advance(start).pair, false, events[v.at + 1..]); }
  }

  lemma {:induction false} GoalIsFixed(p: Pair, events: seq<Event>)
    ensures After(p, events).modelKey == p.modelKey && After(p, events).effort == p.effort
    decreases |events|
  {
    if events != [] { GoalIsFixed(Apply(p, events[0]).pair, events[1..]); }
  }

  /** A finished pair: aborted means effort never went out, partial and completed mean it did, once. */
  lemma OutcomeTellsWhatWasSent(modelKey: string, effort: string, events: seq<Event>)
    ensures var p, sends := After(Start(modelKey, effort), events), Sends(Start(modelKey, effort), events);
      && sends <= 1
      && (p.outcome.Some? ==> (p.outcome.value.Aborted? <==> sends == 0))
      && (p.step == Effort <==> sends == 1)
  {
    PairFollowsVerdicts(modelKey, effort, events);
    StepIsWhatWasSent(Start(modelKey, effort), events);
  }

  lemma {:induction false} StepIsWhatWasSent(p: Pair, events: seq<Event>)
    ensures After(p, events).step == Effort <==> p.step == Effort || Sends(p, events) > 0
    decreases |events|
  {
    if events != [] { StepIsWhatWasSent(Apply(p, events[0]).pair, events[1..]); }
  }

  /** A directive says it is done exactly when the pair has its outcome. */
  lemma DoneIsOutcome(p: Pair, e: Event)
    ensures Apply(p, e).done <==> Apply(p, e).pair.outcome.Some?
  {
  }
}
