/** The watchdog of streamLiveness.ts: a sleep detector and a one-shot frame-timeout backstop. */
module StreamLiveness {
  import opened Wrappers

  /** Milliseconds. A `frameTimeout` of 0 disables the backstop. */
  datatype Tuning = Tuning(frameTimeout: nat, sleepJump: nat, settle: nat)

  const DefaultTuning: Tuning := Tuning(90_000, 30_000, 10_000)

  /** `lastCycleAt` is None for minus infinity. */
  datatype Watch = Watch(
    lastTickAt: int,
    lastFrameAt: int,
    stopped: bool,
    backstopSpent: bool,
    lastCycleAt: Option<int>)

  datatype Verdict = Quiet | Slept | Backstop

  /** A tick (interval or visibility), a sign of life, or `stop`. */
  datatype Event =
    | Tick(at: int, hidden: bool, open: bool)
    | Alive(at: int)
    | Stop(at: int)

  function Start(at: int): Watch {
    Watch(at, at, false, false, None)
  }

  function Verdicted(c: Tuning, w: Watch, e: Event): Verdict {
    if !e.Tick? || w.stopped || e.hidden || !e.open then Quiet
    else if e.at - w.lastTickAt >= c.sleepJump then Slept
    else if c.frameTimeout > 0 && !w.backstopSpent && e.at - w.lastFrameAt >= c.frameTimeout then Backstop
    else Quiet
  }

  function Step(c: Tuning, w: Watch, e: Event): Watch {
    match e
    case Tick(at, _, _) =>
      if Verdicted(c, w, e) == Backstop
      then w.(lastTickAt := at, backstopSpent := true, lastCycleAt := Some(at))
      else w.(lastTickAt := at)
    case Alive(at) =>
      var late := w.lastCycleAt.None? || at - w.lastCycleAt.value > c.settle;
      w.(lastFrameAt := at, backstopSpent := w.backstopSpent && !late)
    case Stop(_) => w.(stopped := true)
  }

  function After(c: Tuning, start: int, events: seq<Event>): Watch {
    if events == [] then Start(start)
    else Step(c, After(c, start, events[..|events| - 1]), events[|events| - 1])
  }

  /** What the watchdog did at event `k` of a run. */
  function VerdictAt(c: Tuning, start: int, events: seq<Event>, k: nat): Verdict
    requires k < |events|
  {
    Verdicted(c, After(c, start, events[..k]), events[k])
  }

  // ---------------------------------------------------------------- the same run, read off its history

  function LastTick(start: int, events: seq<Event>): int {
    if events == [] then start
    else if events[|events| - 1].Tick? then events[|events| - 1].at
    else LastTick(start, events[..|events| - 1])
  }

  function LastFrame(start: int, events: seq<Event>): int {
    if events == [] then start
    else if events[|events| - 1].Alive? then events[|events| - 1].at
    else LastFrame(start, events[..|events| - 1])
  }

  predicate HasStopped(events: seq<Event>) {
    exists e <- events :: e.Stop?
  }

  /** Every sign of life since event `i` is that cycle's own handshake. */
  predicate OnlyHandshake(c: Tuning, events: seq<Event>, i: nat)
    requires i < |events|
  {
    forall j :: i < j < |events| && events[j].Alive? ==> events[j].at - events[i].at <= c.settle
  }

  /** An earlier backstop cycle has seen no life of its own since. */
  predicate Spent(c: Tuning, start: int, events: seq<Event>) {
    exists i :: 0 <= i < |events| && VerdictAt(c, start, events, i) == Backstop && OnlyHandshake(c, events, i)
  }

  lemma PrefixVerdict(c: Tuning, start: int, events: seq<Event>, k: nat, n: nat)
    requires k < n <= |events|
    ensures VerdictAt(c, start, events[..n], k) == VerdictAt(c, start, events, k)
  {
    assert events[..n][..k] == events[..k];
  }

  function LastBackstop(c: Tuning, start: int, events: seq<Event>): (i: int)
    ensures -1 <= i < |events|
  {
    if events == [] then -1
    else if VerdictAt(c, start, events, |events| - 1) == Backstop then |events| - 1
    else LastBackstop(c, start, events[..|events| - 1])
  }

  lemma {:induction false} LastBackstopIsLast(c: Tuning, start: int, events: seq<Event>, k: nat)
    requires k < |events| && VerdictAt(c, start, events, k) == Backstop
    ensures var i := LastBackstop(c, start, events); k <= i && VerdictAt(c, start, events, i) == Backstop
  {
    if VerdictAt(c, start, events, |events| - 1) != Backstop {
      var rest := events[..|events| - 1];
      PrefixVerdict(c, start, events, k, |rest|);
      LastBackstopIsLast(c, start, rest, k);
      PrefixVerdict(c, start, events, LastBackstop(c, start, rest), |rest|);
    }
  }

  lemma {:induction false} LastClocks(c: Tuning, start: int, events: seq<Event>)
    ensures After(c, start, events).lastTickAt == LastTick(start, events)
    ensures After(c, start, events).lastFrameAt == LastFrame(start, events)
    ensures After(c, start, events).stopped == HasStopped(events)
  {
    if events != [] {
      var rest, e := events[..|events| - 1], events[|events| - 1];
      LastClocks(c, start, rest);
      assert events == rest + [e];
      assert forall x :: x in events <==> x in rest || x == e;
    }
  }

  lemma HandshakeStep(c: Tuning, events: seq<Event>, e: Event, i: nat)
    requires i < |events|
    ensures OnlyHandshake(c, events + [e], i) ==
      (OnlyHandshake(c, events, i) && (e.Alive? ==> e.at - events[i].at <= c.settle))
  {
    var all := events + [e];
    if OnlyHandshake(c, all, i) {
      forall j | i < j < |events| && events[j].Alive? ensures events[j].at - events[i].at <= c.settle {
        assert all[j] == events[j];
      }
      assert all[|events|] == e;
    }
  }

  /** The watchdog remembers the last backstop, and whether life of its own followed. */
  lemma {:induction false} RemembersLastBackstop(c: Tuning, start: int, events: seq<Event>)
    ensures var w, i := After(c, start, events), LastBackstop(c, start, events);
      && w.lastCycleAt == (if i < 0 then None else Some(events[i].at))
      && w.backstopSpent == (i >= 0 && OnlyHandshake(c, events, i))
  {
    if events != [] {
      var rest, e := events[..|events| - 1], events[|events| - 1];
      RemembersLastBackstop(c, start, rest);
      assert events == rest + [e];
      var i := LastBackstop(c, start, rest);
      if i >= 0 { HandshakeStep(c, rest, e, i); }
    }
  }

  /** Between two backstops lies a sign of life past the first one's settle window. */
  lemma {:induction false} LateLifeBetween(c: Tuning, start: int, events: seq<Event>, i: nat, k: nat) returns (j: nat)
    requires i < k < |events|
    requires VerdictAt(c, start, events, i) == Backstop && VerdictAt(c, start, events, k) == Backstop
    ensures i < j < k && events[j].Alive? && events[j].at - events[i].at > c.settle
    decreases k
  {
    var before := events[..k];
    PrefixVerdict(c, start, events, i, k);
    LastBackstopIsLast(c, start, before, i);
    RemembersLastBackstop(c, start, before);
    var m := LastBackstop(c, start, before);
    PrefixVerdict(c, start, events, m, k);
    if m == i {
      j :| i < j < k && before[j].Alive? && before[j].at - before[i].at > c.settle;
    } else {
      j := LateLifeBetween(c, start, events, i, m);
    }
  }

  /** The budget is spent exactly when some backstop has seen only its own handshake since. */
  lemma SpentExactlyWhen(c: Tuning, start: int, events: seq<Event>)
    ensures After(c, start, events).backstopSpent == Spent(c, start, events)
  {
    RemembersLastBackstop(c, start, events);
    var last := LastBackstop(c, start, events);
    if last >= 0 { LastIsBackstop(c, start, events); }
    if Spent(c, start, events) {
      var i :| 0 <= i < |events| && VerdictAt(c, start, events, i) == Backstop && OnlyHandshake(c, events, i);
      LastBackstopIsLast(c, start, events, i);
      if i < last {
        var j := LateLifeBetween(c, start, events, i, last);
      }
    }
  }

  lemma {:induction false} LastIsBackstop(c: Tuning, start: int, events: seq<Event>)
    ensures var i := LastBackstop(c, start, events); i >= 0 ==> VerdictAt(c, start, events, i) == Backstop
  {
    if events != [] {
      var rest := events[..|events| - 1];
      LastIsBackstop(c, start, rest);
      var i := LastBackstop(c, start, rest);
      if i >= 0 { PrefixVerdict(c, start, events, i, |rest|); }
    }
  }

  /** Each verdict, from nothing but the history of ticks, signs of life and earlier cycles. */
  lemma VerdictFromHistory(c: Tuning, start: int, events: seq<Event>, k: nat)
    requires k < |events|
    ensures var e, past := events[k], events[..k];
      var judged := e.Tick? && !HasStopped(past) && !e.hidden && e.open;
      var slept := judged && e.at - LastTick(start, past) >= c.sleepJump;
      && (VerdictAt(c, start, events, k) == Slept <==> slept)
      && (VerdictAt(c, start, events, k) == Backstop <==>
            judged && !slept && c.frameTimeout > 0 && e.at - LastFrame(start, past) >= c.frameTimeout &&
            !Spent(c, start, past))
  {
    LastClocks(c, start, events[..k]);
    SpentExactlyWhen(c, start, events[..k]);
  }

  // ---------------------------------------------------------------- how often it may cycle

  /** The clock never runs backwards. */
  predicate Monotone(start: int, events: seq<Event>) {
    && (forall i :: 0 <= i < |events| ==> start <= events[i].at)
    && (forall i, j :: 0 <= i < j < |events| ==> events[i].at <= events[j].at)
  }

  lemma {:induction false} LastFrameAfter(start: int, events: seq<Event>, j: nat)
    requires Monotone(start, events) && j < |events| && events[j].Alive?
    ensures LastFrame(start, events) >= events[j].at
  {
    if !events[|events| - 1].Alive? { LastFrameAfter(start, events[..|events| - 1], j); }
  }

  /** Two backstop cycles are more than a settle window and a frame timeout apart. */
  lemma BackstopsAreFarApart(c: Tuning, start: int, events: seq<Event>, i: nat, k: nat)
    requires Monotone(start, events) && i < k < |events|
    requires VerdictAt(c, start, events, i) == Backstop && VerdictAt(c, start, events, k) == Backstop
    ensures events[k].at - events[i].at > c.settle + c.frameTimeout
  {
    var j := LateLifeBetween(c, start, events, i, k);
    LastFrameAfter(start, events[..k], j);
    LastClocks(c, start, events[..k]);
  }

  function Count(c: Tuning, start: int, events: seq<Event>, v: Verdict): nat {
    if events == [] then 0
    else Count(c, start, events[..|events| - 1], v) +
         if VerdictAt(c, start, events, |events| - 1) == v then 1 else 0
  }

  /** The signs of life that come after the settle window of the latest backstop before them. */
  function LateFrames(c: Tuning, start: int, events: seq<Event>): nat {
    if events == [] then 0 else
    var rest, e := events[..|events| - 1], events[|events| - 1];
    var i := LastBackstop(c, start, rest);
    LateFrames(c, start, rest) + if e.Alive? && i >= 0 && e.at - rest[i].at > c.settle then 1 else 0
  }

  /** One cycle per episode of observed life: every backstop but the first is paid for by a late frame. */
  lemma {:induction false} BackstopsArePaidFor(c: Tuning, start: int, events: seq<Event>)
    ensures Count(c, start, events, Backstop) + (if After(c, start, events).backstopSpent then 0 else 1)
      <= 1 + LateFrames(c, start, events)
    ensures LastBackstop(c, start, events) < 0 ==> Count(c, start, events, Backstop) == 0
  {
    if events != [] {
      var rest, e := events[..|events| - 1], events[|events| - 1];
      BackstopsArePaidFor(c, start, rest);
      RemembersLastBackstop(c, start, rest);
    }
  }

  /** With no outside life at all the watchdog cycles the channel at most once. */
  lemma SilenceCyclesOnce(c: Tuning, start: int, events: seq<Event>)
    requires LateFrames(c, start, events) == 0
    ensures Count(c, start, events, Backstop) <= 1
  {
    BackstopsArePaidFor(c, start, events);
  }

  function LastTime(start: int, events: seq<Event>): int {
    if events == [] then start else events[|events| - 1].at
  }

  lemma {:induction false} LastTickBefore(start: int, events: seq<Event>)
    requires Monotone(start, events)
    ensures start <= LastTick(start, events) <= LastTime(start, events)
  {
    if events != [] { LastTickBefore(start, events[..|events| - 1]); }
  }

  lemma OneMore(n: nat, each: nat, used: int, more: int)
    requires n * each <= used && used + each <= more
    ensures (n + 1) * each <= more
  {
    assert (n + 1) * each == n * each + each;
  }

  lemma MonotonePrefix(start: int, events: seq<Event>)
    requires Monotone(start, events) && events != []
    ensures Monotone(start, events[..|events| - 1])
  {
  }

  /** Every sleep cycle accounts for its own jump of the clock. */
  lemma {:induction false} SleepsUpToLastTick(c: Tuning, start: int, events: seq<Event>)
    requires Monotone(start, events)
    ensures Count(c, start, events, Slept) * c.sleepJump <= LastTick(start, events) - start
  {
    if events != [] {
      var rest, e := events[..|events| - 1], events[|events| - 1];
      MonotonePrefix(start, events);
      SleepsUpToLastTick(c, start, rest);
      SleepStep(c, start, events, Count(c, start, rest, Slept));
    }
  }

  lemma SleepStep(c: Tuning, start: int, events: seq<Event>, n: nat)
    requires Monotone(start, events) && events != []
    requires n * c.sleepJump <= LastTick(start, events[..|events| - 1]) - start
    ensures (if VerdictAt(c, start, events, |events| - 1) == Slept then n + 1 else n) * c.sleepJump <=
      LastTick(start, events) - start
  {
    var rest := events[..|events| - 1];
    LastClocks(c, start, rest);
    LastTickGrows(start, events);
    if VerdictAt(c, start, events, |events| - 1) == Slept {
      OneMore(n, c.sleepJump, LastTick(start, rest) - start, LastTick(start, events) - start);
    }
  }

  lemma LastTickGrows(start: int, events: seq<Event>)
    requires Monotone(start, events) && events != []
    ensures LastTick(start, events[..|events| - 1]) <= LastTick(start, events)
  {
    var rest := events[..|events| - 1];
    LastTickBefore(start, rest);
  }

  lemma SleepsAreBounded(c: Tuning, start: int, events: seq<Event>)
    requires Monotone(start, events)
    ensures Count(c, start, events, Slept) * c.sleepJump <= LastTime(start, events) - start
  {
    SleepsUpToLastTick(c, start, events);
    LastTickBefore(start, events);
  }

  /** The least distance between two backstops. */
  function Gap(c: Tuning): nat {
    c.settle + c.frameTimeout + 1
  }

  /** `n` gaps, end to end. */
  function Gaps(c: Tuning, n: nat): (d: nat)
    ensures d == n * Gap(c)
  {
    if n == 0 then 0 else
    OneGapMore(c, n - 1);
    Gaps(c, n - 1) + Gap(c)
  }

  lemma OneGapMore(c: Tuning, n: nat)
    ensures (n + 1) * Gap(c) == n * Gap(c) + Gap(c)
  {
  }

  lemma BackstopStep(c: Tuning, start: int, events: seq<Event>, i: nat, d: int)
    requires Monotone(start, events) && i < |events| - 1
    requires VerdictAt(c, start, events[..|events| - 1], i) == Backstop
    requires VerdictAt(c, start, events, |events| - 1) == Backstop
    requires d <= events[i].at - start
    ensures d + Gap(c) <= events[|events| - 1].at - start
  {
    PrefixVerdict(c, start, events, i, |events| - 1);
    BackstopsAreFarApart(c, start, events, i, |events| - 1);
  }

  /** Backstops cannot outrun the clock either: `n + 1` of them take at least `n` gaps. */
  lemma {:induction false} BackstopsAreBounded(c: Tuning, start: int, events: seq<Event>, n: nat) returns (i: nat)
    requires Monotone(start, events) && Count(c, start, events, Backstop) == n + 1
    ensures i < |events| && VerdictAt(c, start, events, i) == Backstop
    ensures Gaps(c, n) <= events[i].at - start
    decreases |events|
  {
    var rest := events[..|events| - 1];
    MonotonePrefix(start, events);
    var last := VerdictAt(c, start, events, |rest|);
    assert Count(c, start, rest, Backstop) == if last == Backstop then n else n + 1;
    if last != Backstop {
      i := BackstopsAreBounded(c, start, rest, n);
      PrefixVerdict(c, start, events, i, |rest|);
    } else {
      i := |rest|;
      if n > 0 {
        var before := BackstopsAreBounded(c, start, rest, n - 1);
        BackstopStep(c, start, events, before, Gaps(c, n - 1));
      }
    }
  }

  // ---------------------------------------------------------------- the closure's own variables

  class Watchdog {
    const tuning: Tuning
    var lastTickAt: int
    var lastFrameAt: int
    var stopped: bool
    var backstopSpent: bool
    var lastCycleAt: Option<int>

    function View(): Watch
      reads this
    {
      Watch(lastTickAt, lastFrameAt, stopped, backstopSpent, lastCycleAt)
    }

    constructor (tuning: Tuning, now: int)
      ensures this.tuning == tuning && View() == Start(now)
    {
      this.tuning := tuning;
      lastTickAt, lastFrameAt := now, now;
      stopped, backstopSpent, lastCycleAt := false, false, None;
    }

    /** `judge`; a verdict other than Quiet is the call of `onDead`. */
    method Judge(at: int, hidden: bool, open: bool) returns (verdict: Verdict)
      modifies this
      ensures verdict == Verdicted(tuning, old(View()), Tick(at, hidden, open))
      ensures View() == Step(tuning, old(View()), Tick(at, hidden, open))
    {
      var elapsed := at - lastTickAt;
      lastTickAt := at;
      if stopped || hidden || !open { return Quiet; }
      if elapsed >= tuning.sleepJump { return Slept; }
      if tuning.frameTimeout > 0 && !backstopSpent && at - lastFrameAt >= tuning.frameTimeout {
        backstopSpent := true;
        lastCycleAt := Some(at);
        return Backstop;
      }
      return Quiet;
    }

    method MarkAlive(at: int)
      modifies this
      ensures View() == Step(tuning, old(View()), Alive(at))
    {
      lastFrameAt := at;
      if lastCycleAt.None? || at - lastCycleAt.value > tuning.settle { backstopSpent := false; }
    }

    method Halt(at: int)
      modifies this
      ensures View() == Step(tuning, old(View()), Stop(at))
    {
      stopped := true;
    }
  }
}
