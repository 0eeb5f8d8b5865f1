/**
  The state channel of stream.ts: a reconnecting EventSource, its open deadline and the watchdog.

  EventSource follows section 9.2 of the WHATWG HTML standard: an instance is connecting, open or
  closed; `open` is fired as it becomes open, messages only while it is open, and `error` as it falls
  back to connecting or fails for good.
 */
module StateStream {
  import opened Wrappers
  import L = StreamLiveness

  const OpenDeadline: nat := 20_000

  datatype Ready = Connecting | Open | Closed
  datatype Conn = Starting | Live | SignalLost
  datatype Frame = Snapshot(body: string) | Delta(name: string, body: string)

  datatype Deadline = Deadline(instance: nat, due: int)

  /**
    `source` numbers the current instance and `ready` is its state; `applied` is what reached the
    store, `subscribes` how many instances were made, `subscribedAt` when the current one was.
   */
  datatype Channel = Channel(
    source: nat,
    openNow: bool,
    stopped: bool,
    deadline: Option<Deadline>,
    conn: Conn,
    watch: L.Watch,
    ready: Ready,
    applied: seq<Frame>,
    subscribes: nat,
    subscribedAt: int)

  datatype Event =
    | Opened(instance: nat, at: int)
    | Framed(instance: nat, at: int, frame: Frame)
    | Errored(instance: nat, at: int, fatal: bool)
    | DeadlineFires(instance: nat, at: int)
    | Ticked(at: int, hidden: bool)
    | Disposed(at: int)

  function Resubscribe(s: Channel, at: int): Channel {
    if s.stopped then s
    else s.(source := s.source + 1, openNow := false, ready := Connecting,
            deadline := Some(Deadline(s.source + 1, at + OpenDeadline)),
            subscribes := s.subscribes + 1, subscribedAt := at)
  }

  function Init(at: int): Channel {
    Resubscribe(Channel(0, false, false, None, Starting, L.Start(at), Closed, [], 0, at), at)
  }

  predicate IsCurrent(s: Channel, e: Event) {
    e.Ticked? || e.Disposed? || e.instance == s.source
  }

  function MarkAlive(s: Channel, at: int): Channel {
    s.(watch := L.Step(L.DefaultTuning, s.watch, L.Alive(at)))
  }

  function Judged(s: Channel, e: Event): L.Event
    requires e.Ticked?
  {
    L.Tick(e.at, e.hidden, s.openNow)
  }

  function Step(s: Channel, e: Event): Channel {
    if s.stopped || !IsCurrent(s, e) then s else
    match e
    case Opened(_, at) =>
      MarkAlive(s, at).(openNow := true, ready := Open, deadline := None, conn := Live)
    case Framed(_, at, frame) =>
      MarkAlive(s, at).(applied := s.applied + [frame], conn := if frame.Snapshot? then Live else s.conn)
    case Errored(_, at, fatal) =>
      s.(openNow := false, ready := if fatal then Closed else Connecting, deadline := None, conn := SignalLost)
    case DeadlineFires(_, at) =>
      Resubscribe(s.(deadline := None, conn := SignalLost), at)
    case Ticked(at, hidden) =>
      var judged := s.(watch := L.Step(L.DefaultTuning, s.watch, Judged(s, e)));
      if L.Verdicted(L.DefaultTuning, s.watch, Judged(s, e)) == L.Quiet then judged else Resubscribe(judged, at)
    case Disposed(at) =>
      s.(stopped := true, deadline := None, ready := Closed, watch := L.Step(L.DefaultTuning, s.watch, L.Stop(at)))
  }

  /** What the browser may deliver. Events of superseded instances may come at any time. */
  predicate Possible(s: Channel, e: Event) {
    s.stopped || !IsCurrent(s, e) || match e
      case Opened(_, _) => s.ready == Connecting
      case Framed(_, _, _) => s.ready == Open
      case Errored(_, _, _) => s.ready != Closed
      case DeadlineFires(_, at) => s.deadline.Some? && at >= s.deadline.value.due
      case Ticked(_, _) => true
      case Disposed(_) => true
  }

  function After(start: int, events: seq<Event>): Channel {
    if events == [] then Init(start) else Step(After(start, events[..|events| - 1]), events[|events| - 1])
  }

  predicate Run(start: int, events: seq<Event>) {
    forall k :: 0 <= k < |events| ==> Possible(After(start, events[..k]), events[k])
  }

  lemma RunPrefix(start: int, events: seq<Event>)
    requires Run(start, events) && events != []
    ensures Run(start, events[..|events| - 1])
    ensures Possible(After(start, events[..|events| - 1]), events[|events| - 1])
  {
    var rest := events[..|events| - 1];
    forall k | 0 <= k < |rest| ensures Possible(After(start, rest[..k]), rest[k]) {
      assert rest[..k] == events[..k];
    }
  }

  // ---------------------------------------------------------------- the badge never lies for long

  predicate Inv(s: Channel) {
    && (s.stopped ==> s.deadline.None?)
    && (!s.stopped ==>
          && (s.openNow <==> s.ready == Open)
          && (s.deadline.Some? ==>
                s.deadline.value == Deadline(s.source, s.subscribedAt + OpenDeadline) && s.ready == Connecting)
          && (s.conn == Live ==> s.openNow || s.deadline.Some?)
          && (s.ready == Open ==> s.conn == Live))
    && s.watch.stopped == s.stopped
  }

  lemma StepKeepsInv(s: Channel, e: Event)
    requires Inv(s) && Possible(s, e)
    ensures Inv(Step(s, e))
  {
  }

  lemma {:induction false} RunKeepsInv(start: int, events: seq<Event>)
    requires Run(start, events)
    ensures Inv(After(start, events))
  {
    if events != [] {
      RunPrefix(start, events);
      RunKeepsInv(start, events[..|events| - 1]);
      StepKeepsInv(After(start, events[..|events| - 1]), events[|events| - 1]);
    }
  }

  predicate OnNotice(s: Channel) {
    s.ready == Connecting && s.deadline == Some(Deadline(s.source, s.subscribedAt + OpenDeadline))
  }

  lemma LiveUnderInv(s: Channel)
    requires Inv(s) && !s.stopped && s.conn == Live
    ensures (s.openNow && s.ready == Open) || OnNotice(s)
  {
  }

  /** What becomes of the current source at each event it hears; any other event leaves it. */
  lemma SourceAfter(s: Channel, e: Event)
    requires !s.stopped
    ensures var t := Step(s, e);
      && (e.Opened? && e.instance == s.source ==> t.source == s.source && t.ready == Open && t.deadline.None?)
      && (e.Errored? && e.instance == s.source ==>
            t.source == s.source && t.ready == (if e.fatal then Closed else Connecting) && t.deadline.None?)
      && (e.DeadlineFires? && e.instance == s.source ==> t.source == s.source + 1 && OnNotice(t) && t.subscribedAt == e.at)
      && (e.Ticked? ==> (t.source == s.source && t.ready == s.ready) ||
                        (t.source == s.source + 1 && OnNotice(t) && t.subscribedAt == e.at))
      && (e.Disposed? ==> t.stopped && t.deadline.None? && t.ready == Closed)
  {
  }

  /** While the channel runs, a connected source is shown as live. */
  lemma OpenIsLive(start: int, events: seq<Event>)
    requires Run(start, events)
    ensures var s := After(start, events); !s.stopped && s.ready == Open ==> s.conn == Live
  {
    RunKeepsInv(start, events);
  }

  /** While the channel runs, "live" means connected, or about to be found out. */
  lemma LiveIsConnectedOrOnNotice(start: int, events: seq<Event>)
    requires Run(start, events)
    ensures var s := After(start, events);
      !s.stopped && s.conn == Live ==>
        (s.openNow && s.ready == Open) || OnNotice(s)
  {
    RunKeepsInv(start, events);
    var s := After(start, events);
    if !s.stopped && s.conn == Live { LiveUnderInv(s); }
  }

  /** Timers fire no later than they are due: no event comes after an armed deadline that is not it. */
  predicate Punctual(start: int, events: seq<Event>) {
    forall k :: 0 <= k < |events| ==>
      var s := After(start, events[..k]); s.deadline.Some? ==> events[k].at <= s.deadline.value.due
  }

  function Now(start: int, events: seq<Event>): int {
    if events == [] then start else events[|events| - 1].at
  }

  lemma PunctualPrefix(start: int, events: seq<Event>)
    requires Punctual(start, events) && events != []
    ensures var s := After(start, events[..|events| - 1]);
      s.deadline.Some? ==> events[|events| - 1].at <= s.deadline.value.due
  {
  }

  /** With punctual timers an unconnected channel claims to be live for at most twenty seconds. */
  lemma FalseLiveIsBrief(start: int, events: seq<Event>)
    requires Run(start, events) && Punctual(start, events)
    ensures var s := After(start, events);
      !s.stopped && s.conn == Live && s.ready != Open ==> Now(start, events) <= s.subscribedAt + OpenDeadline
  {
    RunKeepsInv(start, events);
    if events != [] {
      RunPrefix(start, events);
      RunKeepsInv(start, events[..|events| - 1]);
      PunctualPrefix(start, events);
    }
  }

  // ---------------------------------------------------------------- superseded instances

  /** The run without the events of superseded instances and without what follows disposal. */
  function Heard(start: int, events: seq<Event>): seq<Event> {
    if events == [] then [] else
    var rest, e := events[..|events| - 1], events[|events| - 1];
    var s := After(start, rest);
    Heard(start, rest) + if s.stopped || !IsCurrent(s, e) then [] else [e]
  }

  /** What a superseded instance does, and all that happens after disposal, might as well not. */
  lemma {:induction false} SupersededIsInert(start: int, events: seq<Event>)
    ensures After(start, Heard(start, events)) == After(start, events)
  {
    if events != [] {
      var rest, e := events[..|events| - 1], events[|events| - 1];
      var s := After(start, rest);
      SupersededIsInert(start, rest);
      if !s.stopped && IsCurrent(s, e) {
        var heard := Heard(start, events);
        assert heard[..|heard| - 1] == Heard(start, rest) && heard[|heard| - 1] == e;
      } else {
        assert Heard(start, events) == Heard(start, rest);
      }
    }
  }

  /** What the badge shows after the events heard: their last word on the connection. */
  function Badge(heard: seq<Event>): Conn {
    if heard == [] then Starting else
    var e := heard[|heard| - 1];
    if e.Opened? || (e.Framed? && e.frame.Snapshot?) then Live
    else if e.Errored? || e.DeadlineFires? then SignalLost
    else Badge(heard[..|heard| - 1])
  }

  /** Live after an open or a snapshot, lost after an error or an expired deadline, starting before any. */
  lemma {:induction false} BadgeIsTheLastWord(start: int, events: seq<Event>)
    ensures After(start, events).conn == Badge(Heard(start, events))
  {
    if events != [] {
      var rest, e := events[..|events| - 1], events[|events| - 1];
      BadgeIsTheLastWord(start, rest);
      var heard, s := Heard(start, events), After(start, rest);
      if !s.stopped && IsCurrent(s, e) {
        assert heard[..|heard| - 1] == Heard(start, rest) && heard[|heard| - 1] == e;
      } else {
        assert heard == Heard(start, rest);
      }
    }
  }

  function FramesOf(events: seq<Event>): seq<Frame> {
    if events == [] then []
    else FramesOf(events[..|events| - 1]) + if events[|events| - 1].Framed? then [events[|events| - 1].frame] else []
  }

  /** The store received exactly the frames of the instances current at the time, in order. */
  lemma {:induction false} StoreSeesCurrentFrames(start: int, events: seq<Event>)
    ensures After(start, events).applied == FramesOf(Heard(start, events))
  {
    if events != [] {
      var rest, e := events[..|events| - 1], events[|events| - 1];
      StoreSeesCurrentFrames(start, rest);
      var heard := Heard(start, events);
      var s := After(start, rest);
      if !s.stopped && IsCurrent(s, e) {
        assert heard[..|heard| - 1] == Heard(start, rest) && heard[|heard| - 1] == e;
      } else {
        assert heard == Heard(start, rest);
      }
    }
  }

  // ---------------------------------------------------------------- how often it subscribes

  /** What one event is to the watchdog. */
  function Shown(s: Channel, e: Event): seq<L.Event> {
    if s.stopped || !IsCurrent(s, e) then []
    else match e
      case Opened(_, at) => [L.Alive(at)]
      case Framed(_, at, _) => [L.Alive(at)]
      case Errored(_, _, _) => []
      case DeadlineFires(_, _) => []
      case Ticked(_, _) => [Judged(s, e)]
      case Disposed(at) => [L.Stop(at)]
  }

  function WatchRun(start: int, events: seq<Event>): seq<L.Event> {
    if events == [] then []
    else WatchRun(start, events[..|events| - 1]) +
         Shown(After(start, events[..|events| - 1]), events[|events| - 1])
  }

  predicate Expires(s: Channel, e: Event) {
    e.DeadlineFires? && !s.stopped && IsCurrent(s, e)
  }

  function Expiries(start: int, events: seq<Event>): nat {
    if events == [] then 0
    else Expiries(start, events[..|events| - 1]) +
         if Expires(After(start, events[..|events| - 1]), events[|events| - 1]) then 1 else 0
  }

  function Cycles(run: seq<L.Event>, start: int, v: L.Verdict): nat {
    L.Count(L.DefaultTuning, start, run, v)
  }

  lemma WatchStep(start: int, run: seq<L.Event>, shown: seq<L.Event>, v: L.Verdict)
    requires |shown| <= 1
    ensures shown == [] ==> Cycles(run + shown, start, v) == Cycles(run, start, v)
    ensures shown != [] ==>
      && L.After(L.DefaultTuning, start, run + shown) ==
           L.Step(L.DefaultTuning, L.After(L.DefaultTuning, start, run), shown[0])
      && Cycles(run + shown, start, v) == Cycles(run, start, v) +
           if L.Verdicted(L.DefaultTuning, L.After(L.DefaultTuning, start, run), shown[0]) == v then 1 else 0
  {
    var all := run + shown;
    if shown == [] {
      assert all == run;
    } else {
      assert all[..|all| - 1] == run && all[|all| - 1] == shown[0];
    }
  }

  lemma StepForWatchdog(s: Channel, e: Event)
    ensures var shown := Shown(s, e);
      && Step(s, e).watch == (if shown == [] then s.watch else L.Step(L.DefaultTuning, s.watch, shown[0]))
      && Step(s, e).subscribes == s.subscribes + (if Expires(s, e) then 1 else 0) +
           (if shown != [] && L.Verdicted(L.DefaultTuning, s.watch, shown[0]) != L.Quiet then 1 else 0)
      && (Expires(s, e) ==> shown == [])
  {
  }

  /** The watchdog inside the channel is the watchdog run on what the channel shows it. */
  lemma {:induction false} WatchdogOfRun(start: int, events: seq<Event>)
    ensures After(start, events).watch == L.After(L.DefaultTuning, start, WatchRun(start, events))
  {
    if events != [] {
      var rest, e := events[..|events| - 1], events[|events| - 1];
      WatchdogOfRun(start, rest);
      StepForWatchdog(After(start, rest), e);
      var shown := Shown(After(start, rest), e);
      WatchStep(start, WatchRun(start, rest), shown, L.Quiet);
      if shown == [] { assert WatchRun(start, events) == WatchRun(start, rest); }
    }
  }

  /** Every subscribe is the first one, a sleep cycle, a backstop or an expired deadline. */
  lemma {:induction false} SubscribesAreAccountedFor(start: int, events: seq<Event>)
    ensures After(start, events).subscribes == 1 + Expiries(start, events) +
      Cycles(WatchRun(start, events), start, L.Slept) + Cycles(WatchRun(start, events), start, L.Backstop)
  {
    if events != [] {
      var rest, e := events[..|events| - 1], events[|events| - 1];
      SubscribesAreAccountedFor(start, rest);
      WatchdogOfRun(start, rest);
      AccountStep(start, After(start, rest), e, WatchRun(start, rest));
    }
  }

  lemma AccountStep(start: int, s: Channel, e: Event, run: seq<L.Event>)
    requires s.watch == L.After(L.DefaultTuning, start, run)
    ensures Step(s, e).subscribes - s.subscribes == (if Expires(s, e) then 1 else 0) +
      (Cycles(run + Shown(s, e), start, L.Slept) - Cycles(run, start, L.Slept)) +
      (Cycles(run + Shown(s, e), start, L.Backstop) - Cycles(run, start, L.Backstop))
  {
    StepForWatchdog(s, e);
    WatchStep(start, run, Shown(s, e), L.Slept);
    WatchStep(start, run, Shown(s, e), L.Backstop);
  }

  predicate Monotone(start: int, events: seq<Event>) {
    && (forall i :: 0 <= i < |events| ==> start <= events[i].at)
    && (forall i, j :: 0 <= i < j < |events| ==> events[i].at <= events[j].at)
  }

  lemma {:induction false} WatchRunTimes(start: int, events: seq<Event>)
    requires Monotone(start, events)
    ensures L.Monotone(start, WatchRun(start, events))
    ensures forall i :: 0 <= i < |WatchRun(start, events)| ==> WatchRun(start, events)[i].at <= Now(start, events)
  {
    if events != [] {
      WatchRunTimes(start, events[..|events| - 1]);
    }
  }

  /** Deadlines expire at least twenty seconds apart. */
  lemma {:induction false} ExpiriesAreBounded(start: int, events: seq<Event>)
    requires Run(start, events) && Monotone(start, events)
    ensures Expiries(start, events) * OpenDeadline <= After(start, events).subscribedAt - start
    ensures After(start, events).subscribedAt <= Now(start, events)
  {
    if events != [] {
      var rest := events[..|events| - 1];
      RunPrefix(start, events);
      ExpiriesAreBounded(start, rest);
      RunKeepsInv(start, rest);
    }
  }

  /** The number of subscribes in a stretch of time is bounded, whatever the server does. */
  lemma SubscribesAreBounded(start: int, events: seq<Event>, sleeps: nat, backstops: nat, expiries: nat)
    requires Run(start, events) && Monotone(start, events)
    requires After(start, events).subscribes == 1 + sleeps + backstops + expiries
    requires sleeps == Cycles(WatchRun(start, events), start, L.Slept)
    requires backstops == Cycles(WatchRun(start, events), start, L.Backstop)
    ensures sleeps * L.DefaultTuning.sleepJump <= Now(start, events) - start
    ensures backstops > 0 ==> L.Gaps(L.DefaultTuning, backstops - 1) <= Now(start, events) - start
    ensures expiries * OpenDeadline <= Now(start, events) - start
  {
    var run := WatchRun(start, events);
    SubscribesAreAccountedFor(start, events);
    ExpiriesAreBounded(start, events);
    WatchRunTimes(start, events);
    L.SleepsAreBounded(L.DefaultTuning, start, run);
    if events == [] {
      assert run == [];
    }
    if backstops > 0 {
      var i := L.BackstopsAreBounded(L.DefaultTuning, start, run, backstops - 1);
    }
  }

  // ---------------------------------------------------------------- the closure's own variables

  /** `connectState`. The last four fields stand for the browser and the store. */
  class StateChannel {
    const watchdog: L.Watchdog
    var source: nat
    var openNow: bool
    var stopped: bool
    var openDeadline: Option<Deadline>
    var conn: Conn
    var ready: Ready
    var applied: seq<Frame>
    var subscribes: nat
    var subscribedAt: int

    function View(): Channel
      reads this, watchdog
    {
      Channel(source, openNow, stopped, openDeadline, conn, watchdog.View(), ready, applied, subscribes, subscribedAt)
    }

    predicate Valid()
      reads this, watchdog
    {
      watchdog.tuning == L.DefaultTuning && Inv(View())
    }

    constructor (at: int)
      ensures Valid() && fresh(watchdog)
      ensures View() == Init(at)
    {
      watchdog := new L.Watchdog(L.DefaultTuning, at);
      source, openNow, stopped, openDeadline := 1, false, false, Some(Deadline(1, at + OpenDeadline));
      conn, ready, applied, subscribes, subscribedAt := Starting, Connecting, [], 1, at;
    }

    /** `open`: close the current instance and subscribe afresh. */
    method Subscribe(at: int)
      modifies this
      ensures View() == Resubscribe(old(View()), at)
    {
      if stopped { return; }
      source, openNow, ready := source + 1, false, Connecting;
      openDeadline := Some(Deadline(source, at + OpenDeadline));
      subscribes, subscribedAt := subscribes + 1, at;
    }

    method OnOpen(instance: nat, at: int)
      requires Valid() && Possible(View(), Opened(instance, at))
      modifies this, watchdog
      ensures Valid() && View() == Step(old(View()), Opened(instance, at))
    {
      StepKeepsInv(View(), Opened(instance, at));
      if stopped || source != instance { return; }
      openNow, ready := true, Open;
      openDeadline := None;
      watchdog.MarkAlive(at);
      conn := Live;
    }

    method OnFrame(instance: nat, at: int, frame: Frame)
      requires Valid() && Possible(View(), Framed(instance, at, frame))
      modifies this, watchdog
      ensures Valid() && View() == Step(old(View()), Framed(instance, at, frame))
    {
      StepKeepsInv(View(), Framed(instance, at, frame));
      if stopped || source != instance { return; }
      watchdog.MarkAlive(at);
      applied := applied + [frame];
      if frame.Snapshot? { conn := Live; }
    }

    method OnError(instance: nat, at: int, fatal: bool)
      requires Valid() && Possible(View(), Errored(instance, at, fatal))
      modifies this
      ensures Valid() && View() == Step(old(View()), Errored(instance, at, fatal))
    {
      StepKeepsInv(View(), Errored(instance, at, fatal));
      if stopped || source != instance { return; }
      openNow, ready := false, if fatal then Closed else Connecting;
      openDeadline := None;
      conn := SignalLost;
    }

    method OnDeadline(instance: nat, at: int)
      requires Valid() && Possible(View(), DeadlineFires(instance, at))
      modifies this
      ensures Valid() && View() == Step(old(View()), DeadlineFires(instance, at))
    {
      StepKeepsInv(View(), DeadlineFires(instance, at));
      if stopped || source != instance { return; }
      openDeadline := None;
      conn := SignalLost;
      Subscribe(at);
    }

    method OnTick(at: int, hidden: bool)
      requires Valid()
      modifies this, watchdog
      ensures Valid() && View() == Step(old(View()), Ticked(at, hidden))
    {
      StepKeepsInv(View(), Ticked(at, hidden));
      if stopped { return; }
      var verdict := watchdog.Judge(at, hidden, openNow);
      if verdict != L.Quiet { Subscribe(at); }
    }

    method Dispose(at: int)
      requires Valid()
      modifies this, watchdog
      ensures Valid() && View() == Step(old(View()), Disposed(at))
    {
      StepKeepsInv(View(), Disposed(at));
      if stopped { return; }
      stopped := true;
      watchdog.Halt(at);
      openDeadline := None;
      ready := Closed;
    }
  }
}
