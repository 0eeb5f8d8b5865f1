/**
  The terminal bridge of terminal.ts: one WebSocket at a time, replaced across serving restarts, with
  input and size kept while none is open. As the WebSocket standard has it, a socket turns open in the
  task that fires `open`.
 */
module Terminal {
  import opened Wrappers

  datatype Ready = Connecting | Open | Closed

  datatype Size = Size(cols: nat, rows: nat)

  datatype Frame = Stdin(data: string) | Resize(size: Size)

  /** A frame handed to a socket. */
  datatype Sent = Sent(socket: nat, frame: Frame)

  datatype Report = Connected | Reconnecting | Dropped

  /**
    `socket` numbers the current socket, `ready` is its state and `dropped` its own flag. `wire`,
    `output`, `exits` and `reports` are what left the bridge; `consumed` the boot identities taken.
   */
  datatype Bridge = Bridge(
    socket: nat,
    ready: Ready,
    dropped: bool,
    disposed: bool,
    exited: bool,
    lastIdentity: Option<string>,
    pendingResize: Option<Size>,
    pendingInput: seq<string>,
    wire: seq<Sent>,
    output: seq<string>,
    exits: nat,
    reports: seq<Report>,
    consumed: seq<string>)

  datatype Event =
    | Opens(socket: nat)
    | Message(socket: nat, bytes: string)
    | Exit(socket: nat)
    | GoesDown(socket: nat)
    | Closes(socket: nat)
    | SendInput(data: string)
    | SendResize(size: Size)
    | Reattach(identity: string, supersedeOpen: bool)
    | Dispose

  function Init(): Bridge {
    Bridge(1, Connecting, false, false, false, None, None, [], [], [], 0, [], [])
  }

  function FrameOut(s: Bridge, f: Frame): Bridge {
    if s.ready == Open then s.(wire := s.wire + [Sent(s.socket, f)]) else s
  }

  function StdinOn(socket: nat, inputs: seq<string>): seq<Sent> {
    if inputs == [] then [] else StdinOn(socket, inputs[..|inputs| - 1]) + [Sent(socket, Stdin(inputs[|inputs| - 1]))]
  }

  function ResizeOn(socket: nat, size: Option<Size>): seq<Sent> {
    if size.None? then [] else [Sent(socket, Resize(size.value))]
  }

  function ReportDropped(s: Bridge): Bridge {
    if s.disposed || s.dropped then s else s.(dropped := true, reports := s.reports + [Dropped])
  }

  function Replace(s: Bridge): Bridge {
    s.(socket := s.socket + 1, ready := Connecting, dropped := false)
  }

  function Reattached(s: Bridge, identity: string, supersedeOpen: bool): Bridge {
    if s.disposed || s.exited || s.lastIdentity == Some(identity) then s else
    var taken := s.(lastIdentity := Some(identity), consumed := s.consumed + [identity]);
    if s.ready == Open && !supersedeOpen then taken
    else Replace(taken.(reports := s.reports + [Reconnecting]))
  }

  predicate IsSocketEvent(e: Event) {
    e.Opens? || e.Message? || e.Exit? || e.GoesDown? || e.Closes?
  }

  function Step(s: Bridge, e: Event): Bridge {
    if IsSocketEvent(e) && e.socket != s.socket then s else
    match e
    case Opens(_) =>
      if s.disposed then s.(ready := Open)
      else s.(ready := Open, reports := s.reports + [Connected],
              wire := s.wire + ResizeOn(s.socket, s.pendingResize) + StdinOn(s.socket, s.pendingInput),
              pendingInput := [])
    case Message(_, bytes) => s.(output := s.output + [bytes])
    case Exit(_) => ReportDropped(s.(exited := true)).(exits := s.exits + 1)
    case GoesDown(_) => s.(ready := Closed)
    case Closes(_) => ReportDropped(s)
    case SendInput(data) =>
      if s.ready == Open then FrameOut(s, Stdin(data)) else s.(pendingInput := s.pendingInput + [data])
    case SendResize(size) => FrameOut(s.(pendingResize := Some(size)), Resize(size))
    case Reattach(identity, supersedeOpen) => Reattached(s, identity, supersedeOpen)
    case Dispose => s.(disposed := true, ready := Closed)
  }

  function After(events: seq<Event>): Bridge {
    if events == [] then Init() else Step(After(events[..|events| - 1]), events[|events| - 1])
  }

  // ---------------------------------------------------------------- no input lost or doubled

  function StdinOf(wire: seq<Sent>): seq<string> {
    if wire == [] then []
    else StdinOf(wire[..|wire| - 1]) + if wire[|wire| - 1].frame.Stdin? then [wire[|wire| - 1].frame.data] else []
  }

  function InputsOf(events: seq<Event>): seq<string> {
    if events == [] then []
    else InputsOf(events[..|events| - 1]) + if events[|events| - 1].SendInput? then [events[|events| - 1].data] else []
  }

  function LatestSize(events: seq<Event>): Option<Size> {
    if events == [] then None
    else if events[|events| - 1].SendResize? then Some(events[|events| - 1].size)
    else LatestSize(events[..|events| - 1])
  }

  lemma {:induction false} StdinAppend(a: seq<Sent>, b: seq<Sent>)
    ensures StdinOf(a + b) == StdinOf(a) + StdinOf(b)
  {
    if b == [] {
      assert a + b == a;
    } else {
      var rest := b[..|b| - 1];
      StdinAppend(a, rest);
      assert (a + b)[..|a + b| - 1] == a + rest && (a + b)[|a + b| - 1] == b[|b| - 1];
    }
  }

  lemma {:induction false} StdinOnIs(socket: nat, inputs: seq<string>)
    ensures StdinOf(StdinOn(socket, inputs)) == inputs
  {
    if inputs != [] { StdinOnIs(socket, inputs[..|inputs| - 1]); }
  }

  lemma StdinOfResize(socket: nat, size: Option<Size>)
    ensures StdinOf(ResizeOn(socket, size)) == []
  {
    if size.Some? { assert ResizeOn(socket, size)[..0] == []; }
  }

  lemma StdinOfReplay(wire: seq<Sent>, socket: nat, size: Option<Size>, inputs: seq<string>)
    ensures StdinOf(wire + ResizeOn(socket, size) + StdinOn(socket, inputs)) == StdinOf(wire) + inputs
  {
    StdinOnIs(socket, inputs);
    StdinOfResize(socket, size);
    StdinJoin(wire, ResizeOn(socket, size), StdinOn(socket, inputs), inputs);
  }

  lemma StdinJoin(a: seq<Sent>, b: seq<Sent>, c: seq<Sent>, typed: seq<string>)
    requires StdinOf(b) == [] && StdinOf(c) == typed
    ensures StdinOf(a + b + c) == StdinOf(a) + typed
  {
    StdinAppend(a, b);
    StdinAppend(a + b, c);
    assert StdinOf(a) + [] == StdinOf(a);
  }

  lemma StdinPush(wire: seq<Sent>, sent: Sent)
    ensures StdinOf(wire + [sent]) == StdinOf(wire) + if sent.frame.Stdin? then [sent.frame.data] else []
  {
    assert (wire + [sent])[..|wire|] == wire;
  }

  /** Everything typed so far, as far as the bridge knows: sent, then held. */
  function Typed(s: Bridge): seq<string> {
    StdinOf(s.wire) + s.pendingInput
  }

  /** What the browser may do: a current socket opens while it connects and while the pane lives. */
  predicate Possible(s: Bridge, e: Event) {
    e.Opens? && e.socket == s.socket ==> s.ready == Connecting && !s.disposed
  }

  predicate Run(events: seq<Event>) {
    forall k :: 0 <= k < |events| ==> Possible(After(events[..k]), events[k])
  }

  lemma RunPrefix(events: seq<Event>)
    requires Run(events) && events != []
    ensures Run(events[..|events| - 1]) && Possible(After(events[..|events| - 1]), events[|events| - 1])
  {
    var rest := events[..|events| - 1];
    forall k | 0 <= k < |rest| ensures Possible(After(rest[..k]), rest[k]) { assert rest[..k] == events[..k]; }
  }

  /** While a socket is open nothing is held back. */
  predicate Inv(s: Bridge) {
    s.ready == Open ==> s.pendingInput == []
  }

  lemma OpenKeepsTyped(s: Bridge)
    requires Inv(s) && !s.disposed
    ensures Typed(Step(s, Opens(s.socket))) == Typed(s)
  {
    StdinOfReplay(s.wire, s.socket, s.pendingResize, s.pendingInput);
    assert StdinOf(s.wire) + s.pendingInput + [] == Typed(s);
  }

  lemma InputExtendsTyped(s: Bridge, data: string)
    requires Inv(s)
    ensures Typed(Step(s, SendInput(data))) == Typed(s) + [data]
  {
    if s.ready == Open {
      StdinPush(s.wire, Sent(s.socket, Stdin(data)));
      assert StdinOf(s.wire) + [data] + [] == StdinOf(s.wire) + [] + [data];
    } else {
      assert StdinOf(s.wire) + (s.pendingInput + [data]) == Typed(s) + [data];
    }
  }

  lemma OtherStepsKeepTyped(s: Bridge, e: Event)
    requires !e.SendInput? && (e.Opens? ==> e.socket != s.socket)
    ensures Typed(Step(s, e)) == Typed(s)
  {
    if e.SendResize? {
      ResizeKeepsTyped(s, e.size);
    } else {
      OtherStepsSendNothing(s, e);
    }
  }

  lemma ResizeKeepsTyped(s: Bridge, size: Size)
    ensures Typed(Step(s, SendResize(size))) == Typed(s)
  {
    StdinPush(s.wire, Sent(s.socket, Resize(size)));
    assert StdinOf(s.wire) + [] == StdinOf(s.wire);
  }

  lemma OtherStepsSendNothing(s: Bridge, e: Event)
    requires !e.SendInput? && !e.SendResize? && (e.Opens? ==> e.socket != s.socket)
    ensures Step(s, e).wire == s.wire && Step(s, e).pendingInput == s.pendingInput
    ensures Step(s, e).socket >= s.socket
  {
  }

  lemma StepKeepsInv(s: Bridge, e: Event)
    requires Inv(s) && Possible(s, e)
    ensures Inv(Step(s, e))
  {
  }

  lemma {:induction false} RunKeepsInv(events: seq<Event>)
    requires Run(events)
    ensures Inv(After(events))
  {
    if events != [] {
      RunPrefix(events);
      RunKeepsInv(events[..|events| - 1]);
      StepKeepsInv(After(events[..|events| - 1]), events[|events| - 1]);
    }
  }

  lemma StepTyped(s: Bridge, e: Event)
    requires Inv(s) && Possible(s, e)
    ensures Typed(Step(s, e)) == Typed(s) + if e.SendInput? then [e.data] else []
  {
    if e.SendInput? {
      InputExtendsTyped(s, e.data);
    } else if e.Opens? && e.socket == s.socket {
      OpenKeepsTyped(s);
    } else {
      OtherStepsKeepTyped(s, e);
    }
  }

  /**
    Over any run of opens, drops, reattaches and typing: what was sent, then what is held, is exactly
    what was typed, in order.
   */
  lemma {:induction false} InputIsConserved(events: seq<Event>)
    requires Run(events)
    ensures StdinOf(After(events).wire) + After(events).pendingInput == InputsOf(events)
  {
    if events != [] {
      var rest, e := events[..|events| - 1], events[|events| - 1];
      RunPrefix(events);
      RunKeepsInv(rest);
      InputIsConserved(rest);
      StepTyped(After(rest), e);
    }
  }

  lemma {:induction false} ResizeIsLatest(events: seq<Event>)
    ensures After(events).pendingResize == LatestSize(events)
  {
    if events != [] {
      ResizeIsLatest(events[..|events| - 1]);
      ResizeStep(After(events[..|events| - 1]), events[|events| - 1]);
    }
  }

  lemma ResizeStep(s: Bridge, e: Event)
    ensures Step(s, e).pendingResize == if e.SendResize? then Some(e.size) else s.pendingResize
  {
  }

  predicate OpensCurrent(events: seq<Event>) {
    && events != [] && events[|events| - 1].Opens?
    && events[|events| - 1].socket == After(events[..|events| - 1]).socket
  }

  lemma OpenStep(s: Bridge)
    requires !s.disposed
    ensures var t := Step(s, Opens(s.socket));
      && t.wire == s.wire + ResizeOn(s.socket, s.pendingResize) + StdinOn(s.socket, s.pendingInput)
      && t.pendingInput == []
  {
  }

  /** An open sends the latest size, then all typing held back, on the socket that opened. */
  lemma OpenReplaysSizeThenInput(events: seq<Event>)
    requires Run(events) && OpensCurrent(events)
    ensures var s, t, size := After(events[..|events| - 1]), After(events), LatestSize(events);
      && t.wire == s.wire + (if size.Some? then [Sent(s.socket, Resize(size.value))] else []) +
                   StdinOn(s.socket, s.pendingInput)
      && t.pendingInput == []
  {
    RunPrefix(events);
    ResizeIsLatest(events[..|events| - 1]);
    OpenStep(After(events[..|events| - 1]));
  }

  /** After an open, all that was ever typed has been sent. */
  lemma OpenLeavesNothingHeld(events: seq<Event>)
    requires Run(events) && OpensCurrent(events)
    ensures StdinOf(After(events).wire) == InputsOf(events)
  {
    OpenReplaysSizeThenInput(events);
    InputIsConserved(events);
    assert StdinOf(After(events).wire) + [] == StdinOf(After(events).wire);
  }

  // ---------------------------------------------------------------- superseded sockets

  function Heard(events: seq<Event>): seq<Event> {
    if events == [] then [] else
    var rest, e := events[..|events| - 1], events[|events| - 1];
    Heard(rest) + if IsSocketEvent(e) && e.socket != After(rest).socket then [] else [e]
  }

  /** Whatever a superseded socket still does, the bridge is as if it had not. */
  lemma {:induction false} SupersededIsInert(events: seq<Event>)
    ensures After(Heard(events)) == After(events)
  {
    if events != [] {
      var rest, e := events[..|events| - 1], events[|events| - 1];
      SupersededIsInert(rest);
      var heard := Heard(events);
      if IsSocketEvent(e) && e.socket != After(rest).socket {
        assert heard == Heard(rest);
      } else {
        assert heard[..|heard| - 1] == Heard(rest) && heard[|heard| - 1] == e;
      }
    }
  }

  /** Every frame went out on the socket current at the time, so sockets never interleave. */
  predicate SocketsInOrder(s: Bridge) {
    && (forall i :: 0 <= i < |s.wire| ==> s.wire[i].socket <= s.socket)
    && (forall i, j :: 0 <= i < j < |s.wire| ==> s.wire[i].socket <= s.wire[j].socket)
  }

  lemma {:induction false} StdinOnSocket(socket: nat, inputs: seq<string>)
    ensures forall i :: 0 <= i < |StdinOn(socket, inputs)| ==> StdinOn(socket, inputs)[i].socket == socket
  {
    if inputs != [] { StdinOnSocket(socket, inputs[..|inputs| - 1]); }
  }

  lemma AppendInOrder(s: Bridge, more: seq<Sent>)
    requires SocketsInOrder(s) && forall i :: 0 <= i < |more| ==> more[i].socket == s.socket
    ensures SocketsInOrder(s.(wire := s.wire + more))
  {
  }

  lemma {:induction false} WireIsInSocketOrder(events: seq<Event>)
    ensures SocketsInOrder(After(events))
  {
    if events != [] {
      var rest, e := events[..|events| - 1], events[|events| - 1];
      WireIsInSocketOrder(rest);
      WireStep(After(rest), e);
    }
  }

  lemma WireStep(s: Bridge, e: Event)
    requires SocketsInOrder(s)
    ensures SocketsInOrder(Step(s, e))
  {
    if e.Opens? && e.socket == s.socket && !s.disposed {
      StdinOnSocket(s.socket, s.pendingInput);
      AppendInOrder(s, ResizeOn(s.socket, s.pendingResize) + StdinOn(s.socket, s.pendingInput));
      assert s.wire + (ResizeOn(s.socket, s.pendingResize) + StdinOn(s.socket, s.pendingInput)) ==
        s.wire + ResizeOn(s.socket, s.pendingResize) + StdinOn(s.socket, s.pendingInput);
    } else if e.SendInput? {
      AppendInOrder(s, [Sent(s.socket, Stdin(e.data))]);
    } else if e.SendResize? {
      AppendInOrder(s, [Sent(s.socket, Resize(e.size))]);
    } else if !e.Opens? {
      OtherStepsSendNothing(s, e);
    }
  }

  // ---------------------------------------------------------------- boot identities

  /** The identities the reattach guard was asked about: until the pane is disposed or the session exits. */
  function Asked(events: seq<Event>): seq<string> {
    if events == [] then [] else
    var rest, e := events[..|events| - 1], events[|events| - 1];
    var s := After(rest);
    Asked(rest) + if e.Reattach? && !s.disposed && !s.exited then [e.identity] else []
  }

  /** A list with every run of equal neighbours cut down to one. */
  function Collapsed(list: seq<string>): (r: seq<string>)
    ensures list != [] ==> r != [] && r[|r| - 1] == list[|list| - 1]
    ensures list == [] ==> r == []
  {
    if list == [] then [] else
    var rest, last := list[..|list| - 1], list[|list| - 1];
    if rest != [] && rest[|rest| - 1] == last then Collapsed(rest) else Collapsed(rest) + [last]
  }

  predicate RemembersLast(s: Bridge, asked: seq<string>) {
    && s.consumed == Collapsed(asked)
    && s.lastIdentity == if asked == [] then None else Some(asked[|asked| - 1])
  }

  lemma StepConsumes(s: Bridge, e: Event, asked: seq<string>)
    requires RemembersLast(s, asked)
    ensures RemembersLast(Step(s, e), asked + if e.Reattach? && !s.disposed && !s.exited then [e.identity] else [])
  {
    if e.Reattach? && !s.disposed && !s.exited {
      var more := asked + [e.identity];
      assert more[..|more| - 1] == asked;
      ReattachConsumes(s, e.identity, e.supersedeOpen);
    } else {
      OtherStepsConsumeNothing(s, e);
      assert asked + [] == asked;
    }
  }

  lemma ReattachConsumes(s: Bridge, identity: string, supersedeOpen: bool)
    requires !s.disposed && !s.exited
    ensures var t := Step(s, Reattach(identity, supersedeOpen));
      && t.lastIdentity == Some(identity)
      && t.consumed == s.consumed + if s.lastIdentity == Some(identity) then [] else [identity]
  {
  }

  lemma OtherStepsConsumeNothing(s: Bridge, e: Event)
    requires e.Reattach? ==> s.disposed || s.exited
    ensures Step(s, e).consumed == s.consumed && Step(s, e).lastIdentity == s.lastIdentity
  {
  }

  /** Over any run, what is consumed is what was asked for, repetitions in a row taken once. */
  lemma {:induction false} ConsumesWhatChanges(events: seq<Event>)
    ensures RemembersLast(After(events), Asked(events))
  {
    if events != [] {
      ConsumesWhatChanges(events[..|events| - 1]);
      StepConsumes(After(events[..|events| - 1]), events[|events| - 1], Asked(events[..|events| - 1]));
    }
  }

  predicate EachOnce(list: seq<string>) {
    forall i, j :: 0 <= i < j < |list| ==> list[i] != list[j]
  }

  /** Position `k` lies between two requests for one identity. */
  predicate Between(asked: seq<string>, i: int, k: int, j: int) {
    0 <= i < k < j < |asked| && asked[i] == asked[j]
  }

  /** No identity is asked for again after another one was. */
  ghost predicate NoneReturns(asked: seq<string>) {
    forall i, k, j :: Between(asked, i, k, j) ==> asked[k] == asked[i]
  }

  lemma {:induction false} CollapsedMembers(list: seq<string>)
    ensures forall x :: x in Collapsed(list) <==> x in list
  {
    if list != [] {
      var rest, last := list[..|list| - 1], list[|list| - 1];
      CollapsedMembers(rest);
      assert list == rest + [last];
    }
  }

  lemma EachOnceAppend(list: seq<string>, x: string)
    ensures EachOnce(list + [x]) <==> EachOnce(list) && x !in list
  {
    var more := list + [x];
    if EachOnce(more) {
      assert forall i :: 0 <= i < |list| ==> more[i] == list[i] && more[i] != more[|list|];
    }
  }

  lemma NoneReturnsAppend(list: seq<string>, x: string)
    requires list != []
    ensures NoneReturns(list + [x]) <==> NoneReturns(list) && (list[|list| - 1] == x || x !in list)
  {
    var more, n := list + [x], |list|;
    if NoneReturns(more) {
      forall i, k, j | Between(list, i, k, j) ensures list[k] == list[i] {
        assert Between(more, i, k, j);
      }
      if x in list {
        var i :| 0 <= i < n && list[i] == x;
        if i < n - 1 { assert Between(more, i, n - 1, n); }
      }
    }
    if NoneReturns(list) && (list[n - 1] == x || x !in list) {
      forall i, k, j | Between(more, i, k, j) ensures more[k] == more[i] {
        if j < n {
          assert Between(list, i, k, j);
        } else {
          assert list[i] == x && list[n - 1] == x;
          if k < n - 1 { assert Between(list, i, k, n - 1); }
        }
      }
    }
  }

  lemma {:induction false} CollapsedOnceExactlyWhen(list: seq<string>)
    ensures EachOnce(Collapsed(list)) <==> NoneReturns(list)
  {
    if list != [] {
      var rest, last := list[..|list| - 1], list[|list| - 1];
      CollapsedOnceExactlyWhen(rest);
      CollapsedMembers(rest);
      assert list == rest + [last];
      if rest != [] {
        NoneReturnsAppend(rest, last);
        EachOnceAppend(Collapsed(rest), last);
      }
    }
  }

  /** Every identity is consumed at most once exactly when none is asked for again after another. */
  lemma IdentityConsumedOnceExactlyWhen(events: seq<Event>)
    ensures EachOnce(After(events).consumed) <==> NoneReturns(Asked(events))
  {
    ConsumesWhatChanges(events);
    CollapsedOnceExactlyWhen(Asked(events));
  }

  /** Only the last identity is remembered: one that comes back after another is taken again. */
  lemma IdentityCanReturn()
    ensures After([Reattach("a", true), Reattach("b", true), Reattach("a", true)]).consumed == ["a", "b", "a"]
  {
    var e1, e2, e3 := Reattach("a", true), Reattach("b", true), Reattach("a", true);
    assert [e1][..0] == [] && [e1, e2][..1] == [e1] && [e1, e2, e3][..2] == [e1, e2];
    assert After([e1]) == Step(Init(), e1);
    assert After([e1, e2]) == Step(After([e1]), e2);
  }

  // ---------------------------------------------------------------- the bridge, read off its history

  /** The event is a call, or comes from the current socket. */
  predicate IsHeard(s: Bridge, e: Event) {
    IsSocketEvent(e) ==> e.socket == s.socket
  }

  /** A reattach that replaces the socket: a new identity, and no open socket it may not supersede. */
  predicate Replaces(s: Bridge, e: Event) {
    && e.Reattach? && !s.disposed && !s.exited && s.lastIdentity != Some(e.identity)
    && (s.ready != Open || e.supersedeOpen)
  }

  /** The current socket's first word that it is gone, on a pane that still lives. */
  predicate TellsOfDrop(s: Bridge, e: Event) {
    (e.Closes? || e.Exit?) && e.socket == s.socket && !s.disposed && !s.dropped
  }

  /** What becomes of the line: each field, whatever the event. */
  lemma LineAfter(s: Bridge, e: Event)
    ensures var t := Step(s, e);
      && t.socket == s.socket + (if Replaces(s, e) then 1 else 0)
      && t.ready ==
           (if Replaces(s, e) then Connecting
            else if e.Opens? && e.socket == s.socket then Open
            else if (e.GoesDown? && e.socket == s.socket) || e.Dispose? then Closed
            else s.ready)
      && t.disposed == (s.disposed || e.Dispose?)
      && t.exited == (s.exited || (e.Exit? && e.socket == s.socket))
  {
  }

  lemma ReportsAfter(s: Bridge, e: Event)
    ensures var t := Step(s, e);
      && t.dropped == (if Replaces(s, e) then false else s.dropped || TellsOfDrop(s, e))
      && t.reports == s.reports +
           (if Replaces(s, e) then [Reconnecting]
            else if e.Opens? && e.socket == s.socket && !s.disposed then [Connected]
            else if TellsOfDrop(s, e) then [Dropped]
            else [])
  {
  }

  lemma SinkAfter(s: Bridge, e: Event)
    ensures var t := Step(s, e);
      && t.output == s.output + (if e.Message? && e.socket == s.socket then [e.bytes] else [])
      && t.exits == s.exits + (if e.Exit? && e.socket == s.socket then 1 else 0)
  {
  }

  /** Only an open socket is sent anything: the replay as it opens, and what is typed or resized meanwhile. */
  lemma WireAfter(s: Bridge, e: Event)
    ensures Step(s, e).wire == s.wire +
      (if e.Opens? && e.socket == s.socket && !s.disposed then
         (if s.pendingResize.Some? then [Sent(s.socket, Resize(s.pendingResize.value))] else []) +
         StdinOn(s.socket, s.pendingInput)
       else if s.ready == Open && e.SendInput? then [Sent(s.socket, Stdin(e.data))]
       else if s.ready == Open && e.SendResize? then [Sent(s.socket, Resize(e.size))]
       else [])
  {
    if e.Opens? && e.socket == s.socket && !s.disposed {
      var a, b := ResizeOn(s.socket, s.pendingResize), StdinOn(s.socket, s.pendingInput);
      assert s.wire + a + b == s.wire + (a + b);
    }
  }

  function Replacements(events: seq<Event>): nat {
    if events == [] then 0
    else Replacements(events[..|events| - 1]) +
         if Replaces(After(events[..|events| - 1]), events[|events| - 1]) then 1 else 0
  }

  function OutputHeard(events: seq<Event>): seq<string> {
    if events == [] then [] else
    var rest, e := events[..|events| - 1], events[|events| - 1];
    OutputHeard(rest) + if e.Message? && e.socket == After(rest).socket then [e.bytes] else []
  }

  function Exits(events: seq<Event>): nat {
    if events == [] then 0 else
    var rest, e := events[..|events| - 1], events[|events| - 1];
    Exits(rest) + if e.Exit? && e.socket == After(rest).socket then 1 else 0
  }

  predicate HasDispose(events: seq<Event>) {
    exists e <- events :: e.Dispose?
  }

  /** Sockets, output and endings of any run are those its heard events call for. */
  lemma {:induction false} BridgeFromHistory(events: seq<Event>)
    ensures var s := After(events);
      && s.socket == 1 + Replacements(events)
      && s.output == OutputHeard(events)
      && s.exits == Exits(events)
      && s.exited == (Exits(events) > 0)
      && s.disposed == HasDispose(events)
  {
    if events != [] {
      var rest, e := events[..|events| - 1], events[|events| - 1];
      BridgeFromHistory(rest);
      LineAfter(After(rest), e);
      SinkAfter(After(rest), e);
      assert events == rest + [e];
      assert HasDispose(events) <==> HasDispose(rest) || e.Dispose?;
    }
  }

  function Count(reports: seq<Report>, r: Report): nat {
    multiset(reports)[r]
  }

  /** The current socket has told of its loss. */
  predicate DropTold(events: seq<Event>) {
    if events == [] then false else
    var rest, e := events[..|events| - 1], events[|events| - 1];
    !Replaces(After(rest), e) && (DropTold(rest) || TellsOfDrop(After(rest), e))
  }

  /** Each socket reports its loss at most once, and each replacement one reconnect. */
  lemma {:induction false} LossIsReportedOncePerSocket(events: seq<Event>)
    ensures var s := After(events);
      && s.dropped == DropTold(events)
      && Count(s.reports, Dropped) + (if s.dropped then 0 else 1) <= s.socket
      && Count(s.reports, Reconnecting) == Replacements(events)
  {
    if events != [] {
      var rest, e := events[..|events| - 1], events[|events| - 1];
      LossIsReportedOncePerSocket(rest);
      ReportsAfter(After(rest), e);
      LineAfter(After(rest), e);
    }
  }

  // ---------------------------------------------------------------- the handlers

  /** `TerminalSocketState`, with the current socket and what leaves the bridge. */
  class TerminalBridge {
    var socket: nat
    var ready: Ready
    var dropped: bool
    var disposed: bool
    var exited: bool
    var lastIdentity: Option<string>
    var pendingResize: Option<Size>
    var pendingInput: seq<string>
    var wire: seq<Sent>
    var output: seq<string>
    var exits: nat
    var reports: seq<Report>
    var consumed: seq<string>

    function View(): Bridge
      reads this
    {
      Bridge(socket, ready, dropped, disposed, exited, lastIdentity, pendingResize, pendingInput, wire, output, exits,
             reports, consumed)
    }

    /** `connectTerminal`. */
    constructor ()
      ensures View() == Init()
    {
      socket, ready, dropped, disposed, exited := 1, Connecting, false, false, false;
      lastIdentity, pendingResize, pendingInput := None, None, [];
      wire, output, exits, reports, consumed := [], [], 0, [], [];
    }

    method SendFrame(f: Frame)
      modifies this`wire
      ensures View() == FrameOut(old(View()), f)
    {
      if ready == Open { wire := wire + [Sent(socket, f)]; }
    }

    method ReportDrop()
      modifies this
      ensures View() == ReportDropped(old(View()))
    {
      if disposed || dropped { return; }
      dropped := true;
      reports := reports + [Dropped];
    }

    method OnOpen(id: nat)
      modifies this
      ensures View() == Step(old(View()), Opens(id))
    {
      if socket != id { return; }
      ready := Open;
      if disposed { return; }
      reports := reports + [Connected];
      if pendingResize.Some? { SendFrame(Resize(pendingResize.value)); }
      ReplayInput();
      pendingInput := [];
    }

    method ReplayInput()
      requires ready == Open
      modifies this`wire
      ensures wire == old(wire) + StdinOn(socket, pendingInput)
    {
      for i := 0 to |pendingInput|
        invariant wire == old(wire) + StdinOn(socket, pendingInput[..i])
      {
        assert pendingInput[..i + 1][..i] == pendingInput[..i];
        SendFrame(Stdin(pendingInput[i]));
      }
      assert pendingInput[..|pendingInput|] == pendingInput;
    }

    method OnMessage(id: nat, bytes: string)
      modifies this
      ensures View() == Step(old(View()), Message(id, bytes))
    {
      if socket != id { return; }
      output := output + [bytes];
    }

    method OnExit(id: nat)
      modifies this
      ensures View() == Step(old(View()), Exit(id))
    {
      if socket != id { return; }
      exited := true;
      ReportDrop();
      exits := exits + 1;
    }

    method OnClose(id: nat)
      modifies this
      ensures View() == Step(old(View()), Closes(id))
    {
      if socket != id { return; }
      ReportDrop();
    }

    method Input(data: string)
      modifies this
      ensures View() == Step(old(View()), SendInput(data))
    {
      if ready == Open {
        SendFrame(Stdin(data));
      } else {
        pendingInput := pendingInput + [data];
      }
    }

    method ResizeTo(size: Size)
      modifies this
      ensures View() == Step(old(View()), SendResize(size))
    {
      pendingResize := Some(size);
      SendFrame(Resize(size));
    }

    /** `reattach`; true when a replacement socket was opened. */
    method ReattachTo(identity: string, supersedeOpen: bool) returns (replaced: bool)
      modifies this
      ensures View() == Step(old(View()), Reattach(identity, supersedeOpen))
      ensures replaced <==> socket == old(socket) + 1
    {
      if disposed || exited { return false; }
      if lastIdentity == Some(identity) { return false; }
      lastIdentity := Some(identity);
      consumed := consumed + [identity];
      if ready == Open && !supersedeOpen { return false; }
      reports := reports + [Reconnecting];
      ReplaceSocket();
      return true;
    }

    method ReplaceSocket()
      modifies this`socket, this`ready, this`dropped
      ensures View() == Replace(old(View()))
    {
      socket, ready, dropped := socket + 1, Connecting, false;
    }

    method Close()
      modifies this
      ensures View() == Step(old(View()), Dispose)
    {
      disposed, ready := true, Closed;
    }
  }
}
