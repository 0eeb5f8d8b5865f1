/**
  The shared terminal-catalog read of catalogPoll.ts: readers that ask together share one physical
  attempt, and a reset revokes what earlier generations asked for. Each step below is the code between
  two awaits; the steps of readers, of the transport and of resets interleave freely.
 */
module CatalogPoll {
  import opened Wrappers

  datatype Row = Row(id: string, body: string)

  /** Fetching until the transport answers, Answered once the beat is taken, Settled once released. */
  datatype Phase = Fetching | Answered | Settled

  /** `joined` is history: the readers that ever shared the attempt. */
  datatype Attempt = Attempt(
    generation: nat,
    phase: Phase,
    list: Option<seq<Row>>,
    excluded: set<string>,
    joined: set<nat>)

  /** A reader waits on an attempt, then holds its result, then has returned. */
  datatype Progress =
    | Waiting(attempt: nat)
    | Got(attempt: nat, list: Option<seq<Row>>, excluded: set<string>)
    | Returned(current: bool)

  /** `turns` counts how often the reader's loop has gone round. */
  datatype Reader = Reader(generation: nat, allowEmpty: bool, excludes: set<string>, progress: Progress, turns: nat)

  /** One write of the session store: the rows, the attempt they came from, the generation it was made in. */
  datatype Hydrate = Hydrate(attempt: nat, rows: seq<Row>, generation: nat)

  datatype State = State(
    generation: nat,
    slot: Option<nat>,
    attempts: seq<Attempt>,
    readers: seq<Reader>,
    beats: seq<nat>,
    hydrates: seq<Hydrate>)

  datatype Event =
    | Call(authority: nat, allowEmpty: bool, excludes: set<string>)
    | Answer(attempt: nat, list: Option<seq<Row>>)
    | Release(attempt: nat)
    | Resume(reader: nat)
    | Deliver(reader: nat)
    | Reset

  function Init(): State {
    State(0, None, [], [], [], [])
  }

  function Keep(list: seq<Row>, excluded: set<string>): seq<Row> {
    if list == [] then []
    else (if list[0].id in excluded then [] else [list[0]]) + Keep(list[1..], excluded)
  }

  /** The transport attempt in the slot, started when there is none. */
  function Started(s: State): State {
    if s.slot.Some? then s
    else s.(slot := Some(|s.attempts|), attempts := s.attempts + [Attempt(s.generation, Fetching, None, {}, {})])
  }

  function Shared(a: Attempt, reader: nat, excludes: set<string>): Attempt {
    a.(excluded := a.excluded + excludes, joined := a.joined + {reader})
  }

  /** One turn of the reader's loop: find the attempt, add the exclusions, wait. */
  function Join(s: State, reader: nat): State
    requires reader < |s.readers| && SlotInv(s)
  {
    var t := Started(s);
    var a := t.slot.value;
    t.(attempts := t.attempts[a := Shared(t.attempts[a], reader, s.readers[reader].excludes)],
       readers := t.readers[reader := t.readers[reader].(progress := Waiting(a), turns := t.readers[reader].turns + 1)])
  }

  function SetProgress(s: State, reader: nat, p: Progress): State
    requires reader < |s.readers|
  {
    s.(readers := s.readers[reader := s.readers[reader].(progress := p)])
  }

  predicate Possible(s: State, e: Event) {
    match e
    case Call(authority, _, _) => authority <= s.generation
    case Answer(a, _) => a < |s.attempts| && s.attempts[a].phase == Fetching
    case Release(a) => a < |s.attempts| && s.attempts[a].phase == Answered
    case Resume(r) =>
      && r < |s.readers| && s.readers[r].progress.Waiting?
      && s.readers[r].progress.attempt < |s.attempts| && s.attempts[s.readers[r].progress.attempt].phase == Settled
    case Deliver(r) => r < |s.readers| && s.readers[r].progress.Got?
    case Reset => true
  }

  function Resumed(s: State, r: nat): State
    requires SlotInv(s) && Possible(s, Resume(r))
  {
    var reader := s.readers[r];
    var a := reader.progress.attempt;
    if reader.generation != s.generation then SetProgress(s, r, Got(a, None, {}))
    else if s.attempts[a].generation == reader.generation
    then SetProgress(s, r, Got(a, s.attempts[a].list, s.attempts[a].excluded))
    else Join(s, r)
  }

  function Delivered(s: State, r: nat): State
    requires Possible(s, Deliver(r))
  {
    var reader := s.readers[r];
    var got := reader.progress;
    if reader.generation != s.generation then SetProgress(s, r, Returned(false))
    else if got.list.None? || (got.list.value == [] && !reader.allowEmpty) then SetProgress(s, r, Returned(true))
    else SetProgress(s, r, Returned(true)).(
      hydrates := s.hydrates + [Hydrate(got.attempt, Keep(got.list.value, got.excluded), s.generation)])
  }

  function Step(s: State, e: Event): State
    requires SlotInv(s) && Possible(s, e)
  {
    match e
    case Call(authority, allowEmpty, excludes) =>
      if authority != s.generation
      then s.(readers := s.readers + [Reader(authority, allowEmpty, excludes, Returned(false), 0)])
      else Join(s.(readers := s.readers + [Reader(authority, allowEmpty, excludes, Returned(false), 0)]), |s.readers|)
    case Answer(a, list) =>
      s.(attempts := s.attempts[a := s.attempts[a].(phase := Answered, list := list)],
         beats := if s.attempts[a].generation == s.generation then s.beats + [a] else s.beats)
    case Release(a) =>
      s.(attempts := s.attempts[a := s.attempts[a].(phase := Settled)],
         slot := if s.slot == Some(a) then None else s.slot)
    case Resume(r) => Resumed(s, r)
    case Deliver(r) => Delivered(s, r)
    case Reset => s.(generation := s.generation + 1)
  }

  // ---------------------------------------------------------------- invariants

  /** The slot holds the one attempt that is not settled. */
  predicate SlotInv(s: State) {
    && (s.slot.Some? ==> s.slot.value == |s.attempts| - 1 >= 0)
    && forall a :: 0 <= a < |s.attempts| ==> (s.attempts[a].phase != Settled <==> s.slot == Some(a))
  }

  predicate ReaderInv(s: State, r: nat)
    requires r < |s.readers|
  {
    s.readers[r].generation <= s.generation && match s.readers[r].progress
    case Waiting(a) =>
      && a < |s.attempts| && r in s.attempts[a].joined
      && 1 <= s.readers[r].turns <= 2
      && (s.readers[r].turns == 2 ==> s.attempts[a].generation >= s.readers[r].generation)
    case Got(a, list, excluded) =>
      && a < |s.attempts| && s.attempts[a].phase == Settled
      && (list.Some? ==>
            s.attempts[a].generation == s.readers[r].generation &&
            list == s.attempts[a].list && excluded == s.attempts[a].excluded)
      && s.readers[r].turns <= 2
    case Returned(_) => s.readers[r].turns <= 2
  }

  /** Some reader that joined the attempt excluded the id. */
  predicate ExcludedBySome(s: State, a: nat, x: string)
    requires a < |s.attempts|
  {
    exists r <- s.attempts[a].joined :: r < |s.readers| && x in s.readers[r].excludes
  }

  predicate AttemptInv(s: State, a: nat)
    requires a < |s.attempts|
  {
    && s.attempts[a].generation <= s.generation
    && (forall r <- s.attempts[a].joined :: r < |s.readers| && s.readers[r].excludes <= s.attempts[a].excluded)
    && (forall x <- s.attempts[a].excluded :: ExcludedBySome(s, a, x))
    && (forall r, b :: r in s.attempts[a].joined && a < b < |s.attempts| ==>
          s.attempts[b].generation >= s.readers[r].generation)
  }

  predicate BeatInv(s: State, a: nat)
    requires a < |s.attempts|
  {
    && multiset(s.beats)[a] <= 1
    && (s.attempts[a].phase == Fetching ==> multiset(s.beats)[a] == 0)
    && (s.attempts[a].phase != Fetching && s.attempts[a].generation == s.generation ==> multiset(s.beats)[a] == 1)
  }

  predicate HydrateInv(s: State, h: Hydrate) {
    && h.attempt < |s.attempts| && s.attempts[h.attempt].phase == Settled
    && s.attempts[h.attempt].generation == h.generation
    && s.attempts[h.attempt].list.Some?
    && h.rows == Keep(s.attempts[h.attempt].list.value, s.attempts[h.attempt].excluded)
  }

  ghost predicate Inv(s: State) {
    && SlotInv(s)
    && (forall r :: 0 <= r < |s.readers| ==> ReaderInv(s, r))
    && (forall a :: 0 <= a < |s.attempts| ==> AttemptInv(s, a) && BeatInv(s, a))
    && (forall b <- s.beats :: b < |s.attempts|)
    && (forall i :: 0 <= i < |s.hydrates| ==> HydrateInv(s, s.hydrates[i]))
  }

  lemma StartedKeepsInv(s: State)
    requires Inv(s)
    ensures Inv(Started(s)) && Started(s).slot.Some?
  {
    var t := Started(s);
    if s.slot.None? {
      assert |s.attempts| !in s.beats;
      forall r | 0 <= r < |t.readers| ensures ReaderInv(t, r) { assert ReaderInv(s, r); }
      forall a | 0 <= a < |t.attempts| ensures AttemptInv(t, a) && BeatInv(t, a) {
        if a < |s.attempts| {
          assert AttemptInv(s, a) && BeatInv(s, a);
          forall r <- s.attempts[a].joined ensures s.generation >= s.readers[r].generation { assert ReaderInv(s, r); }
        }
      }
      forall i | 0 <= i < |t.hydrates| ensures HydrateInv(t, t.hydrates[i]) { assert HydrateInv(s, s.hydrates[i]); }
    }
  }

  /** Joining once the attempt exists. */
  function Boarded(t: State, reader: nat): State
    requires reader < |t.readers| && SlotInv(t) && t.slot.Some?
  {
    var a := t.slot.value;
    t.(attempts := t.attempts[a := Shared(t.attempts[a], reader, t.readers[reader].excludes)],
       readers := t.readers[reader := t.readers[reader].(progress := Waiting(a), turns := t.readers[reader].turns + 1)])
  }

  lemma BoardedKeepsInv(t: State, reader: nat)
    requires Inv(t) && t.slot.Some? && reader < |t.readers|
    requires t.readers[reader].turns <= 1
    requires t.readers[reader].turns == 1 ==> t.attempts[t.slot.value].generation >= t.readers[reader].generation
    ensures Inv(Boarded(t, reader))
  {
    var u, slot := Boarded(t, reader), t.slot.value;
    forall r | 0 <= r < |u.readers| ensures ReaderInv(u, r) { assert ReaderInv(t, r); }
    forall a | 0 <= a < |u.attempts| ensures AttemptInv(u, a) && BeatInv(u, a) {
      assert AttemptInv(t, a) && BeatInv(t, a);
    }
    forall i | 0 <= i < |u.hydrates| ensures HydrateInv(u, u.hydrates[i]) { assert HydrateInv(t, t.hydrates[i]); }
  }

  lemma JoinKeepsInv(s: State, reader: nat)
    requires Inv(s) && reader < |s.readers|
    requires s.readers[reader].turns <= 1
    requires s.readers[reader].turns == 1 ==>
      s.readers[reader].generation == s.generation &&
      (s.slot.Some? ==> s.attempts[s.slot.value].generation >= s.generation)
    ensures Inv(Join(s, reader))
  {
    StartedKeepsInv(s);
    BoardedKeepsInv(Started(s), reader);
    assert Join(s, reader) == Boarded(Started(s), reader);
  }

  lemma NewReaderKeepsInv(s: State, reader: Reader)
    requires Inv(s) && reader.progress.Returned? && reader.turns == 0 && reader.generation <= s.generation
    ensures Inv(s.(readers := s.readers + [reader]))
  {
    var t := s.(readers := s.readers + [reader]);
    forall r | 0 <= r < |t.readers| ensures ReaderInv(t, r) {
      if r < |s.readers| { assert ReaderInv(s, r); }
    }
    forall a | 0 <= a < |t.attempts| ensures AttemptInv(t, a) && BeatInv(t, a) {
      assert AttemptInv(s, a) && BeatInv(s, a);
    }
    forall i | 0 <= i < |t.hydrates| ensures HydrateInv(t, t.hydrates[i]) { assert HydrateInv(s, s.hydrates[i]); }
  }

  lemma ProgressKeepsInv(s: State, r: nat, p: Progress)
    requires Inv(s) && r < |s.readers| && ReaderInv(SetProgress(s, r, p), r)
    ensures Inv(SetProgress(s, r, p))
  {
    var t := SetProgress(s, r, p);
    forall q | 0 <= q < |t.readers| ensures ReaderInv(t, q) { assert ReaderInv(s, q); }
    forall a | 0 <= a < |t.attempts| ensures AttemptInv(t, a) && BeatInv(t, a) {
      assert AttemptInv(s, a) && BeatInv(s, a);
    }
    forall i | 0 <= i < |t.hydrates| ensures HydrateInv(t, t.hydrates[i]) { assert HydrateInv(s, s.hydrates[i]); }
  }

  lemma AnswerKeepsInv(s: State, n: nat, list: Option<seq<Row>>)
    requires Inv(s) && Possible(s, Answer(n, list))
    ensures Inv(Step(s, Answer(n, list)))
  {
    var t := Step(s, Answer(n, list));
    forall r | 0 <= r < |t.readers| ensures ReaderInv(t, r) { assert ReaderInv(s, r); }
    forall a | 0 <= a < |t.attempts| ensures AttemptInv(t, a) && BeatInv(t, a) {
      assert AttemptInv(s, a) && BeatInv(s, a);
    }
    forall i | 0 <= i < |t.hydrates| ensures HydrateInv(t, t.hydrates[i]) { assert HydrateInv(s, s.hydrates[i]); }
  }

  lemma ReleaseKeepsInv(s: State, n: nat)
    requires Inv(s) && Possible(s, Release(n))
    ensures Inv(Step(s, Release(n)))
  {
    var t := Step(s, Release(n));
    assert s.slot == Some(n);
    forall r | 0 <= r < |t.readers| ensures ReaderInv(t, r) { assert ReaderInv(s, r); }
    forall a | 0 <= a < |t.attempts| ensures AttemptInv(t, a) && BeatInv(t, a) {
      assert AttemptInv(s, a) && BeatInv(s, a);
    }
    forall i | 0 <= i < |t.hydrates| ensures HydrateInv(t, t.hydrates[i]) { assert HydrateInv(s, s.hydrates[i]); }
  }

  lemma DeliverKeepsInv(s: State, r: nat)
    requires Inv(s) && Possible(s, Deliver(r))
    ensures Inv(Step(s, Deliver(r)))
  {
    var t, got := Step(s, Deliver(r)), s.readers[r].progress;
    assert ReaderInv(s, r);
    ProgressKeepsInv(s, r, t.readers[r].progress);
    if t.hydrates != s.hydrates {
      assert HydrateInv(s, Hydrate(got.attempt, Keep(got.list.value, got.excluded), s.generation));
      var u := SetProgress(s, r, Returned(true));
      forall q | 0 <= q < |t.readers| ensures ReaderInv(t, q) { assert ReaderInv(u, q); }
      forall a | 0 <= a < |t.attempts| ensures AttemptInv(t, a) && BeatInv(t, a) {
        assert AttemptInv(u, a) && BeatInv(u, a);
      }
      forall i | 0 <= i < |t.hydrates| ensures HydrateInv(t, t.hydrates[i]) {
        if i < |s.hydrates| { assert HydrateInv(s, s.hydrates[i]); }
      }
    }
  }

  lemma ResetKeepsInv(s: State)
    requires Inv(s)
    ensures Inv(Step(s, Reset))
  {
    var t := Step(s, Reset);
    forall r | 0 <= r < |t.readers| ensures ReaderInv(t, r) { assert ReaderInv(s, r); }
    forall a | 0 <= a < |t.attempts| ensures AttemptInv(t, a) && BeatInv(t, a) {
      assert AttemptInv(s, a) && BeatInv(s, a);
    }
    forall i | 0 <= i < |t.hydrates| ensures HydrateInv(t, t.hydrates[i]) { assert HydrateInv(s, s.hydrates[i]); }
  }

  lemma StepKeepsInv(s: State, e: Event)
    requires Inv(s) && Possible(s, e)
    ensures Inv(Step(s, e))
  {
    match e
    case Call(authority, allowEmpty, excludes) =>
      var reader := Reader(authority, allowEmpty, excludes, Returned(false), 0);
      NewReaderKeepsInv(s, reader);
      if authority == s.generation { JoinKeepsInv(s.(readers := s.readers + [reader]), |s.readers|); }
    case Answer(a, list) => AnswerKeepsInv(s, a, list);
    case Release(a) => ReleaseKeepsInv(s, a);
    case Resume(r) =>
      var a := s.readers[r].progress.attempt;
      if s.readers[r].generation != s.generation {
        assert ReaderInv(s, r);
        ProgressKeepsInv(s, r, Got(a, None, {}));
      } else if s.attempts[a].generation == s.readers[r].generation {
        ProgressKeepsInv(s, r, Got(a, s.attempts[a].list, s.attempts[a].excluded));
      } else {
        assert ReaderInv(s, r) && AttemptInv(s, a);
        JoinKeepsInv(s, r);
      }
    case Deliver(r) => DeliverKeepsInv(s, r);
    case Reset => ResetKeepsInv(s);
  }

  // ---------------------------------------------------------------- whole runs

  /** A run, one state per step. */
  ghost predicate Run(states: seq<State>, events: seq<Event>) {
    && |states| == |events| + 1
    && states[0] == Init()
    && forall k :: 0 <= k < |events| ==>
         SlotInv(states[k]) && Possible(states[k], events[k]) && states[k + 1] == Step(states[k], events[k])
  }

  lemma {:induction false} RunKeepsInv(states: seq<State>, events: seq<Event>, k: nat)
    requires Run(states, events) && k < |states|
    ensures Inv(states[k])
  {
    if k > 0 {
      RunKeepsInv(states, events, k - 1);
      StepKeepsInv(states[k - 1], events[k - 1]);
      assert states[k - 1 + 1] == Step(states[k - 1], events[k - 1]);
    }
  }

  /** However readers and resets interleave, no two physical reads are ever outstanding. */
  lemma OneReadOutstanding(states: seq<State>, events: seq<Event>, k: nat, a: nat, b: nat)
    requires Run(states, events) && k < |states|
    requires a < |states[k].attempts| && states[k].attempts[a].phase != Settled
    requires b < |states[k].attempts| && states[k].attempts[b].phase != Settled
    ensures a == b
  {
    RunKeepsInv(states, events, k);
  }

  /** What a step does to the beats of an attempt: its answer beats once, if its generation is in force. */
  lemma BeatStep(s: State, e: Event, a: nat)
    requires SlotInv(s) && Possible(s, e) && a < |s.attempts|
    ensures var t := Step(s, e);
      && a < |t.attempts| && t.attempts[a].generation == s.attempts[a].generation
      && t.attempts[a].list == (if e.Answer? && e.attempt == a then e.list else s.attempts[a].list)
      && (s.attempts[a].phase == Fetching && t.attempts[a].phase != Fetching ==> e.Answer? && e.attempt == a)
      && (t.attempts[a].phase == Fetching ==> s.attempts[a].phase == Fetching)
      && multiset(t.beats)[a] == multiset(s.beats)[a] +
           if e.Answer? && e.attempt == a && s.attempts[a].generation == s.generation then 1 else 0
  {
  }

  /** A new attempt is still fetching. */
  lemma NewAttemptFetches(s: State, e: Event, a: nat)
    requires SlotInv(s) && Possible(s, e) && |s.attempts| <= a < |Step(s, e).attempts|
    ensures Step(s, e).attempts[a].phase == Fetching
  {
  }

  /** Step `j` of a run is the answer of attempt `a`. */
  predicate AnsweredAt(states: seq<State>, events: seq<Event>, j: nat, a: nat) {
    && j < |events| && j < |states| && events[j].Answer? && events[j].attempt == a
    && a < |states[j].attempts|
  }

  lemma BeatBounds(states: seq<State>, events: seq<Event>, k: nat, a: nat)
    requires Run(states, events) && k < |states| && a < |states[k].attempts|
    ensures multiset(states[k].beats)[a] <= 1
    ensures states[k].attempts[a].phase == Fetching ==> multiset(states[k].beats)[a] == 0
    ensures states[k].attempts[a].phase != Fetching && states[k].attempts[a].generation == states[k].generation ==>
      multiset(states[k].beats)[a] == 1
  {
    RunKeepsInv(states, events, k);
    assert BeatInv(states[k], a);
  }

  /** The list and the beats an answered attempt has, with the step `j` of its answer. */
  predicate BeatOfAnswer(states: seq<State>, events: seq<Event>, k: nat, a: nat, j: nat) {
    && k < |states| && a < |states[k].attempts| && j < k && AnsweredAt(states, events, j, a)
    && states[k].attempts[a].list == events[j].list
    && multiset(states[k].beats)[a] == if states[k].attempts[a].generation == states[j].generation then 1 else 0
  }

  /** What the step before an answered state did: it was the answer, or it left the beats alone. */
  predicate AnswerOrKeep(states: seq<State>, events: seq<Event>, k: nat, a: nat) {
    && 0 < k < |states| && a < |states[k].attempts| && a < |states[k - 1].attempts|
    && states[k].attempts[a].generation == states[k - 1].attempts[a].generation
    && (states[k - 1].attempts[a].phase != Fetching ==> states[k].attempts[a].list == states[k - 1].attempts[a].list)
    && if states[k - 1].attempts[a].phase == Fetching
       then AnsweredAt(states, events, k - 1, a) && BeatOfAnswer(states, events, k, a, k - 1)
       else multiset(states[k].beats)[a] == multiset(states[k - 1].beats)[a]
  }

  lemma EveryStepAnswersOrKeeps(states: seq<State>, events: seq<Event>, k: nat, a: nat)
    requires Run(states, events) && k < |states| && a < |states[k].attempts| && states[k].attempts[a].phase != Fetching
    ensures AnswerOrKeep(states, events, k, a)
  {
    RunStep(states, events, k);
    AnswerStep(states[k - 1], events[k - 1], states[k], a);
  }

  lemma RunStep(states: seq<State>, events: seq<Event>, k: nat)
    requires Run(states, events) && k < |states|
    ensures k > 0 ==>
      && Inv(states[k - 1]) && Possible(states[k - 1], events[k - 1])
      && states[k] == Step(states[k - 1], events[k - 1])
    ensures k == 0 ==> states[k].attempts == []
  {
    if k > 0 {
      RunKeepsInv(states, events, k - 1);
      assert states[k - 1 + 1] == Step(states[k - 1], events[k - 1]);
    }
  }

  lemma AnswerStep(s: State, e: Event, t: State, a: nat)
    requires Inv(s) && Possible(s, e) && t == Step(s, e)
    requires a < |t.attempts| && t.attempts[a].phase != Fetching
    ensures a < |s.attempts| && t.attempts[a].generation == s.attempts[a].generation
    ensures s.attempts[a].phase == Fetching ==>
      && e.Answer? && e.attempt == a
      && multiset(t.beats)[a] == (if t.attempts[a].generation == s.generation then 1 else 0)
      && t.attempts[a].list == e.list
    ensures s.attempts[a].phase != Fetching ==>
      multiset(t.beats)[a] == multiset(s.beats)[a] && t.attempts[a].list == s.attempts[a].list
  {
    if a >= |s.attempts| { NewAttemptFetches(s, e, a); }
    assert BeatInv(s, a);
    BeatStep(s, e, a);
  }

  lemma {:induction false} FindAnswer(states: seq<State>, events: seq<Event>, k: nat, a: nat) returns (j: nat)
    requires k < |states| && a < |states[k].attempts| && states[k].attempts[a].phase != Fetching
    requires forall m :: 0 <= m <= k && a < |states[m].attempts| && states[m].attempts[a].phase != Fetching ==>
      AnswerOrKeep(states, events, m, a)
    ensures BeatOfAnswer(states, events, k, a, j)
    decreases k
  {
    assert AnswerOrKeep(states, events, k, a);
    if states[k - 1].attempts[a].phase == Fetching {
      j := k - 1;
    } else {
      j := FindAnswer(states, events, k - 1, a);
    }
  }

  /**
    An attempt beats not at all before its answer; after it, once if its generation was in force at
    that step and never otherwise, whatever resets follow.
   */
  lemma OneBeatPerAttempt(states: seq<State>, events: seq<Event>, k: nat, a: nat) returns (j: nat)
    requires Run(states, events) && k < |states| && a < |states[k].attempts|
    ensures multiset(states[k].beats)[a] <= 1
    ensures states[k].attempts[a].phase == Fetching ==> multiset(states[k].beats)[a] == 0
    ensures states[k].attempts[a].phase != Fetching ==> BeatOfAnswer(states, events, k, a, j)
    ensures states[k].attempts[a].phase != Fetching && states[k].attempts[a].generation == states[k].generation ==>
      multiset(states[k].beats)[a] == 1
  {
    BeatBounds(states, events, k, a);
    j := 0;
    if states[k].attempts[a].phase != Fetching {
      forall m | 0 <= m <= k && a < |states[m].attempts| && states[m].attempts[a].phase != Fetching
        ensures AnswerOrKeep(states, events, m, a)
      {
        EveryStepAnswersOrKeeps(states, events, m, a);
      }
      j := FindAnswer(states, events, k, a);
    }
  }

  /** A reader goes round its loop at most twice: the second attempt it waits for answers it. */
  lemma ReaderLoopIsBounded(states: seq<State>, events: seq<Event>, k: nat, r: nat)
    requires Run(states, events) && k < |states| && r < |states[k].readers|
    ensures states[k].readers[r].turns <= 2
  {
    RunKeepsInv(states, events, k);
    assert ReaderInv(states[k], r);
  }

  /** `rows` are the entries of `list` at the rising positions `at`. */
  predicate Picks(list: seq<Row>, rows: seq<Row>, at: seq<nat>) {
    && |at| == |rows|
    && (forall i :: 0 <= i < |at| ==> at[i] < |list| && rows[i] == list[at[i]])
    && (forall i, j :: 0 <= i < j < |at| ==> at[i] < at[j])
  }

  function Shifted(at: seq<nat>): (r: seq<nat>)
    ensures |r| == |at| && forall i :: 0 <= i < |at| ==> r[i] == at[i] + 1
  {
    if at == [] then [] else [at[0] + 1] + Shifted(at[1..])
  }

  lemma {:induction false} ShiftedMembers(at: seq<nat>, p: nat)
    ensures p in Shifted(at) <==> p > 0 && p - 1 in at
  {
    if at != [] { ShiftedMembers(at[1..], p); }
  }

  lemma PicksFromTail(list: seq<Row>, rows: seq<Row>, at: seq<nat>)
    requires list != [] && Picks(list[1..], rows, at)
    ensures Picks(list, rows, Shifted(at)) && Picks(list, [list[0]] + rows, [0] + Shifted(at))
  {
    assert forall i :: 0 <= i < |at| ==> list[1..][at[i]] == list[at[i] + 1];
  }

  lemma {:induction false} KeepPicks(list: seq<Row>, excluded: set<string>) returns (at: seq<nat>)
    ensures Picks(list, Keep(list, excluded), at)
    ensures forall p :: 0 <= p < |list| ==> (p in at <==> list[p].id !in excluded)
  {
    at := [];
    if list != [] {
      var rest := KeepPicks(list[1..], excluded);
      PicksFromTail(list, Keep(list[1..], excluded), rest);
      var dropped := list[0].id in excluded;
      at := if dropped then Shifted(rest) else [0] + Shifted(rest);
      assert Keep(list, excluded) == if dropped then Keep(list[1..], excluded) else [list[0]] + Keep(list[1..], excluded);
      forall p | 0 <= p < |list| ensures p in at <==> list[p].id !in excluded {
        ShiftedMembers(rest, p);
        assert p > 0 ==> list[p] == list[1..][p - 1];
        assert p in at <==> (p == 0 && !dropped) || p in Shifted(rest);
      }
    }
  }

  /** The step of a run that made the `i`-th write, in the generation the write is stamped with. */
  predicate WrittenAt(states: seq<State>, j: nat, i: nat, h: Hydrate) {
    && j + 1 < |states| && |states[j].hydrates| == i < |states[j + 1].hydrates|
    && states[j + 1].hydrates[i] == h && states[j].generation == h.generation
  }

  lemma StepWritesOnce(s: State, e: Event)
    requires SlotInv(s) && Possible(s, e)
    ensures var t := Step(s, e);
      t.hydrates == s.hydrates ||
      (|t.hydrates| == |s.hydrates| + 1 && t.hydrates[..|s.hydrates|] == s.hydrates &&
       t.hydrates[|s.hydrates|].generation == s.generation)
  {
  }

  lemma {:induction false} WritesAreStamped(states: seq<State>, events: seq<Event>, k: nat, i: nat) returns (j: nat)
    requires Run(states, events) && k < |states| && i < |states[k].hydrates|
    ensures j < k && WrittenAt(states, j, i, states[k].hydrates[i])
    decreases k
  {
    assert states[k - 1 + 1] == Step(states[k - 1], events[k - 1]);
    StepWritesOnce(states[k - 1], events[k - 1]);
    if i < |states[k - 1].hydrates| {
      assert states[k].hydrates[i] == states[k - 1].hydrates[i];
      j := WritesAreStamped(states, events, k - 1, i);
    } else {
      j := k - 1;
    }
  }

  /**
    Every write of the session store is made by one step, from an attempt of the generation in force at
    that step, and holds exactly the rows of its list, in order, that no reader sharing it excluded.
   */
  lemma HydratesAreCurrentAndExcluded(states: seq<State>, events: seq<Event>, k: nat, i: nat)
    returns (j: nat, at: seq<nat>)
    requires Run(states, events) && k < |states| && i < |states[k].hydrates|
    ensures var s, h := states[k], states[k].hydrates[i];
      && j < k && WrittenAt(states, j, i, h)
      && h.attempt < |s.attempts| && s.attempts[h.attempt].generation == states[j].generation
      && s.attempts[h.attempt].list.Some?
      && Picks(s.attempts[h.attempt].list.value, h.rows, at)
      && forall p :: 0 <= p < |s.attempts[h.attempt].list.value| ==>
           (p in at <==> !ExcludedBySome(s, h.attempt, s.attempts[h.attempt].list.value[p].id))
  {
    RunKeepsInv(states, events, k);
    var s, h := states[k], states[k].hydrates[i];
    assert HydrateInv(s, h);
    at := KeepPicks(s.attempts[h.attempt].list.value, s.attempts[h.attempt].excluded);
    forall x ensures x in s.attempts[h.attempt].excluded <==> ExcludedBySome(s, h.attempt, x) {
      ExcludedExactly(s, h.attempt, x);
    }
    j := WritesAreStamped(states, events, k, i);
  }

  lemma ExcludedExactly(s: State, a: nat, x: string)
    requires a < |s.attempts| && AttemptInv(s, a)
    ensures x in s.attempts[a].excluded <==> ExcludedBySome(s, a, x)
  {
    if r :| r in s.attempts[a].joined && r < |s.readers| && x in s.readers[r].excludes {
      assert s.readers[r].excludes <= s.attempts[a].excluded;
    }
  }

  function Resets(events: seq<Event>): nat {
    if events == [] then 0 else Resets(events[..|events| - 1]) + if events[|events| - 1].Reset? then 1 else 0
  }

  /** A generation is the number of resets before it, so each reset revokes all that was asked before. */
  lemma {:induction false} GenerationCountsResets(states: seq<State>, events: seq<Event>, k: nat)
    requires Run(states, events) && k < |states|
    ensures states[k].generation == Resets(events[..k])
  {
    if k > 0 {
      GenerationCountsResets(states, events, k - 1);
      RunStep(states, events, k);
      assert events[..k][..k - 1] == events[..k - 1];
      GenerationStep(states[k - 1], events[k - 1]);
    }
  }

  lemma GenerationStep(s: State, e: Event)
    requires SlotInv(s) && Possible(s, e)
    ensures Step(s, e).generation == s.generation + if e.Reset? then 1 else 0
  {
  }

  // ---------------------------------------------------------------- what a reader gets

  /** A call on revoked authority is refused at once; any other waits on the one attempt, its exclusions added. */
  lemma CallJoinsExactlyWhenCurrent(s: State, authority: nat, allowEmpty: bool, excludes: set<string>)
    requires Inv(s) && authority <= s.generation
    ensures var t, r := Step(s, Call(authority, allowEmpty, excludes)), |s.readers|;
      && |t.readers| == r + 1 && t.readers[..r] == s.readers
      && t.readers[r].generation == authority && t.readers[r].allowEmpty == allowEmpty && t.readers[r].excludes == excludes
      && if authority != s.generation then t.readers[r].progress == Returned(false) && t.attempts == s.attempts
         else
           && t.slot.Some? && t.readers[r].progress == Waiting(t.slot.value)
           && r in t.attempts[t.slot.value].joined && excludes <= t.attempts[t.slot.value].excluded
           && (if s.slot.Some? then t.slot == s.slot && |t.attempts| == |s.attempts|
               else |t.attempts| == |s.attempts| + 1 && t.attempts[t.slot.value].generation == s.generation &&
                    t.attempts[t.slot.value].phase == Fetching)
  {
  }

  /** The settled attempt of its own generation gives a current reader its list; another makes it wait again. */
  lemma ResumeGivesTheList(s: State, r: nat)
    requires Inv(s) && Possible(s, Resume(r))
    ensures var t, reader := Step(s, Resume(r)), s.readers[r];
      var a := reader.progress.attempt;
      if reader.generation != s.generation then t.readers[r].progress == Got(a, None, {})
      else if s.attempts[a].generation == reader.generation
      then t.readers[r].progress == Got(a, s.attempts[a].list, s.attempts[a].excluded)
      else
        && t.slot.Some? && t.readers[r].progress == Waiting(t.slot.value) && t.slot.value != a
        && t.attempts[t.slot.value].generation == s.generation && r in t.attempts[t.slot.value].joined
  {
    var a := s.readers[r].progress.attempt;
    assert ReaderInv(s, r) && AttemptInv(s, a);
    if s.slot.Some? { assert AttemptInv(s, s.slot.value); }
  }

  /** A delivery writes exactly when its reader is current and holds rows, or may write none. */
  lemma DeliveryWritesExactlyWhen(s: State, r: nat)
    requires Inv(s) && Possible(s, Deliver(r))
    ensures var t, reader := Step(s, Deliver(r)), s.readers[r];
      var list := reader.progress.list;
      var writes := reader.generation == s.generation && list.Some? && (list.value != [] || reader.allowEmpty);
      && t.readers[r].progress == Returned(reader.generation == s.generation)
      && |t.hydrates| == |s.hydrates| + (if writes then 1 else 0) && t.hydrates[..|s.hydrates|] == s.hydrates
      && (writes ==> t.hydrates[|s.hydrates|].attempt == reader.progress.attempt)
  {
  }

  // ---------------------------------------------------------------- the module's own variables

  /** `attempts`, `readers`, `beats` and `hydrates` stand for the promises, frames and stores behind them. */
  class CatalogClient {
    var generation: nat
    var slot: Option<nat>
    var attempts: seq<Attempt>
    var readers: seq<Reader>
    var beats: seq<nat>
    var hydrates: seq<Hydrate>

    function View(): State
      reads this
    {
      State(generation, slot, attempts, readers, beats, hydrates)
    }

    constructor ()
      ensures View() == Init() && Inv(View())
    {
      generation, slot, attempts, readers, beats, hydrates := 0, None, [], [], [], [];
    }

    /** `currentCatalogTransportAttempt`. */
    method CurrentAttempt() returns (a: nat)
      requires Inv(View())
      modifies this
      ensures View() == Started(old(View())) && slot == Some(a)
    {
      if slot.Some? { return slot.value; }
      a := |attempts|;
      attempts := attempts + [Attempt(generation, Fetching, None, {}, {})];
      slot := Some(a);
    }

    method JoinAttempt(r: nat)
      requires Inv(View()) && r < |readers|
      modifies this
      ensures View() == Join(old(View()), r)
    {
      var a := CurrentAttempt();
      attempts := attempts[a := Shared(attempts[a], r, readers[r].excludes)];
      readers := readers[r := readers[r].(progress := Waiting(a), turns := readers[r].turns + 1)];
    }

    /** `hydrateTerminalSessionsFromCatalog`, up to its first await. */
    method HydrateCall(authority: nat, allowEmpty: bool, excludes: set<string>)
      requires Inv(View()) && Possible(View(), Call(authority, allowEmpty, excludes))
      modifies this
      ensures View() == Step(old(View()), Call(authority, allowEmpty, excludes)) && Inv(View())
    {
      StepKeepsInv(View(), Call(authority, allowEmpty, excludes));
      NewReaderKeepsInv(View(), Reader(authority, allowEmpty, excludes, Returned(false), 0));
      readers := readers + [Reader(authority, allowEmpty, excludes, Returned(false), 0)];
      if authority == generation { JoinAttempt(|readers| - 1); }
    }

    /** The continuation that records the health beat. */
    method TransportAnswered(a: nat, list: Option<seq<Row>>)
      requires Inv(View()) && Possible(View(), Answer(a, list))
      modifies this
      ensures View() == Step(old(View()), Answer(a, list)) && Inv(View())
    {
      StepKeepsInv(View(), Answer(a, list));
      if attempts[a].generation == generation { beats := beats + [a]; }
      attempts := attempts[a := attempts[a].(phase := Answered, list := list)];
    }

    /** The continuation that gives the slot back. */
    method TransportReleased(a: nat)
      requires Inv(View()) && Possible(View(), Release(a))
      modifies this
      ensures View() == Step(old(View()), Release(a)) && Inv(View())
    {
      StepKeepsInv(View(), Release(a));
      attempts := attempts[a := attempts[a].(phase := Settled)];
      if slot == Some(a) { slot := None; }
    }

    /** `fetchCatalogForGeneration` after its await. */
    method ReaderResumes(r: nat)
      requires Inv(View()) && Possible(View(), Resume(r))
      modifies this
      ensures View() == Step(old(View()), Resume(r)) && Inv(View())
    {
      StepKeepsInv(View(), Resume(r));
      var a := readers[r].progress.attempt;
      if readers[r].generation != generation {
        readers := readers[r := readers[r].(progress := Got(a, None, {}))];
      } else if attempts[a].generation == readers[r].generation {
        readers := readers[r := readers[r].(progress := Got(a, attempts[a].list, attempts[a].excluded))];
      } else {
        JoinAttempt(r);
      }
    }

    /** `hydrateTerminalSessionsFromCatalog` after its await. */
    method ReaderDelivers(r: nat)
      requires Inv(View()) && Possible(View(), Deliver(r))
      modifies this
      ensures View() == Step(old(View()), Deliver(r)) && Inv(View())
    {
      StepKeepsInv(View(), Deliver(r));
      var reader := readers[r];
      readers := readers[r := reader.(progress := Returned(reader.generation == generation))];
      if reader.generation != generation { return; }
      if reader.progress.list.None? || (reader.progress.list.value == [] && !reader.allowEmpty) { return; }
      hydrates := hydrates +
        [Hydrate(reader.progress.attempt, Keep(reader.progress.list.value, reader.progress.excluded), generation)];
    }

    method ResetForDev()
      requires Inv(View())
      modifies this
      ensures View() == Step(old(View()), Reset) && Inv(View())
    {
      StepKeepsInv(View(), Reset);
      generation := generation + 1;
    }
  }
}
